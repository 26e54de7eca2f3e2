/** Static file serving: the content type by file extension, and the 200/404 answer to a
    file read. The read itself and `path.extname` are inputs. */
module Static {
  import opened Utf8
  import opened Http

  const MimeTypes: map<string, string> := map[
    ".html" := "text/html",
    ".css" := "text/css",
    ".js" := "application/javascript",
    ".json" := "application/json",
    ".png" := "image/png",
    ".ico" := "image/x-icon"
  ]

  const DefaultType := "application/octet-stream"

  /** `MIME_TYPES[ext] ?? 'application/octet-stream'`: the table's entry for exactly this
      key, and the generic binary type for every key the table lacks. */
  function ContentType(ext: string): (r: string)
    ensures ext in MimeTypes ==> r == MimeTypes[ext]
    ensures ext !in MimeTypes <==> r == DefaultType
  {
    if ext in MimeTypes then MimeTypes[ext] else DefaultType
  }

  /** The table entries, the empty extension, and the case-sensitive match. */
  lemma ContentTypeExamples()
    ensures ContentType(".html") == "text/html" && ContentType(".css") == "text/css"
    ensures ContentType(".js") == "application/javascript" && ContentType(".json") == "application/json"
    ensures ContentType(".png") == "image/png" && ContentType(".ico") == "image/x-icon"
    ensures ContentType("") == DefaultType && ContentType(".HTML") == DefaultType
    ensures ContentType(".txt") == DefaultType
  {
  }

  /** The result of `fs.readFile`: the file's bytes, or any error. */
  datatype FileRead = Contents(data: seq<byte>) | ReadFailed

  /** `serveStatic(res, filePath)` given the file's extension and the read result: a failed
      read is a plain-text 404 `Not Found`; a successful one is a 200 carrying the bytes
      unchanged under the looked-up content type. */
  function ServeStatic(ext: string, read: FileRead): (r: Response)
    ensures r.status == 200 <==> read.Contents?
    ensures read.ReadFailed? ==> r == Response(404, map["Content-Type" := "text/plain"], TextBody("Not Found"))
    ensures read.Contents? ==> r.headers == map["Content-Type" := ContentType(ext)] && Wire(r.body) == read.data
  {
    match read
    case ReadFailed => Response(404, map["Content-Type" := "text/plain"], TextBody("Not Found"))
    case Contents(data) => Response(200, map["Content-Type" := ContentType(ext)], FileBody(data))
  }
}
