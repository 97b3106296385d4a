/** The request handler of scripts/serve.js, the static server for the built
    web app: CORS preflight, the root default, the directory-containment guard,
    the SPA fallback to index.html and the MIME lookup. Node's `path.normalize`,
    `path.join` and `path.extname` are parameters, and so is what `fs.stat`
    and `fs.readFile` find; containment is stated against the joined path. */
module StaticServer {
  import opened Strings

  /** `MIME_TYPES`. */
  const MimeTypes: map<string, string> := map[
    ".html" := "text/html",
    ".js" := "application/javascript",
    ".json" := "application/json",
    ".css" := "text/css",
    ".png" := "image/png",
    ".jpg" := "image/jpeg",
    ".svg" := "image/svg+xml",
    ".ico" := "image/x-icon"
  ]

  const DefaultMimeType: string := "application/octet-stream"

  /** `MIME_TYPES[ext.toLowerCase()] || 'application/octet-stream'`, for the
      extension `path.extname` returned. */
  function GetMimeType(ext: string): (r: string)
    ensures ToLower(ext) in MimeTypes ==> r == MimeTypes[ToLower(ext)]
    ensures ToLower(ext) !in MimeTypes ==> r == DefaultMimeType
  {
    var key := ToLower(ext);
    if key in MimeTypes then MimeTypes[key] else DefaultMimeType
  }

  lemma ToLowerIdempotent(s: string)
    ensures ToLower(ToLower(s)) == ToLower(s)
  {
    forall i | 0 <= i < |s| ensures ToLower(ToLower(s))[i] == ToLower(s)[i] {
      assert !IsAsciiUpper(LowerChar(s[i]));
    }
  }

  /** The lookup ignores the case of the extension. */
  lemma MimeTypeIgnoresCase(ext: string)
    ensures GetMimeType(ext) == GetMimeType(ToLower(ext))
  {
    ToLowerIdempotent(ext);
  }

  // -------------------------------------------------------------- paths

  /** Node's path functions, left abstract. */
  datatype NodePath = NodePath(normalize: string -> string, join: (string, string) -> string, extname: string -> string)

  /** What the file system holds: `fs.stat(p)` succeeds with `isFile()`, and
      `fs.readFile(p)` succeeds. */
  datatype FileSystem = FileSystem(isFile: string -> bool, readable: string -> bool)

  /** `'/'` is served as `'/index.html'`; every other pathname as it is. */
  function RequestTarget(pathname: string): (r: string)
    ensures pathname == "/" ==> r == "/index.html"
    ensures pathname != "/" ==> r == pathname
  {
    if pathname == "/" then "/index.html" else pathname
  }

  /** `.replace(/^(\.\.[\/\\])+/, '')`: drops every leading `../` or `..\`. */
  function StripParentPrefixes(s: string): (r: string)
    ensures |r| <= |s| && r == s[|s| - |r|..]
    ensures !StartsWith(r, "../") && !StartsWith(r, "..\\")
  {
    if |s| >= 3 && s[0] == '.' && s[1] == '.' && (s[2] == '/' || s[2] == '\\') then StripParentPrefixes(s[3..])
    else s
  }

  /** The file a GET asks for: the normalized, stripped pathname joined onto
      the public directory. */
  function FilePathFor(pathname: string, publicDir: string, path: NodePath): string
  {
    path.join(publicDir, StripParentPrefixes(path.normalize(RequestTarget(pathname))))
  }

  // ----------------------------------------------------------- responses

  datatype Body = Empty | Text(text: string) | FileContents(file: string)

  datatype HttpResponse = HttpResponse(status: int, headers: seq<(string, string)>, body: Body)

  const PreflightHeaders: seq<(string, string)> := [
    ("Access-Control-Allow-Origin", "*"),
    ("Access-Control-Allow-Methods", "GET, OPTIONS"),
    ("Access-Control-Allow-Headers", "Content-Type, expo-platform")
  ]

  const PlainText: seq<(string, string)> := [("Content-Type", "text/plain")]

  function FileHeaders(mimeType: string): seq<(string, string)>
  {
    [("Content-Type", mimeType),
     ("Access-Control-Allow-Origin", "*"),
     ("Access-Control-Allow-Methods", "GET, OPTIONS"),
     ("Access-Control-Allow-Headers", "Content-Type"),
     ("expo-protocol-version", "1"),
     ("expo-sfv-version", "0")]
  }

  const NotFound: HttpResponse := HttpResponse(404, PlainText, Text("404 Not Found"))

  const Forbidden: HttpResponse := HttpResponse(403, PlainText, Text("403 Forbidden"))

  /** serveFile: 404 when the read fails, otherwise 200 with the file and its
      MIME type. */
  function ServeFile(filePath: string, path: NodePath, fs: FileSystem): (r: HttpResponse)
    ensures r.status == 200 <==> fs.readable(filePath)
    ensures r.status == 200 ==> r == HttpResponse(200, FileHeaders(GetMimeType(path.extname(filePath))), FileContents(filePath))
    ensures r.status != 200 ==> r == NotFound
  {
    if !fs.readable(filePath) then NotFound
    else HttpResponse(200, FileHeaders(GetMimeType(path.extname(filePath))), FileContents(filePath))
  }

  /** The request handler for a request method and the URL's pathname. */
  function HandleRequest(verb: string, pathname: string, publicDir: string, path: NodePath, fs: FileSystem): (r: HttpResponse)
    ensures verb == "OPTIONS" ==> r == HttpResponse(204, PreflightHeaders, Empty)
    ensures verb != "OPTIONS" ==>
              (r == Forbidden <==> !StartsWith(FilePathFor(pathname, publicDir, path), publicDir))
    ensures r.body.FileContents? ==>
              r.status == 200 && fs.readable(r.body.file)
              && StartsWith(FilePathFor(pathname, publicDir, path), publicDir)
              && fs.isFile(r.body.file)
              && (r.body.file == FilePathFor(pathname, publicDir, path)
                  || (r.body.file == path.join(publicDir, "index.html") && !fs.isFile(FilePathFor(pathname, publicDir, path))))
    ensures verb != "OPTIONS" && StartsWith(FilePathFor(pathname, publicDir, path), publicDir) ==>
              var filePath := FilePathFor(pathname, publicDir, path);
              var indexPath := path.join(publicDir, "index.html");
              r == if fs.isFile(filePath) then ServeFile(filePath, path, fs)
                   else if fs.isFile(indexPath) then ServeFile(indexPath, path, fs)
                   else NotFound
  {
    if verb == "OPTIONS" then HttpResponse(204, PreflightHeaders, Empty)
    else
      var filePath := FilePathFor(pathname, publicDir, path);
      if !StartsWith(filePath, publicDir) then Forbidden
      else if fs.isFile(filePath) then ServeFile(filePath, path, fs)
      else
        var indexPath := path.join(publicDir, "index.html");
        if fs.isFile(indexPath) then ServeFile(indexPath, path, fs) else NotFound
  }
}
