/** The image upload endpoint (`api.upload`): a fixed chain of checks on the
    submitted file, then the file's bytes returned inline as a `data:` URL
    (RFC 2397) with base 64 content. */
module UploadRoute {
  import opened Common
  import Base64

  /** A file part of the submitted form. `content` is None when reading its
      bytes (`file.arrayBuffer()`) fails. */
  datatype UploadFile = UploadFile(name: string, size: nat, mimeType: string, content: Option<seq<Base64.byte>>)

  /** What `formData.get("file")` yields: nothing, a text value, or a file. */
  datatype FormEntry = Absent | Text(text: string) | File(file: UploadFile)

  /** The request body as `request.formData()` reads it; Unreadable when that
      call rejects. */
  datatype UploadRequest = Unreadable | Form(file: FormEntry)

  datatype Body =
    | Failure(error: string)
    | Uploaded(url: string, filename: string, size: nat, mimeType: string)

  datatype Response = Response(status: nat, body: Body)

  const MaxSize: nat := 2 * 1024 * 1024
  const AllowedTypes: seq<string> := ["image/jpeg", "image/jpg", "image/png", "image/gif"]

  const NoFileError := "No file provided"
  const FileTypeError := "Invalid file type. Only JPG, PNG, and GIF files are allowed."
  const FileSizeError := "File size must be less than 2MB"
  const UploadFailedError := "Failed to upload file"

  /** `!file || !file.size` is false: a file entry with a non-zero size. A
      text entry has no `size`, so it counts as no file. */
  predicate HasFile(e: FormEntry) {
    e.File? && e.file.size != 0
  }

  /** The URL of a successful upload. */
  function DataUrl(mimeType: string, bytes: seq<Base64.byte>): (url: string)
    ensures |url| == 13 + |mimeType| + 4 * ((|bytes| + 2) / 3)
    ensures url[..5] == "data:" && url[5..5 + |mimeType|] == mimeType
    ensures url[5 + |mimeType|..13 + |mimeType|] == ";base64," && url[13 + |mimeType|..] == Base64.Encode(bytes)
  {
    "data:" + mimeType + ";base64," + Base64.Encode(bytes)
  }

  /** The endpoint's `action`, after authentication. */
  function Action(req: UploadRequest): (r: Response)
    ensures r.status == 200 <==> r.body.Uploaded?
    ensures r.status in {200, 400, 500}
    ensures req.Unreadable? ==> r == Response(500, Failure(UploadFailedError))
    ensures req.Form? && !HasFile(req.file) ==> r == Response(400, Failure(NoFileError))
    ensures req.Form? && HasFile(req.file) && req.file.file.mimeType !in AllowedTypes
            ==> r == Response(400, Failure(FileTypeError))
    ensures req.Form? && HasFile(req.file) && req.file.file.mimeType in AllowedTypes && req.file.file.size > MaxSize
            ==> r == Response(400, Failure(FileSizeError))
    ensures req.Form? && HasFile(req.file) && req.file.file.mimeType in AllowedTypes && req.file.file.size <= MaxSize
            && req.file.file.content.None?
            ==> r == Response(500, Failure(UploadFailedError))
    ensures r.status == 200 <==>
            req.Form? && HasFile(req.file) && req.file.file.mimeType in AllowedTypes
            && req.file.file.size <= MaxSize && req.file.file.content.Some?
    ensures r.body.Uploaded? ==>
            var f := req.file.file;
            r.body == Uploaded(DataUrl(f.mimeType, f.content.value), f.name, f.size, f.mimeType)
  {
    match req
    case Unreadable => Response(500, Failure(UploadFailedError))
    case Form(entry) =>
      if !HasFile(entry) then Response(400, Failure(NoFileError))
      else
        var f := entry.file;
        if f.mimeType !in AllowedTypes then Response(400, Failure(FileTypeError))
        else if f.size > MaxSize then Response(400, Failure(FileSizeError))
        else match f.content
          case None => Response(500, Failure(UploadFailedError))
          case Some(bytes) => Response(200, Uploaded(DataUrl(f.mimeType, bytes), f.name, f.size, f.mimeType))
  }

  /** The cap is inclusive: exactly 2 MiB passes the size check, one byte more
      does not. */
  lemma SizeCapBoundary(name: string, mimeType: string, bytes: seq<Base64.byte>)
    requires mimeType in AllowedTypes
    ensures Action(Form(File(UploadFile(name, MaxSize, mimeType, Some(bytes))))).status == 200
    ensures Action(Form(File(UploadFile(name, MaxSize + 1, mimeType, Some(bytes)))))
            == Response(400, Failure(FileSizeError))
  {
  }

  /** The type check comes before the size check: an oversized file of a
      refused type is reported for its type. */
  lemma TypeCheckedBeforeSize(f: UploadFile)
    requires f.size > MaxSize && f.mimeType !in AllowedTypes
    ensures Action(Form(File(f))) == Response(400, Failure(FileTypeError))
  {
  }

  /** Position of the first ',' in `s`, or `|s|` when there is none. */
  function FirstComma(s: string): (k: nat)
    ensures k <= |s| && (k < |s| ==> s[k] == ',')
    ensures forall i :: 0 <= i < k ==> s[i] != ','
  {
    if s == [] || s[0] == ',' then 0 else 1 + FirstComma(s[1..])
  }

  /** Reads a base 64 data URL (`data:<mediatype>;base64,<data>`, RFC 2397)
      back into its media type and bytes. */
  function ParseDataUrl(url: string): Option<(string, seq<Base64.byte>)> {
    if |url| < 5 || url[..5] != "data:" then None
    else
      var rest := url[5..];
      var k := FirstComma(rest);
      if k == |rest| then None
      else
        var header := rest[..k];
        if |header| < 7 || header[|header| - 7..] != ";base64" then None
        else match Base64.Decode(rest[k + 1..])
          case None => None
          case Some(bytes) => Some((header[..|header| - 7], bytes))
  }

  lemma AllowedTypesHaveNoComma(t: string)
    requires t in AllowedTypes
    ensures forall i :: 0 <= i < |t| ==> t[i] != ','
  {
  }

  /** The URL of a successful upload reads back as the file's own type and
      bytes: nothing is lost or mixed up in building it. */
  lemma DataUrlRoundTrip(mimeType: string, bytes: seq<Base64.byte>)
    requires forall i :: 0 <= i < |mimeType| ==> mimeType[i] != ','
    ensures ParseDataUrl(DataUrl(mimeType, bytes)) == Some((mimeType, bytes))
  {
    var url := DataUrl(mimeType, bytes);
    var rest := url[5..];
    assert rest == mimeType + ";base64," + Base64.Encode(bytes);
    var k := |mimeType| + 7;
    assert rest[k] == ',';
    assert forall i :: 0 <= i < k ==> rest[i] != ',' by {
      forall i | 0 <= i < k ensures rest[i] != ',' {
        if i < |mimeType| { assert rest[i] == mimeType[i]; }
      }
    }
    assert FirstComma(rest) == k;
    assert rest[..k] == mimeType + ";base64";
    assert rest[k + 1..] == Base64.Encode(bytes);
    Base64.DecodeEncode(bytes);
  }

  /** Whatever the endpoint accepts, its URL decodes to the uploaded file. */
  lemma UploadedUrlDecodes(req: UploadRequest)
    requires Action(req).status == 200
    ensures ParseDataUrl(Action(req).body.url) == Some((req.file.file.mimeType, req.file.file.content.value))
  {
    AllowedTypesHaveNoComma(req.file.file.mimeType);
    DataUrlRoundTrip(req.file.file.mimeType, req.file.file.content.value);
  }
}
