/**
 * The checks in front of image uploads: the file-name extension whitelist, the early
 * returns of the two upload paths, and the extension a camera data URL is saved under.
 * Writing files, decoding base64 and inspecting image bytes are outside the model.
 */
module FileService {
  import opened Wrappers
  import opened Text

  /** `ALLOWED_EXTENSIONS`. */
  const AllowedExtensions: set<string> := {"png", "jpg", "jpeg", "webp"}

  /** `filename.rsplit(".", 1)[1].lower()`: the lower-cased text after the last dot, when there is a dot. */
  function ExtensionOf(filename: string): (ext: Option<string>)
    ensures ext.None? <==> '.' !in filename
    ensures ext.Some? ==> '.' !in ext.value
  {
    match LastIndexOf(filename, '.')
    case None => None
    case Some(i) =>
      var tail := filename[i + 1..];
      assert forall j :: 0 <= j < |tail| ==> tail[j] == filename[i + 1 + j];
      Some(Lower(tail))
  }

  /** `_is_allowed`: the name has a dot and its last extension, in any case, is whitelisted. */
  predicate IsAllowed(filename: string)
  {
    ExtensionOf(filename).Some? && ExtensionOf(filename).value in AllowedExtensions
  }

  /** Only the part after the last dot counts: `stem.ext` is allowed exactly when `ext`, lower-cased, is whitelisted. */
  lemma AllowedByLastExtension(stem: string, ext: string)
    requires '.' !in ext
    ensures IsAllowed(stem + "." + ext) <==> Lower(ext) in AllowedExtensions
  {
    var name := stem + "." + ext;
    assert name[|stem|] == '.';
    assert LastIndexOf(name, '.') == Some(|stem|) by {
      forall j | |stem| < j < |name|
        ensures name[j] != '.'
      {
        assert name[j] == ext[j - |stem| - 1];
      }
    }
    assert name[|stem| + 1..] == ext;
  }

  /** A name without a dot is never allowed. */
  lemma NoDotRejected(filename: string)
    requires '.' !in filename
    ensures !IsAllowed(filename)
  {
  }

  /**
   * `save_image` up to the write: None when no file or no file name was sent; 400 when
   * the sanitised name is empty or not whitelisted, and 400 when the bytes are not an
   * image; otherwise the extension the stored file gets. `secure` is the file-name
   * sanitiser, `isImage` the result of inspecting the bytes.
   */
  function UploadExtension(filename: Option<string>, secure: string -> string, isImage: bool): (r: Result<Option<string>>)
    ensures OrElse(filename, "") == [] ==> r == Success(None)
    ensures r.Failure? ==> r.error == BadRequest
    ensures r.Success? && r.value.Some? ==>
      filename.Some? && IsAllowed(secure(filename.value)) && isImage && r.value.value in AllowedExtensions
    ensures OrElse(filename, "") != [] ==>
      (r.Failure? <==> secure(filename.value) == [] || !IsAllowed(secure(filename.value)) || !isImage)
    ensures r.Success? && OrElse(filename, "") != [] ==> r.value == ExtensionOf(secure(filename.value))
  {
    if OrElse(filename, "") == "" then Success(None)
    else
      var name := secure(filename.value);
      if name == "" || !IsAllowed(name) then Failure(BadRequest)
      else if !isImage then Failure(BadRequest)
      else Success(ExtensionOf(name))
  }

  /** The marker that separates a data URL's header from its payload. */
  const Base64Marker: string := "base64,"

  /** The text before the first marker. */
  function Header(dataUrl: string): (h: string)
    requires Contains(dataUrl, Base64Marker)
    ensures |h| <= |dataUrl| && h == dataUrl[..|h|] && OccursAt(dataUrl, Base64Marker, |h|)
    ensures forall j :: 0 <= j < |h| ==> !OccursAt(dataUrl, Base64Marker, j)
  {
    dataUrl[..IndexOf(dataUrl, Base64Marker).value]
  }

  /** The extension a header chooses: jpg for JPEG, else webp for WebP, else png. */
  function ExtensionForHeader(header: string): (ext: string)
    ensures ext == "jpg" <==> Contains(header, "image/jpeg")
    ensures ext == "webp" <==> !Contains(header, "image/jpeg") && Contains(header, "image/webp")
    ensures ext == "png" <==> !Contains(header, "image/jpeg") && !Contains(header, "image/webp")
  {
    if Contains(header, "image/jpeg") then "jpg"
    else if Contains(header, "image/webp") then "webp"
    else "png"
  }

  /**
   * `save_camera_data_url` up to the write: None for an empty value or one without the
   * marker; otherwise the extension its header chooses.
   */
  function CameraExtension(dataUrl: Option<string>): (ext: Option<string>)
    ensures ext.Some? <==> OrElse(dataUrl, "") != [] && Contains(dataUrl.value, Base64Marker)
    ensures ext.Some? ==> ext.value == ExtensionForHeader(Header(dataUrl.value))
  {
    if OrElse(dataUrl, "") == "" || !Contains(dataUrl.value, Base64Marker) then None
    else Some(ExtensionForHeader(Header(dataUrl.value)))
  }

  /** Every extension a camera image is saved under passes the upload whitelist. */
  lemma CameraExtensionAllowed(dataUrl: Option<string>, stem: string)
    requires CameraExtension(dataUrl).Some?
    ensures IsAllowed(stem + "." + CameraExtension(dataUrl).value)
  {
    var ext := CameraExtension(dataUrl).value;
    assert ext == "jpg" || ext == "webp" || ext == "png";
    LowerNoop(ext);
    AllowedByLastExtension(stem, ext);
  }

  /** The header stops at the first marker: a payload after it cannot change the choice. */
  lemma HeaderIgnoresPayload(header: string, payload: string)
    requires forall j :: 0 <= j < |header| ==> !OccursAt(header + Base64Marker + payload, Base64Marker, j)
    ensures Contains(header + Base64Marker + payload, Base64Marker)
    ensures Header(header + Base64Marker + payload) == header
  {
    var s := header + Base64Marker + payload;
    assert s[|header|..|header| + |Base64Marker|] == Base64Marker;
    assert OccursAt(s, Base64Marker, |header|);
    assert IndexOf(s, Base64Marker) == Some(|header|);
    assert s[..|header|] == header;
  }
}
