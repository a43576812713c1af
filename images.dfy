/** `ImagesService` of the product service: upload validation, the resize and
    encoding decision, file names and URLs, and deletion by base name.
    Image decoding and encoding (`sharp`), the clock and the random suffix are inputs;
    the uploads directory is a map from file name to what was written there. */
module Images {
  import opened Wrappers
  import opened Text
  import opened NodePath

  const MaxFileSize: nat := 5 * 1024 * 1024
  const AllowedMimeTypes: seq<string> := ["image/jpeg", "image/jpg", "image/png", "image/webp"]

  /** The Multer file fields the service reads. */
  datatype UploadedFile = UploadedFile(originalname: string, mimetype: string, size: nat)

  /** `parts.join(sep)`. */
  function JoinWith(parts: seq<string>, sep: string): string {
    if |parts| == 0 then "" else if |parts| == 1 then parts[0] else parts[0] + sep + JoinWith(parts[1..], sep)
  }

  const NoFileMessage := "No file uploaded"

  function SizeMessage(): string {
    "File size exceeds maximum allowed size of " + NatToString(MaxFileSize / 1024 / 1024) + "MB"
  }

  function TypeMessage(): string {
    "Invalid file type. Allowed types: " + JoinWith(AllowedMimeTypes, ", ")
  }

  lemma SizeMessageSpelledOut()
    ensures SizeMessage() == "File size exceeds maximum allowed size of 5MB"
  {
    assert MaxFileSize / 1024 / 1024 == 5;
    var five := NatToString(5);
    assert five == "5";
    var m := "File size exceeds maximum allowed size of " + five;
    assert m == "File size exceeds maximum allowed size of 5";
    assert m + "MB" == "File size exceeds maximum allowed size of 5MB";
  }

  lemma AllowedTypesJoined()
    ensures JoinWith(AllowedMimeTypes, ", ") == "image/jpeg, " + "image/jpg, " + "image/png, " + "image/webp"
  {
    var last := ["image/webp"];
    JoinStep("image/png", last, ", ");
    JoinStep("image/jpg", ["image/png"] + last, ", ");
    JoinStep("image/jpeg", ["image/jpg"] + (["image/png"] + last), ", ");
    assert AllowedMimeTypes == ["image/jpeg"] + (["image/jpg"] + (["image/png"] + last));
  }

  /** Joining a part in front of at least one more. */
  lemma JoinStep(x: string, rest: seq<string>, sep: string)
    requires |rest| >= 1
    ensures JoinWith([x] + rest, sep) == x + sep + JoinWith(rest, sep)
  {
    assert ([x] + rest)[1..] == rest;
  }

  lemma TypeMessageSpelledOut()
    ensures TypeMessage()
            == "Invalid file type. Allowed types: " + ("image/jpeg, " + "image/jpg, " + "image/png, " + "image/webp")
  {
    AllowedTypesJoined();
  }

  /** `validateFile`: a missing file, a file strictly larger than 5 MiB, or a MIME
      type outside the allow-list is a bad request, checked in that order. */
  function ValidateFile(file: Option<UploadedFile>): (r: Result<(), string>)
    ensures r.Success? <==> file.Some? && file.value.size <= MaxFileSize && file.value.mimetype in AllowedMimeTypes
    ensures file.None? ==> r == Failure(NoFileMessage)
    ensures file.Some? && file.value.size > MaxFileSize ==> r == Failure(SizeMessage())
    ensures file.Some? && file.value.size <= MaxFileSize && file.value.mimetype !in AllowedMimeTypes
            ==> r == Failure(TypeMessage())
  {
    if file.None? then Failure(NoFileMessage)
    else if file.value.size > MaxFileSize then Failure(SizeMessage())
    else if file.value.mimetype !in AllowedMimeTypes then Failure(TypeMessage())
    else Success(())
  }

  /** A file of exactly 5 MiB is accepted, one byte more is not. */
  lemma SizeBoundary(name: string, mime: string)
    requires mime in AllowedMimeTypes
    ensures ValidateFile(Some(UploadedFile(name, mime, 5 * 1024 * 1024))).Success?
    ensures ValidateFile(Some(UploadedFile(name, mime, 5 * 1024 * 1024 + 1))) == Failure(SizeMessage())
  {
  }

  // ---- Resize and encoding ----

  function MaxDimension(isMain: bool): nat { if isMain then 2000 else 1000 }

  /** What `sharp(...).metadata()` reports; a missing or zero size is falsy. */
  datatype ImageInfo = ImageInfo(width: Option<nat>, height: Option<nat>, format: Option<string>)

  datatype Resize = NoResize | ToWidth(width: nat) | ToHeight(height: nat)

  predicate Exceeds(d: Option<nat>, max: nat) { d.Some? && d.value > max }

  /** The resize step: to the maximum width when too wide; otherwise to the maximum
      height when too tall; otherwise none. */
  function ResizeFor(info: ImageInfo, isMain: bool): (r: Resize)
    ensures r.ToWidth? <==> Exceeds(info.width, MaxDimension(isMain))
    ensures r.ToHeight? <==> !Exceeds(info.width, MaxDimension(isMain)) && Exceeds(info.height, MaxDimension(isMain))
    ensures r.ToWidth? ==> r.width == MaxDimension(isMain)
    ensures r.ToHeight? ==> r.height == MaxDimension(isMain)
  {
    var maxDimension := MaxDimension(isMain);
    if Exceeds(info.width, maxDimension) then ToWidth(maxDimension)
    else if Exceeds(info.height, maxDimension) then ToHeight(maxDimension)
    else NoResize
  }

  datatype Encoding = Jpeg | Png | Webp

  /** The output encoding: PNG and WebP stay as they are, everything else is JPEG. */
  function OutputEncoding(format: Option<string>): (e: Encoding)
    ensures e == Png <==> format == Some("png")
    ensures e == Webp <==> format == Some("webp")
    ensures format == Some("jpeg") || format == Some("jpg") ==> e == Jpeg
  {
    if format == Some("jpeg") || format == Some("jpg") then Jpeg
    else if format == Some("png") then Png
    else if format == Some("webp") then Webp
    else Jpeg
  }

  // ---- Names and URLs ----

  /** `${productId}-${timestamp}-${randomString}${extname(originalname)}`. */
  function FileName(productId: string, timestamp: nat, randomString: string, originalname: string): string {
    productId + "-" + NatToString(timestamp) + "-" + randomString + Extname(originalname)
  }

  /** The file name starts with the product id, the timestamp and the random part,
      each followed by a dash except the last, and ends with the original extension;
      it holds no slash when the product id and the random part hold none. */
  lemma FileNameShape(productId: string, timestamp: nat, randomString: string, originalname: string)
    ensures var r := FileName(productId, timestamp, randomString, originalname);
      && StartsWith(r, productId + "-" + NatToString(timestamp) + "-" + randomString)
      && EndsWith(r, Extname(originalname))
      && |r| > |productId| && r[|productId|] == '-'
      && ('/' !in productId && '/' !in randomString ==> '/' !in r)
  {
    var digits := NatToString(timestamp);
    var stem := productId + "-" + digits + "-" + randomString;
    var ext := Extname(originalname);
    var r := stem + ext;
    assert r == FileName(productId, timestamp, randomString, originalname);
    assert r[..|stem|] == stem;
    assert r[|r| - |ext|..] == ext;
    assert r[|productId|] == stem[|productId|] == '-';
    assert '/' !in digits by {
      forall k | 0 <= k < |digits| ensures digits[k] != '/' { assert IsDigit(digits[k]); }
    }
  }

  const UploadsUrlPrefix := "/uploads/products/"

  /** `getImageUrl`: nothing for an empty path, absolute HTTP(S) URLs as they are,
      otherwise the configured API URL (or `http://localhost:3001`) in front. */
  function GetImageUrl(relativePath: string, apiUrl: Option<string>): (r: Option<string>)
    ensures r.None? <==> relativePath == ""
    ensures StartsWith(relativePath, "http://") || StartsWith(relativePath, "https://") ==> r == Some(relativePath)
    ensures relativePath != "" && !StartsWith(relativePath, "http://") && !StartsWith(relativePath, "https://")
            ==> r == Some(BaseUrl(apiUrl) + relativePath)
  {
    if relativePath == "" then None
    else if StartsWith(relativePath, "http://") || StartsWith(relativePath, "https://") then Some(relativePath)
    else Some(BaseUrl(apiUrl) + relativePath)
  }

  /** `process.env.API_URL || 'http://localhost:3001'`. */
  function BaseUrl(apiUrl: Option<string>): (r: string)
    ensures apiUrl.Some? && apiUrl.value != "" ==> r == apiUrl.value
    ensures apiUrl.None? || apiUrl.value == "" ==> r == "http://localhost:3001"
  {
    if apiUrl.Some? && apiUrl.value != "" then apiUrl.value else "http://localhost:3001"
  }

  lemma StartsWithExtended(s: string, prefix: string, tail: string)
    requires StartsWith(s, prefix)
    ensures StartsWith(s + tail, prefix)
  {
    assert (s + tail)[..|prefix|] == s[..|prefix|];
  }

  /** Applying `getImageUrl` to its own result changes nothing when the base URL is
      an HTTP(S) URL; a bare relative path gets the base exactly once. */
  lemma GetImageUrlIdempotent(relativePath: string, apiUrl: Option<string>)
    requires StartsWith(BaseUrl(apiUrl), "http://") || StartsWith(BaseUrl(apiUrl), "https://")
    requires relativePath != ""
    ensures GetImageUrl(GetImageUrl(relativePath, apiUrl).value, apiUrl) == GetImageUrl(relativePath, apiUrl)
  {
    var b := BaseUrl(apiUrl);
    if StartsWith(b, "http://") { StartsWithExtended(b, "http://", relativePath); }
    else { StartsWithExtended(b, "https://", relativePath); }
  }

  // ---- The uploads directory ----

  /** What was written to a file: the resize step and the encoding. */
  datatype StoredImage = StoredImage(resize: Resize, encoding: Encoding)

  /** The outcome of decoding and writing with `sharp`: the metadata and, when
      writing failed, the error message; or a failure to read the metadata. */
  datatype Processing = Processed(info: ImageInfo, writeError: Option<string>) | MetadataFailed(error: string)

  /** A base name `unlinkSync` can remove: `""`, `.` and `..` name the directory
      itself or its parent, so the unlink fails and is only logged. */
  predicate NamesFile(name: string) { name != "" && name != "." && name != ".." }

  /** The effect of `deleteImage(url)` on the uploads directory. */
  function Deleted(files: map<string, StoredImage>, url: string): (r: map<string, StoredImage>)
    ensures r.Keys <= files.Keys
    ensures forall k :: k in files && k != Basename(url) ==> k in r && r[k] == files[k]
    ensures url == "" ==> r == files
  {
    var name := Basename(url);
    if url == "" || !NamesFile(name) then files else files - {name}
  }

  /** The effect of `deleteImages(urls)`: each URL in order. */
  function DeletedAll(files: map<string, StoredImage>, urls: seq<string>): (r: map<string, StoredImage>)
    decreases |urls|
  {
    if |urls| == 0 then files else DeletedAll(Deleted(files, urls[0]), urls[1..])
  }

  /** `deleteImages` removes exactly the files named by the base names of the
      non-empty URLs, and keeps every other file as it was. */
  lemma {:induction false} DeletedAllExactly(files: map<string, StoredImage>, urls: seq<string>, k: string)
    ensures k in DeletedAll(files, urls) <==>
            k in files && !(NamesFile(k) && exists i :: 0 <= i < |urls| && urls[i] != "" && Basename(urls[i]) == k)
    ensures k in DeletedAll(files, urls) ==> DeletedAll(files, urls)[k] == files[k]
    decreases |urls|
  {
    if |urls| > 0 {
      DeletedAllExactly(Deleted(files, urls[0]), urls[1..], k);
      if k in files && NamesFile(k) && urls[0] != "" && Basename(urls[0]) == k {
        assert k !in Deleted(files, urls[0]);
      }
      forall i | 1 <= i < |urls| ensures urls[i] == urls[1..][i - 1] { }
      if exists i :: 0 <= i < |urls| && urls[i] != "" && Basename(urls[i]) == k {
        var i :| 0 <= i < |urls| && urls[i] != "" && Basename(urls[i]) == k;
        if i > 0 { assert urls[1..][i - 1] == urls[i]; }
      }
    }
  }

  class ImagesService {
    /** The files of `<cwd>/uploads/products`, by name. */
    var files: map<string, StoredImage>

    constructor(existing: map<string, StoredImage>)
      ensures files == existing
    {
      files := existing;
    }

    /** `processAndSaveImage`: validation first, then the name, the resize and the
        encoding, and the URL of the written file under `/uploads/products/`. */
    method ProcessAndSaveImage(file: Option<UploadedFile>, productId: string, isMain: bool,
                               timestamp: nat, randomString: string, processing: Processing)
      returns (r: Result<string, string>)
      modifies this
      ensures ValidateFile(file).Failure? ==> r == Failure(ValidateFile(file).error) && files == old(files)
      ensures ValidateFile(file).Success? && processing.MetadataFailed?
              ==> r == Failure("Failed to process image: " + processing.error) && files == old(files)
      ensures ValidateFile(file).Success? && processing.Processed? && processing.writeError.Some?
              ==> r == Failure("Failed to process image: " + processing.writeError.value) && files == old(files)
      ensures ValidateFile(file).Success? && processing.Processed? && processing.writeError.None? ==>
              var name := FileName(productId, timestamp, randomString, file.value.originalname);
              && r == Success(UploadsUrlPrefix + name)
              && files == old(files)[name := StoredImage(ResizeFor(processing.info, isMain),
                                                         OutputEncoding(processing.info.format))]
    {
      var valid := ValidateFile(file);
      if valid.Failure? {
        return Failure(valid.error);
      }
      var fileName := FileName(productId, timestamp, randomString, file.value.originalname);
      if processing.MetadataFailed? {
        return Failure("Failed to process image: " + processing.error);
      }
      var metadata := processing.info;
      var maxDimension := MaxDimension(isMain);
      var processedImage := NoResize;
      if Exceeds(metadata.width, maxDimension) {
        processedImage := ToWidth(maxDimension);
      } else if Exceeds(metadata.height, maxDimension) {
        processedImage := ToHeight(maxDimension);
      }
      var encoding := Jpeg;
      if metadata.format == Some("png") {
        encoding := Png;
      } else if metadata.format == Some("webp") {
        encoding := Webp;
      }
      assert processedImage == ResizeFor(metadata, isMain);
      assert encoding == OutputEncoding(metadata.format);
      if processing.writeError.Some? {
        return Failure("Failed to process image: " + processing.writeError.value);
      }
      var stored := StoredImage(processedImage, encoding);
      assert stored == StoredImage(ResizeFor(processing.info, isMain), OutputEncoding(processing.info.format));
      ghost var before := files;
      files := files[fileName := stored];
      assert files == before[fileName := stored];
      r := Success(UploadsUrlPrefix + fileName);
    }

    method DeleteImage(imageUrl: string)
      modifies this
      ensures files == Deleted(old(files), imageUrl)
    {
      if imageUrl == "" {
        return;
      }
      var fileName := Basename(imageUrl);
      if NamesFile(fileName) && fileName in files {
        files := files - {fileName};
      }
    }

    method DeleteImages(imageUrls: seq<string>)
      modifies this
      ensures files == DeletedAll(old(files), imageUrls)
    {
      var i := 0;
      while i < |imageUrls|
        invariant 0 <= i <= |imageUrls|
        invariant DeletedAll(old(files), imageUrls) == DeletedAll(files, imageUrls[i..])
      {
        assert imageUrls[i..][1..] == imageUrls[i + 1..];
        DeleteImage(imageUrls[i]);
        i := i + 1;
      }
    }
  }

  lemma DeleteSavedName(files: map<string, StoredImage>, name: string, image: StoredImage)
    requires NamesFile(name) && '/' !in name
    ensures Deleted(files[name := image], UploadsUrlPrefix + name) == files - {name}
  {
    var url := UploadsUrlPrefix + name;
    assert UploadsUrlPrefix[|UploadsUrlPrefix| - 1] == '/';
    BasenameOfChild(UploadsUrlPrefix, name);
    assert url != "";
    assert Deleted(files[name := image], url) == files[name := image] - {name};
    assert files[name := image] - {name} == files - {name};
  }

  /** Deleting the URL a successful upload returned removes exactly that file. */
  lemma SaveThenDelete(files: map<string, StoredImage>, productId: string, timestamp: nat,
                       randomString: string, originalname: string, image: StoredImage)
    requires '/' !in productId && '/' !in randomString
    ensures var name := FileName(productId, timestamp, randomString, originalname);
      Deleted(files[name := image], UploadsUrlPrefix + name) == files - {name}
  {
    var name := FileName(productId, timestamp, randomString, originalname);
    FileNameShape(productId, timestamp, randomString, originalname);
    assert name != "." && name != "..";
    DeleteSavedName(files, name, image);
  }
}
