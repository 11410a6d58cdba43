/**
 * The storage service's own logic: the image check before an upload, the
 * extension given to an uploaded file, and the path a file is stored under
 * (product images in a folder named after their owner).
 */
module Storage {

  import opened Common
  import opened ProductValidation

  /** What uploadFile receives: a named File or a bare Blob. */
  datatype Upload = FileUpload(file: ImageFile) | BlobUpload(mimeType: string)

  /** The text after the last dot of `name`, or all of it when there is none. */
  function AfterLastDot(name: string): (r: string)
    ensures '.' !in r
    ensures |r| <= |name| && name[|name| - |r|..] == r
    ensures '.' in name ==> |r| < |name| && name[|name| - |r| - 1] == '.'
    ensures '.' !in name ==> r == name
  {
    if name == [] then []
    else if name[|name| - 1] == '.' then []
    else
      var r := AfterLastDot(name[..|name| - 1]) + [name[|name| - 1]];
      assert name == name[..|name| - 1] + [name[|name| - 1]];
      r
  }

  /** The extension uploadFile and uploadProductImage derive: for a File, a dot
      and the text after the last dot of its name (nothing without a dot); for
      a Blob, the extension its MIME type names. */
  function Extension(upload: Upload): (e: string)
    ensures e == [] || (e[0] == '.' && '.' !in e[1..])
    ensures upload.FileUpload? ==>
              if '.' in upload.file.name then e == "." + AfterLastDot(upload.file.name) else e == []
    ensures upload.BlobUpload? ==>
              var t := upload.mimeType;
              && (Includes(t, "jpeg") || Includes(t, "jpg") ==> e == ".jpg")
              && (!(Includes(t, "jpeg") || Includes(t, "jpg")) && Includes(t, "png") ==> e == ".png")
              && (!(Includes(t, "jpeg") || Includes(t, "jpg") || Includes(t, "png")) && Includes(t, "webp") ==> e == ".webp")
              && (!(Includes(t, "jpeg") || Includes(t, "jpg") || Includes(t, "png") || Includes(t, "webp")) ==> e == [])
  {
    match upload
    case FileUpload(file) =>
      if '.' in file.name then "." + AfterLastDot(file.name) else []
    case BlobUpload(t) =>
      if Includes(t, "jpeg") || Includes(t, "jpg") then ".jpg"
      else if Includes(t, "png") then ".png"
      else if Includes(t, "webp") then ".webp"
      else []
  }

  /** The extension as the upload functions compute it, in a reassigned local. */
  method DeriveExtension(upload: Upload) returns (extension: string)
    ensures extension == Extension(upload)
  {
    extension := "";
    if upload.FileUpload? {
      var name := upload.file.name;
      IncludesChar(name, '.');
      if '.' in name {
        extension := "." + AfterLastDot(name);
      } else {
        extension := "";
      }
    } else {
      var mimeType := upload.mimeType;
      if Includes(mimeType, "jpeg") || Includes(mimeType, "jpg") {
        extension := ".jpg";
      } else if Includes(mimeType, "png") {
        extension := ".png";
      } else if Includes(mimeType, "webp") {
        extension := ".webp";
      }
    }
  }

  /** uploadFile's path: a name that already has a dot is kept as it is,
      any other gets the derived extension. */
  function FilePath(fileName: string, extension: string): (p: string)
    ensures '.' in fileName ==> p == fileName
    ensures '.' !in fileName ==> p == fileName + extension
  {
    IncludesChar(fileName, '.');
    if Includes(fileName, ".") then fileName else fileName + extension
  }

  /** uploadProductImage's path: `<userId>/product-<timestamp>-<random><extension>`. */
  function ProductImagePath(userId: string, timestamp: nat, randomStr: string, extension: string): (p: string)
    ensures IsPrefix(userId + "/", p)
  {
    var fileName := "product-" + DecimalString(timestamp) + "-" + randomStr + extension;
    var p := userId + "/" + fileName;
    assert p[..|userId + "/"|] == userId + "/";
    p
  }

  /** uploadFile stores a product image exactly at the path uploadProductImage
      built, so the image lands in its owner's folder. */
  lemma ProductImageStaysInOwnerFolder(userId: string, timestamp: nat, randomStr: string, upload: Upload)
    ensures var ext := Extension(upload);
            var p := ProductImagePath(userId, timestamp, randomStr, ext);
            FilePath(p, ext) == p && IsPrefix(userId + "/", FilePath(p, ext))
  {
    var ext := Extension(upload);
    var p := ProductImagePath(userId, timestamp, randomStr, ext);
    if ext != [] {
      assert p[|p| - 1 - (|ext| - 1)] == '.' by {
        assert p == userId + "/" + ("product-" + DecimalString(timestamp) + "-" + randomStr) + ext;
      }
      assert '.' in p;
    } else {
      assert p + ext == p;
    }
  }

  /** The storage check's errors; the second one's message quotes the limit. */
  datatype StorageImageError = NotAnImage | OverLimit(maxSizeMB: real)

  /** The storage service's validateImageFile: None when accepted. */
  function ValidateStorageImage(file: ImageFile, maxSizeMB: real): (r: Option<StorageImageError>)
    ensures r.None? <==> file.mimeType in AcceptedImageTypes && file.size as real <= maxSizeMB * 1024.0 * 1024.0
    ensures file.mimeType !in AcceptedImageTypes ==> r == Some(NotAnImage)
  {
    if file.mimeType !in AcceptedImageTypes then Some(NotAnImage)
    else if file.size as real > maxSizeMB * 1024.0 * 1024.0 then Some(OverLimit(maxSizeMB))
    else None
  }

  /** With the default limit of 5 MB, the storage check accepts exactly the
      files the product form's check accepts. */
  lemma StorageCheckAgreesWithFormCheck(file: ImageFile)
    ensures ValidateStorageImage(file, 5.0).None? <==> ValidateImageFile(file).None?
  {
  }
}
