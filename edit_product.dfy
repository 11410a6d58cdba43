/**
 * The product edit dialog: its image state (the product's existing images,
 * those marked for deletion, and the newly chosen files with their previews),
 * the five-image budget, and the update a submit sends.
 */
module EditProduct {

  import opened Common
  import opened ProductValidation

  const MaxImages := 5

  /** The existing images not marked for deletion, in their order. */
  function RemainingImages(existing: seq<string>, deleted: seq<string>): (r: seq<string>)
    ensures |r| <= |existing|
    ensures forall x :: x in r <==> x in existing && x !in deleted
  {
    Filter(existing, (img: string) => img !in deleted)
  }

  /** `array.slice(0, end)` */
  function SliceTo<T>(s: seq<T>, end: int): (r: seq<T>)
    ensures end >= |s| ==> r == s
    ensures 0 <= end <= |s| ==> r == s[..end]
  {
    if end >= |s| then s
    else if end >= 0 then s[..end]
    else if |s| + end >= 0 then s[..|s| + end]
    else []
  }

  /** The element at `index` left out, the rest in order (all of them for an index outside the list). */
  function DropIndex<T>(s: seq<T>, index: int): (r: seq<T>)
    ensures 0 <= index < |s| ==> |r| == |s| - 1
    ensures !(0 <= index < |s|) ==> r == s
    ensures 0 <= index < |s| ==> forall j :: 0 <= j < |r| ==> r[j] == if j < index then s[j] else s[j + 1]
  {
    if 0 <= index < |s| then s[..index] + s[index + 1..] else s
  }

  /** `files.map(file => URL.createObjectURL(file))`, with the object URL as a parameter. */
  function Previews(files: seq<ImageFile>, preview: ImageFile -> string): (r: seq<string>)
    ensures |r| == |files|
    ensures forall i :: 0 <= i < |files| ==> r[i] == preview(files[i])
  {
    seq(|files|, i requires 0 <= i < |files| => preview(files[i]))
  }

  /** The upload handler's four endings. */
  datatype UploadOutcome = NothingChosen | LimitExceeded(current: nat) | Rejected(error: ImageListError) | Added

  /** A URL the upload returned: `result.success && result.url`. */
  predicate Uploaded(url: Option<string>) {
    url.Some? && url.value != ""
  }

  /** uploadNewImages with `outcome(i)` the URL of the i-th upload (None when
      it failed): the URLs in upload order, or the 1-based position of the
      first file that could not be uploaded. */
  method UploadNewImages(files: seq<ImageFile>, outcome: nat -> Option<string>) returns (r: Result<seq<string>, nat>)
    ensures r.Ok? <==> forall i :: 0 <= i < |files| ==> Uploaded(outcome(i))
    ensures r.Ok? ==> |r.value| == |files| && forall i :: 0 <= i < |files| ==> r.value[i] == outcome(i).value
    ensures r.Err? ==> 1 <= r.error <= |files| && !Uploaded(outcome(r.error - 1))
                       && forall j :: 0 <= j < r.error - 1 ==> Uploaded(outcome(j))
  {
    if |files| == 0 {
      return Ok([]);
    }
    var uploadedUrls: seq<string> := [];
    var i := 0;
    while i < |files|
      invariant 0 <= i <= |files|
      invariant |uploadedUrls| == i
      invariant forall j :: 0 <= j < i ==> Uploaded(outcome(j)) && uploadedUrls[j] == outcome(j).value
    {
      var result := outcome(i);
      if !(result.Some? && result.value != "") {
        return Err(i + 1);
      }
      uploadedUrls := uploadedUrls + [result.value];
      i := i + 1;
    }
    return Ok(uploadedUrls);
  }

  /** `images` is `remaining` followed by the URL of each file's upload. */
  ghost predicate SavedImages(images: seq<string>, remaining: seq<string>, files: seq<ImageFile>, outcome: nat -> Option<string>) {
    && |images| == |remaining| + |files|
    && images[..|remaining|] == remaining
    && forall i :: 0 <= i < |files| ==> Uploaded(outcome(i)) && images[|remaining| + i] == outcome(i).value
  }

  /** The images a submit saves: the remaining existing ones, then the URLs
      of the uploaded files in upload order. */
  method FinalImages(remaining: seq<string>, files: seq<ImageFile>, outcome: nat -> Option<string>)
    returns (r: Result<seq<string>, nat>)
    ensures r.Ok? <==> forall i :: 0 <= i < |files| ==> Uploaded(outcome(i))
    ensures r.Ok? ==> SavedImages(r.value, remaining, files, outcome)
    ensures r.Err? ==> 1 <= r.error <= |files| && !Uploaded(outcome(r.error - 1))
  {
    var newImageUrls := UploadNewImages(files, outcome);
    if newImageUrls.Err? {
      return Err(newImageUrls.error);
    }
    var finalImages := remaining + newImageUrls.value;
    assert finalImages[..|remaining|] == remaining;
    return Ok(finalImages);
  }

  /** The form with title, description and location trimmed, every other field as it was. */
  function CleanedData(data: ProductForm): (c: ProductForm)
    ensures c.title == Trim(data.title) && c.description == Trim(data.description) && c.location == Trim(data.location)
    ensures c.price == data.price && c.categoryId == data.categoryId && c.condition == data.condition
    ensures c.isNegotiable == data.isNegotiable && c.tags == data.tags
  {
    data.(title := Trim(data.title), description := Trim(data.description), location := Trim(data.location))
  }

  /** The update a successful submit sends: the trimmed form and the final image list. */
  datatype ProductUpdate = ProductUpdate(form: ProductForm, images: seq<string>)

  /** How a submit ends: refused before any upload, stopped by a failed upload,
      or with the update sent, which the server then stores or rejects. */
  datatype SubmitOutcome =
    | NotSignedIn
    | NoImagesLeft
    | UploadFailed(index: nat)
    | UpdateFailed(update: ProductUpdate)
    | Saved(update: ProductUpdate)

  /** The form rules run on the data as typed and trimming comes after. So a
      form whose title is four spaces and one letter, and whose other fields
      are valid, is accepted and saved with a one-letter title, which the same
      rules would refuse. */
  lemma ValidatedBeforeTrimming(f: ProductForm)
    requires f.title == "    x"
    requires 10 <= |f.description| <= 1000
    requires 0.0 < f.price <= 999999999.0 && HasCents(f.price)
    requires IsUuid(f.categoryId)
    requires 3 <= |f.location| <= 100
    requires f.tags.None? || |f.tags.value| <= 10
    ensures ProductIssues(f) == []
    ensures CleanedData(f).title == "x"
    ensures ProductIssues(CleanedData(f)) != []
  {
    FourSpacesAndALetter();
  }

  lemma FourSpacesAndALetter()
    ensures Trim("    x") == "x"
  {
    assert "    x" == "    " + "x";
    assert IsBlank("    ");
    TrimStartAfterBlank("    ", "x");
    assert TrimEnd("x") == "x" by {
      assert !IsWhitespace('x');
    }
  }


  class EditProductDialog {
    var existingImages: seq<string>
    var deletedImages: seq<string>
    var newImageFiles: seq<ImageFile>
    var newImagePreviews: seq<string>

    /** Every new file has its preview. */
    ghost predicate Valid()
      reads this
    {
      |newImageFiles| == |newImagePreviews|
    }

    function Remaining(): seq<string>
      reads this
    {
      RemainingImages(existingImages, deletedImages)
    }

    /** totalImages: the existing images kept plus the new files. */
    function TotalImages(): (n: nat)
      reads this
      ensures n == |Remaining()| + |newImageFiles|
    {
      |RemainingImages(existingImages, deletedImages)| + |newImageFiles|
    }

    /** The dialog opened on a product: its images, nothing deleted or added. */
    constructor (productImages: seq<string>)
      ensures existingImages == productImages && deletedImages == [] && newImageFiles == [] && newImagePreviews == []
      ensures Valid()
    {
      existingImages := productImages;
      deletedImages := [];
      newImageFiles := [];
      newImagePreviews := [];
    }

    /** handleNewImageUpload with the chosen files and the object URL each gets. */
    method HandleNewImageUpload(chosen: seq<ImageFile>, preview: ImageFile -> string) returns (outcome: UploadOutcome)
      modifies this
      ensures existingImages == old(existingImages) && deletedImages == old(deletedImages)
      ensures chosen == [] ==> outcome == NothingChosen
      ensures chosen != [] && old(TotalImages()) + |chosen| > MaxImages ==> outcome == LimitExceeded(old(TotalImages()))
      ensures outcome == Added <==>
                chosen != [] && old(TotalImages()) + |chosen| <= MaxImages
                && ValidateImageFiles(old(newImageFiles) + chosen).None?
      ensures outcome == Added ==>
                && newImageFiles == old(newImageFiles) + chosen
                && newImagePreviews == Previews(newImageFiles, preview)
                && TotalImages() == old(TotalImages()) + |chosen| <= MaxImages
                && Valid()
      ensures outcome != Added ==> newImageFiles == old(newImageFiles) && newImagePreviews == old(newImagePreviews)
    {
      if chosen == [] {
        return NothingChosen;
      }
      var allFiles := newImageFiles + chosen;
      var totalImages := TotalImages();
      if totalImages + |chosen| > MaxImages {
        return LimitExceeded(totalImages);
      }
      var filesToAdd := SliceTo(allFiles, MaxImages - (totalImages - |newImageFiles|));
      var validation := ValidateImageFiles(filesToAdd);
      if validation.Some? {
        return Rejected(validation.value);
      }
      newImageFiles := filesToAdd;
      newImagePreviews := Previews(filesToAdd, preview);
      return Added;
    }

    /** removeExistingImage: the URL is marked for deletion. */
    method RemoveExistingImage(imageUrl: string)
      modifies this
      ensures deletedImages == old(deletedImages) + [imageUrl]
      ensures imageUrl !in Remaining()
      ensures forall x :: x != imageUrl ==> (x in Remaining() <==> x in old(Remaining()))
      ensures existingImages == old(existingImages) && newImageFiles == old(newImageFiles)
      ensures newImagePreviews == old(newImagePreviews)
    {
      deletedImages := deletedImages + [imageUrl];
    }

    /** restoreExistingImage: every mark on the URL is dropped. */
    method RestoreExistingImage(imageUrl: string)
      modifies this
      ensures deletedImages == RemoveAll(old(deletedImages), imageUrl)
      ensures imageUrl !in deletedImages
      ensures imageUrl in existingImages ==> imageUrl in Remaining()
      ensures forall x :: x != imageUrl ==> (x in Remaining() <==> x in old(Remaining()))
      ensures existingImages == old(existingImages) && newImageFiles == old(newImageFiles)
      ensures newImagePreviews == old(newImagePreviews)
    {
      deletedImages := RemoveAll(deletedImages, imageUrl);
    }

    /** removeNewImage: the file and its preview at `index` leave both lists. */
    method RemoveNewImage(index: int)
      modifies this
      ensures newImageFiles == DropIndex(old(newImageFiles), index)
      ensures newImagePreviews == DropIndex(old(newImagePreviews), index)
      ensures old(Valid()) ==> Valid()
      ensures existingImages == old(existingImages) && deletedImages == old(deletedImages)
    {
      newImageFiles := DropIndex(newImageFiles, index);
      newImagePreviews := DropIndex(newImagePreviews, index);
    }

    /** onSubmit with the validated form, the signed-in user's id, the
        outcome of each upload and whether updateProduct succeeded. */
    method Submit(data: ProductForm, userId: Option<string>, outcome: nat -> Option<string>, updateOk: bool)
      returns (r: SubmitOutcome)
      ensures userId.None? ==> r == NotSignedIn
      ensures userId.Some? && Remaining() == [] && newImageFiles == [] ==> r == NoImagesLeft
      ensures r.Saved? || r.UpdateFailed? ==>
                && userId.Some? && TotalImages() >= 1
                && r.update.form == CleanedData(data)
                && SavedImages(r.update.images, Remaining(), newImageFiles, outcome)
      ensures r.Saved? ==> updateOk
      ensures r.UpdateFailed? ==> !updateOk
      ensures r.UploadFailed? ==> 1 <= r.index <= |newImageFiles| && !Uploaded(outcome(r.index - 1))
      ensures userId.Some? && TotalImages() >= 1 && AllUploaded(newImageFiles, outcome) ==>
                r.Saved? || r.UpdateFailed?
    {
      r := SubmitWith(CleanedData(data), userId, Remaining(), newImageFiles, outcome, updateOk);
    }
  }

  /** All uploads succeed. */
  ghost predicate AllUploaded(files: seq<ImageFile>, outcome: nat -> Option<string>) {
    forall i :: 0 <= i < |files| ==> Uploaded(outcome(i))
  }

  /** onSubmit over the dialog's remaining existing images and new files. */
  method SubmitWith(cleaned: ProductForm, userId: Option<string>, remaining: seq<string>, files: seq<ImageFile>,
                    outcome: nat -> Option<string>, updateOk: bool)
    returns (r: SubmitOutcome)
    ensures userId.None? <==> r == NotSignedIn
    ensures r == NoImagesLeft <==> userId.Some? && remaining == [] && files == []
    ensures r.UploadFailed? <==> userId.Some? && |remaining| + |files| >= 1 && !AllUploaded(files, outcome)
    ensures r.UploadFailed? ==> 1 <= r.index <= |files| && !Uploaded(outcome(r.index - 1))
    ensures r.Saved? || r.UpdateFailed? ==> userId.Some? && |remaining| + |files| >= 1
    ensures r.Saved? || r.UpdateFailed? ==> r.update.form == cleaned
    ensures r.Saved? || r.UpdateFailed? ==> SavedImages(r.update.images, remaining, files, outcome)
    ensures r.Saved? ==> updateOk
    ensures r.UpdateFailed? ==> !updateOk
  {
    if userId.None? {
      return NotSignedIn;
    }
    if |remaining| + |files| == 0 {
      return NoImagesLeft;
    }
    var finalImages := FinalImages(remaining, files, outcome);
    if finalImages.Err? {
      return UploadFailed(finalImages.error);
    }
    var update := ProductUpdate(cleaned, finalImages.value);
    if !updateOk {
      return UpdateFailed(update);
    }
    return Saved(update);
  }

  /** Marking an image and restoring it leaves the marks as they were when it
      had none before. */
  lemma RemoveThenRestore(deleted: seq<string>, url: string)
    requires url !in deleted
    ensures RemoveAll(deleted + [url], url) == deleted
  {
    RemoveAllAppend(deleted, url);
  }

  lemma {:induction false} RemoveAllAppend(s: seq<string>, x: string)
    requires x !in s
    ensures RemoveAll(s + [x], x) == s
  {
    if s == [] {
      assert RemoveAll([x], x) == [] + RemoveAll([], x);
    } else {
      assert (s + [x])[1..] == s[1..] + [x];
      RemoveAllAppend(s[1..], x);
      assert s == [s[0]] + s[1..];
    }
  }
}
