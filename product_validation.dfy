/**
 * Product validation: the checks on one image file and on the list of images
 * of a product, the bounds of the product creation form, and the Spanish
 * names of the product conditions.
 */
module ProductValidation {

  import opened Common

  /** 5 MB */
  const MaxFileSize := 5 * 1024 * 1024

  const AcceptedImageTypes: seq<string> := ["image/jpeg", "image/jpg", "image/png", "image/webp"]

  /** An uploaded file, as the checks read it; `size` is in bytes. */
  datatype ImageFile = ImageFile(name: string, mimeType: string, size: int)

  datatype ImageError =
    | TypeNotAllowed
    /** The message quotes the file's name and its size in MB. */
    | TooLarge(fileName: string, size: int)

  /** validateImageFile: None when the file is accepted. */
  function ValidateImageFile(file: ImageFile): (r: Option<ImageError>)
    ensures r.None? <==> file.mimeType in AcceptedImageTypes && file.size <= MaxFileSize
    ensures file.mimeType !in AcceptedImageTypes ==> r == Some(TypeNotAllowed)
    ensures r == Some(TooLarge(file.name, file.size)) <==> file.mimeType in AcceptedImageTypes && file.size > MaxFileSize
  {
    if file.mimeType !in AcceptedImageTypes then Some(TypeNotAllowed)
    else if file.size > MaxFileSize then Some(TooLarge(file.name, file.size))
    else None
  }

  /** A file of exactly 5 MB passes, one byte more does not. */
  lemma SizeLimitInclusive(name: string, mimeType: string)
    requires mimeType in AcceptedImageTypes
    ensures ValidateImageFile(ImageFile(name, mimeType, MaxFileSize)).None?
    ensures ValidateImageFile(ImageFile(name, mimeType, MaxFileSize + 1)).Some?
  {
  }

  function ImageErrorMessage(e: ImageError): string {
    match e
    case TypeNotAllowed => "Tipo de archivo no permitido. Solo se permiten imágenes JPEG, PNG y WebP"
    case TooLarge(name, _) => "El archivo " + name + " es demasiado grande"
  }

  datatype ImageListError = NoImages | TooManyImages | BadFile(error: ImageError)

  /** The error of the first invalid file, if any. */
  function FirstInvalid(files: seq<ImageFile>): (r: Option<ImageError>)
    ensures r.None? <==> forall i :: 0 <= i < |files| ==> ValidateImageFile(files[i]).None?
    ensures r.Some? ==> exists i :: 0 <= i < |files| && ValidateImageFile(files[i]) == r
                                    && forall j :: 0 <= j < i ==> ValidateImageFile(files[j]).None?
  {
    if files == [] then None
    else if ValidateImageFile(files[0]).Some? then ValidateImageFile(files[0])
    else
      var rest := FirstInvalid(files[1..]);
      if rest.Some? then
        var i :| 0 <= i < |files[1..]| && ValidateImageFile(files[1..][i]) == rest
                 && forall j :: 0 <= j < i ==> ValidateImageFile(files[1..][j]).None?;
        assert ValidateImageFile(files[i + 1]) == rest;
        assert forall j :: 0 <= j < i + 1 ==> ValidateImageFile(files[j]).None? by {
          forall j | 0 <= j < i + 1 ensures ValidateImageFile(files[j]).None? {
            if j > 0 {
              assert files[j] == files[1..][j - 1];
            }
          }
        }
        rest
      else
        assert forall i :: 0 <= i < |files| ==> ValidateImageFile(files[i]).None? by {
          forall i | 0 <= i < |files| ensures ValidateImageFile(files[i]).None? {
            if i > 0 {
              assert files[i] == files[1..][i - 1];
            }
          }
        }
        rest
  }

  /** validateImageFiles: one to five files, every one of them valid; the
      reported error is the first failing check. */
  function ValidateImageFiles(files: seq<ImageFile>): (r: Option<ImageListError>)
    ensures r.None? <==> 1 <= |files| <= 5 && forall f :: f in files ==> ValidateImageFile(f).None?
    ensures files == [] ==> r == Some(NoImages)
    ensures |files| > 5 ==> r == Some(TooManyImages)
    ensures 1 <= |files| <= 5 ==> (r.Some? <==> FirstInvalid(files).Some?)
    ensures r.Some? && r.value.BadFile? ==> Some(r.value.error) == FirstInvalid(files)
  {
    if |files| == 0 then Some(NoImages)
    else if |files| > 5 then Some(TooManyImages)
    else
      var first := FirstInvalid(files);
      if first.Some? then Some(BadFile(first.value)) else None
  }

  datatype Condition = New | LikeNew | Good | Fair | Poor

  /** The product creation form. `tags` is None when the form sends none. */
  datatype ProductForm = ProductForm(
    title: string,
    description: string,
    price: real,
    categoryId: string,
    condition: Condition,
    location: string,
    isNegotiable: bool,
    tags: Option<seq<string>>)

  predicate IsHexDigit(c: char) {
    ('0' <= c <= '9') || ('a' <= c <= 'f') || ('A' <= c <= 'F')
  }

  /** The 8-4-4-4-12 hexadecimal UUID form. */
  predicate IsUuid(s: string) {
    && |s| == 36
    && (forall i :: 0 <= i < 36 && (i == 8 || i == 13 || i == 18 || i == 23) ==> s[i] == '-')
    && (forall i :: 0 <= i < 36 && !(i == 8 || i == 13 || i == 18 || i == 23) ==> IsHexDigit(s[i]))
  }

  /** `.multipleOf(0.01)` */
  predicate HasCents(price: real) {
    (price * 100.0).Floor as real == price * 100.0
  }

  datatype ProductIssue =
    | TitleTooShort | TitleTooLong
    | DescriptionTooShort | DescriptionTooLong
    | PriceNotPositive | PriceTooHigh | PriceTooPrecise
    | CategoryInvalid
    | LocationTooShort | LocationTooLong
    | TooManyTags

  /** The rule's issue when the rule is broken. */
  function When(broken: bool, issue: ProductIssue): (r: seq<ProductIssue>)
    ensures |r| == (if broken then 1 else 0)
  {
    if broken then [issue] else []
  }

  /** createProductSchema: every field is checked and every failed rule reported, in declaration order. */
  function ProductIssues(f: ProductForm): (issues: seq<ProductIssue>)
    ensures issues == [] <==>
              && 5 <= |f.title| <= 100
              && 10 <= |f.description| <= 1000
              && 0.0 < f.price <= 999999999.0 && HasCents(f.price)
              && IsUuid(f.categoryId)
              && 3 <= |f.location| <= 100
              && (f.tags.None? || |f.tags.value| <= 10)
    ensures |issues| <= 11
  {
    var issues :=
      When(|f.title| < 5, TitleTooShort)
      + When(|f.title| > 100, TitleTooLong)
      + When(|f.description| < 10, DescriptionTooShort)
      + When(|f.description| > 1000, DescriptionTooLong)
      + When(f.price <= 0.0, PriceNotPositive)
      + When(f.price > 999999999.0, PriceTooHigh)
      + When(!HasCents(f.price), PriceTooPrecise)
      + When(!IsUuid(f.categoryId), CategoryInvalid)
      + When(|f.location| < 3, LocationTooShort)
      + When(|f.location| > 100, LocationTooLong)
      + When(f.tags.Some? && |f.tags.value| > 10, TooManyTags);
    assert |issues| == 0 <==> issues == [];
    issues
  }

  /** translateCondition */
  function TranslateCondition(c: Condition): (r: string)
    ensures r != ""
  {
    match c
    case New => "Nuevo"
    case LikeNew => "Como nuevo"
    case Good => "Bueno"
    case Fair => "Regular"
    case Poor => "Malo"
  }

  /** Every condition has its own non-empty name. */
  lemma ConditionNamesDistinct(c: Condition, d: Condition)
    ensures TranslateCondition(c) != ""
    ensures TranslateCondition(c) == TranslateCondition(d) ==> c == d
  {
  }
}
