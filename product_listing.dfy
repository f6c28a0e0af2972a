/** The seller's listing form: the chosen image with its checks, the text
    fields, and the ordered validation of a submission that ends in the
    payload handed to the products slice. */
module ProductListing {
  import opened Text
  import opened JsValues

  /** A file picked in the browser: its name, size in bytes and MIME type. */
  datatype ImageFile = ImageFile(name: string, size: nat, mimeType: string)

  /** 5 MiB, the largest image accepted. */
  const MAX_IMAGE_BYTES: nat := 5 * 1024 * 1024
  const IMAGE_TYPE_PREFIX: string := "image/"

  const MSG_IMAGE_TOO_LARGE: string := "Image size should be less than 5MB"
  const MSG_NOT_AN_IMAGE: string := "Please upload a valid image file"
  const MSG_NO_IMAGE: string := "Please upload a product image"
  const MSG_REQUIRED: string := "Please fill in all required fields"
  const MSG_PRICE: string := "Price must be greater than 0"
  const MSG_NOT_SELLER: string := "Please complete seller registration first."
  const MSG_NO_EMAIL: string := "Seller email missing. Please log in again."

  /** The text fields the form starts with. */
  const FORM_KEYS: set<string> := {"name", "category", "price", "size", "condition", "description"}

  /** An image the upload handler keeps: at most 5 MiB and of an image type. */
  predicate Acceptable(f: ImageFile) {
    f.size <= MAX_IMAGE_BYTES && StartsWith(f.mimeType, IMAGE_TYPE_PREFIX)
  }

  /** `!formData.name || !formData.category || !formData.price` is false. */
  predicate RequiredFilled(form: map<string, string>)
    requires FORM_KEYS <= form.Keys
  {
    form["name"] != "" && form["category"] != "" && form["price"] != ""
  }

  /** `Number(formData.price) <= 0`. */
  predicate PriceRejected(form: map<string, string>)
    requires FORM_KEYS <= form.Keys
  {
    AtMostZero(ParseNumber(form["price"]))
  }

  /** `sellerUser?.isSeller` is truthy. */
  predicate SellerRegistered(seller: Option<JsObject>) {
    seller.Some? && Truthy(Get(seller.value, "isSeller"))
  }

  /** `sellerUser?.email` is truthy. */
  predicate SellerHasEmail(seller: Option<JsObject>) {
    seller.Some? && Truthy(Get(seller.value, "email"))
  }

  /** Every check a submission fails, in the order the handler makes them. */
  function Failures(form: map<string, string>, file: Option<ImageFile>, seller: Option<JsObject>): (fs: seq<string>)
    requires FORM_KEYS <= form.Keys
    ensures |fs| <= 5
    ensures fs == [] <==>
              && file.Some? && RequiredFilled(form) && !PriceRejected(form)
              && SellerRegistered(seller) && SellerHasEmail(seller)
    ensures file.None? ==> fs[0] == MSG_NO_IMAGE
    ensures PriceRejected(form) ==> MSG_PRICE in fs
  {
    (if file.None? then [MSG_NO_IMAGE] else [])
    + (if !RequiredFilled(form) then [MSG_REQUIRED] else [])
    + (if PriceRejected(form) then [MSG_PRICE] else [])
    + (if !SellerRegistered(seller) then [MSG_NOT_SELLER] else [])
    + (if !SellerHasEmail(seller) then [MSG_NO_EMAIL] else [])
  }

  /** The error `handleSubmit` stops with, or none when it builds a payload:
      the first check that fails. */
  function Rejection(form: map<string, string>, file: Option<ImageFile>, seller: Option<JsObject>): (r: Option<string>)
    requires FORM_KEYS <= form.Keys
  {
    if file.None? then Some(MSG_NO_IMAGE)
    else if !RequiredFilled(form) then Some(MSG_REQUIRED)
    else if PriceRejected(form) then Some(MSG_PRICE)
    else if !SellerRegistered(seller) then Some(MSG_NOT_SELLER)
    else if !SellerHasEmail(seller) then Some(MSG_NO_EMAIL)
    else None
  }

  /** The rejection is the first of the failed checks, and there is none
      exactly when every check passes. */
  lemma RejectionIsFirstFailure(form: map<string, string>, file: Option<ImageFile>, seller: Option<JsObject>)
    requires FORM_KEYS <= form.Keys
    ensures Rejection(form, file, seller).None? <==> Failures(form, file, seller) == []
    ensures Rejection(form, file, seller).Some? ==> Rejection(form, file, seller).value == Failures(form, file, seller)[0]
  {
  }

  /** A price that is not a number passes the price check, since `NaN <= 0` is false. */
  lemma NotANumberPriceAccepted(form: map<string, string>, file: ImageFile, seller: JsObject)
    requires FORM_KEYS <= form.Keys && form["name"] != "" && form["category"] != ""
    requires form["price"] == "abc"
    requires Get(seller, "isSeller") == Some(JBool(true)) && Get(seller, "email") == Some(JStr("a@b.c"))
    ensures Rejection(form, Some(file), Some(seller)) == None
  {
    assert RequiredFilled(form);
    assert !PriceRejected(form) by { NumberOfWord(); }
    assert SellerRegistered(Some(seller)) && SellerHasEmail(Some(seller));
  }

  /** The object given to `addProduct`: `{ ...formData, sellerEmail, price: Number(price), imageFile }`. */
  datatype ListingPayload = ListingPayload(
    fields: map<string, string>, sellerEmail: JsValue, price: JsNumber, imageFile: ImageFile)

  function PayloadOf(form: map<string, string>, file: ImageFile, seller: JsObject): (p: ListingPayload)
    requires FORM_KEYS <= form.Keys && "email" in seller
    ensures p.fields.Keys == form.Keys - {"sellerEmail", "price", "imageFile"}
    ensures forall k :: k in p.fields ==> p.fields[k] == form[k]
    ensures p.sellerEmail == seller["email"] && p.price == ParseNumber(form["price"]) && p.imageFile == file
  {
    ListingPayload(form - {"sellerEmail", "price", "imageFile"}, seller["email"], ParseNumber(form["price"]), file)
  }

  /** The form's state. */
  class ListingForm {
    var formData: map<string, string>
    var imageFile: Option<ImageFile>
    var imagePreview: Option<string>
    var isUploading: bool
    var error: string

    /** The text fields are all there, an image and its preview come and go
        together, and a kept image is an acceptable one. */
    ghost predicate Valid()
      reads this
    {
      && FORM_KEYS <= formData.Keys
      && (imageFile.Some? <==> imagePreview.Some?)
      && (imageFile.Some? ==> Acceptable(imageFile.value))
    }

    /** The empty form, with condition "Good". */
    constructor ()
      ensures Valid() && imageFile == None && imagePreview == None && !isUploading && error == ""
      ensures formData == map["name" := "", "category" := "", "price" := "", "size" := "",
                              "condition" := "Good", "description" := ""]
    {
      formData := map["name" := "", "category" := "", "price" := "", "size" := "",
                      "condition" := "Good", "description" := ""];
      imageFile := None;
      imagePreview := None;
      isUploading := false;
      error := "";
    }

    /** `handleImageUpload`: `file` is the first picked file, if any, and
        `previewUrl` the object URL the browser makes for it. A rejected file
        leaves the previous image in place. */
    method ImageUpload(file: Option<ImageFile>, previewUrl: string)
      requires Valid()
      modifies this`error, this`imageFile, this`imagePreview
      ensures if file.None? then error == old(error) && imageFile == old(imageFile) && imagePreview == old(imagePreview)
              else if file.value.size > MAX_IMAGE_BYTES then
                error == MSG_IMAGE_TOO_LARGE && imageFile == old(imageFile) && imagePreview == old(imagePreview)
              else if !StartsWith(file.value.mimeType, IMAGE_TYPE_PREFIX) then
                error == MSG_NOT_AN_IMAGE && imageFile == old(imageFile) && imagePreview == old(imagePreview)
              else error == "" && imageFile == file && imagePreview == Some(previewUrl)
      ensures Valid()
    {
      if file.None? {
        return;
      }
      if file.value.size > MAX_IMAGE_BYTES {
        error := MSG_IMAGE_TOO_LARGE;
        return;
      }
      if !StartsWith(file.value.mimeType, IMAGE_TYPE_PREFIX) {
        error := MSG_NOT_AN_IMAGE;
        return;
      }
      error := "";
      imageFile := file;
      imagePreview := Some(previewUrl);
    }

    /** `handleRemoveImage`. */
    method RemoveImage()
      requires Valid()
      modifies this`imageFile, this`imagePreview
      ensures imageFile == None && imagePreview == None
      ensures Valid()
    {
      imageFile := None;
      imagePreview := None;
    }

    /** `handleChange`: one text field, and the error is cleared. */
    method Change(name: string, value: string)
      requires Valid()
      modifies this`formData, this`error
      ensures formData == old(formData)[name := value] && error == ""
      ensures Valid()
    {
      formData := formData[name := value];
      error := "";
    }

    /** `handleSubmit` up to the payload: the first failing check sets the
        error and stops; `isUploading` is raised after the price check and
        lowered again when the handler ends. `seller` is the stored seller session. */
    method Submit(seller: Option<JsObject>) returns (payload: Option<ListingPayload>)
      requires Valid()
      modifies this`error, this`isUploading
      ensures payload.None? <==> Rejection(formData, imageFile, seller).Some?
      ensures Rejection(formData, imageFile, seller).Some? ==> error == Rejection(formData, imageFile, seller).value
      ensures payload.Some? ==>
                && imageFile.Some? && seller.Some? && "email" in seller.value
                && payload.value == PayloadOf(formData, imageFile.value, seller.value)
                && error == old(error)
      ensures imageFile.Some? && RequiredFilled(formData) && !PriceRejected(formData) ==> !isUploading
      ensures !(imageFile.Some? && RequiredFilled(formData) && !PriceRejected(formData)) ==> isUploading == old(isUploading)
      ensures Valid()
    {
      if imageFile.None? {
        error := MSG_NO_IMAGE;
        return None;
      }
      if !RequiredFilled(formData) {
        error := MSG_REQUIRED;
        return None;
      }
      if PriceRejected(formData) {
        error := MSG_PRICE;
        return None;
      }
      isUploading := true;
      if !SellerRegistered(seller) {
        error := MSG_NOT_SELLER;
        isUploading := false;
        return None;
      }
      if !SellerHasEmail(seller) {
        error := MSG_NO_EMAIL;
        isUploading := false;
        return None;
      }
      payload := Some(PayloadOf(formData, imageFile.value, seller.value));
      isUploading := false;
    }
  }

  /** Picking an oversized image after an accepted one keeps the accepted one. */
  method OversizedKeepsPrevious(form: ListingForm, good: ImageFile, big: ImageFile, url1: string, url2: string)
    requires form.Valid() && Acceptable(good) && big.size > MAX_IMAGE_BYTES
    modifies form
    ensures form.Valid() && form.imageFile == Some(good) && form.imagePreview == Some(url1)
    ensures form.error == MSG_IMAGE_TOO_LARGE
  {
    form.ImageUpload(Some(good), url1);
    form.ImageUpload(Some(big), url2);
  }
}
