/**
 * The add/edit product modal: its initial field values, the image-file checks,
 * and the rule that a chosen file and a typed image URL exclude each other.
 */
module ProductFormView {

  import opened Types
  import Text

  /** The form's fields; price and tags are kept as the text the admin edits. */
  datatype FormData = FormData(
    name: string,
    description: string,
    price: string,
    imageUrl: string,
    tags: string,
    tag: string,
    category: string,
    isActive: bool)

  /** The tag list as the form shows it: `tags.join(', ')`. */
  function ShowTags(tags: seq<string>): string
  {
    Text.Join(tags, ", ")
  }

  const DefaultCategory := "new-arrivals"

  /**
   * The initial `formData`: the edited product's fields, or blanks for a new one;
   * an empty category falls back to 'new-arrivals', and `is_active ?? true` keeps
   * an edited product's false.  `render` is `price.toString()`.
   */
  function InitialForm(product: Option<Product>, render: real -> string): (f: FormData)
    ensures product.None? ==>
      f == FormData("", "", "", "", "", "", DefaultCategory, true)
    ensures product.Some? ==>
      && f.name == product.value.name && f.description == product.value.description
      && f.price == render(product.value.price) && f.imageUrl == product.value.imageUrl
      && f.tags == ShowTags(product.value.tags) && f.tag == product.value.tag
      && f.isActive == product.value.isActive
      && f.category == (if product.value.category == "" then DefaultCategory else product.value.category)
  {
    match product
    case None => FormData("", "", "", "", "", "", DefaultCategory, true)
    case Some(p) =>
      FormData(p.name, p.description, render(p.price), p.imageUrl, ShowTags(p.tags), p.tag,
               if p.category != "" then p.category else DefaultCategory, p.isActive)
  }

  /** A chosen file: its MIME type and its size in bytes. */
  datatype ImageFile = ImageFile(mimeType: string, size: int)

  const MaxImageBytes := 5 * 1024 * 1024
  const NotAnImageAlert := "Please select an image file"
  const TooLargeAlert := "Image size should be less than 5MB"

  /** The alert `handleImageChange` raises for a file, or none when the file is accepted. */
  function ImageRejection(f: ImageFile): (r: Option<string>)
    ensures r.None? <==> Text.StartsWith(f.mimeType, "image/") && f.size <= MaxImageBytes
    ensures r == Some(NotAnImageAlert) <==> !Text.StartsWith(f.mimeType, "image/")
    ensures r == Some(TooLargeAlert) <==> Text.StartsWith(f.mimeType, "image/") && f.size > MaxImageBytes
  {
    if !Text.StartsWith(f.mimeType, "image/") then Some(NotAnImageAlert)
    else if f.size > MaxImageBytes then Some(TooLargeAlert)
    else None
  }

  /** The limit itself is accepted; one byte more is not. */
  lemma SizeLimitBoundary(mime: string)
    requires Text.StartsWith(mime, "image/")
    ensures ImageRejection(ImageFile(mime, 5242880)).None?
    ensures ImageRejection(ImageFile(mime, 5242881)) == Some(TooLargeAlert)
  {
  }

  /** The image URL `handleSubmit` sends: the uploaded file's URL when a file is chosen. */
  function SubmittedImageUrl(imageFile: Option<ImageFile>, typedUrl: string, upload: ImageFile -> string): (r: string)
    ensures imageFile.None? ==> r == typedUrl
    ensures imageFile.Some? ==> r == upload(imageFile.value)
  {
    if imageFile.Some? then upload(imageFile.value) else typedUrl
  }

  class ProductForm {
    var formData: FormData
    var imageFile: Option<ImageFile>
    var imagePreview: string
    var isSubmitting: bool

    /** At most one image source: a chosen file leaves no typed URL. */
    predicate OneImageSource()
      reads this
    {
      imageFile.Some? ==> formData.imageUrl == ""
    }

    constructor (product: Option<Product>, render: real -> string)
      ensures formData == InitialForm(product, render)
      ensures imageFile == None && !isSubmitting
      ensures imagePreview == if product.Some? then product.value.imageUrl else ""
      ensures OneImageSource()
    {
      formData := InitialForm(product, render);
      imageFile := None;
      imagePreview := if product.Some? then product.value.imageUrl else "";
      isSubmitting := false;
    }

    /**
     * `handleImageChange`: no file does nothing; a rejected file raises its alert and
     * changes nothing; an accepted file is kept, previewed and clears the typed URL.
     * `previewUrl` is the object URL the browser creates.
     */
    method HandleImageChange(file: Option<ImageFile>, previewUrl: string) returns (alert: Option<string>)
      modifies this
      ensures file.None? ==> alert.None? && unchanged(this)
      ensures file.Some? && ImageRejection(file.value).Some? ==> alert == ImageRejection(file.value) && unchanged(this)
      ensures file.Some? && ImageRejection(file.value).None? ==>
        && alert.None?
        && imageFile == file && imagePreview == previewUrl
        && formData == old(formData).(imageUrl := "")
        && isSubmitting == old(isSubmitting)
      ensures old(OneImageSource()) ==> OneImageSource()
    {
      if file.None? {
        return None;
      }
      alert := ImageRejection(file.value);
      if alert.Some? {
        return;
      }
      imageFile := file;
      imagePreview := previewUrl;
      formData := formData.(imageUrl := "");
    }

    /** `handleImageUrlChange`: typing a URL drops the file and the preview. */
    method HandleImageUrlChange(url: string)
      modifies this`formData, this`imageFile, this`imagePreview
      ensures formData == old(formData).(imageUrl := url)
      ensures imageFile == None && imagePreview == ""
      ensures OneImageSource()
    {
      formData := formData.(imageUrl := url);
      imageFile := None;
      imagePreview := "";
    }

    /** `removeImage`: file, preview and URL are cleared together. */
    method RemoveImage()
      modifies this`formData, this`imageFile, this`imagePreview
      ensures formData == old(formData).(imageUrl := "")
      ensures imageFile == None && imagePreview == ""
      ensures OneImageSource()
    {
      imageFile := None;
      imagePreview := "";
      formData := formData.(imageUrl := "");
    }

    /**
     * `handleSubmit`: the fields handed to the save callback, with the uploaded
     * file's URL when a file is chosen; a failed upload hands over nothing.
     */
    method HandleSubmit(upload: ImageFile -> string, uploadFails: bool) returns (submitted: Option<FormData>)
      modifies this`isSubmitting
      ensures !isSubmitting
      ensures imageFile.Some? && uploadFails ==> submitted.None?
      ensures imageFile.None? || !uploadFails ==>
        submitted == Some(formData.(imageUrl := SubmittedImageUrl(imageFile, formData.imageUrl, upload)))
    {
      isSubmitting := true;
      if imageFile.Some? && uploadFails {
        submitted := None;
      } else {
        submitted := Some(formData.(imageUrl := SubmittedImageUrl(imageFile, formData.imageUrl, upload)));
      }
      isSubmitting := false;
    }
  }
}
