/** The wiki entry schemas (src/pages/core/wiki/schemas/wikiEntrySchema.ts).
    The image field is `z.any()` with three refinements, all of which run:
    on creation each one also demands a File, on update each one lets a
    falsy value through. */
module WikiEntrySchema {
  import opened Zod

  const AcceptedImageTypes := ["image/jpeg", "image/jpg", "image/png", "image/webp"]

  datatype WikiEntryInput = WikiEntryInput(title: string, description: string, categoryId: string, image: Value)

  predicate ValidTitle(s: string) { 3 <= |s| <= 200 }

  predicate ValidDescription(s: string) { 10 <= |s| <= 5000 }

  predicate ValidImageFile(v: Value) {
    v.FileValue? && v.file.size <= MaxFileSize && v.file.mimeType in AcceptedImageTypes
  }

  function TextIssues(input: WikiEntryInput): (r: seq<Issue>)
    ensures r == [] <==> ValidTitle(input.title) && ValidDescription(input.description) && input.categoryId != ""
  {
    MinLength("title", input.title, 3, "El título debe tener al menos 3 caracteres")
    + MaxLength("title", input.title, 200, "El título no puede exceder 200 caracteres")
    + MinLength("description", input.description, 10, "La descripción debe tener al menos 10 caracteres")
    + MaxLength("description", input.description, 5000, "La descripción no puede exceder 5000 caracteres")
    + MinLength("categoryId", input.categoryId, 1, "Debes seleccionar una categoría")
  }

  /** The create schema's image: a value that is not a File fails all three
      refinements. */
  function CreateImageIssues(image: Value): (r: seq<Issue>)
    ensures r == [] <==> ValidImageFile(image)
    ensures OnPath(r, "image")
    ensures !image.FileValue? ==> |r| == 3
  {
    Check(image.FileValue?, "image", "Debes seleccionar una imagen")
    + Check(image.FileValue? && image.file.size <= MaxFileSize, "image", "La imagen no debe superar 10MB")
    + Check(image.FileValue? && image.file.mimeType in AcceptedImageTypes, "image", "Solo se aceptan archivos .jpg, .jpeg, .png y .webp")
  }

  /** The update schema's image. A non-empty string is neither a File nor
      has a size or a type, so it fails all three refinements. */
  function UpdateImageIssues(image: Value): (r: seq<Issue>)
    ensures r == [] <==> !Truthy(image) || ValidImageFile(image)
    ensures OnPath(r, "image")
    ensures image.Text? && image.s != "" ==> |r| == 3
  {
    Optional(image,
      Check(!Truthy(image) || image.FileValue?, "image", "Debe ser un archivo válido")
      + Check(!Truthy(image) || (image.FileValue? && image.file.size <= MaxFileSize), "image", "La imagen no debe superar 10MB")
      + Check(!Truthy(image) || (image.FileValue? && image.file.mimeType in AcceptedImageTypes), "image", "Solo se aceptan archivos .jpg, .jpeg, .png y .webp"))
  }

  function CreateIssues(input: WikiEntryInput): (r: seq<Issue>)
    ensures r == [] <==>
      ValidTitle(input.title) && ValidDescription(input.description) && input.categoryId != ""
      && ValidImageFile(input.image)
  {
    TextIssues(input) + CreateImageIssues(input.image)
  }

  function UpdateIssues(input: WikiEntryInput): (r: seq<Issue>)
    ensures r == [] <==>
      ValidTitle(input.title) && ValidDescription(input.description) && input.categoryId != ""
      && (!Truthy(input.image) || ValidImageFile(input.image))
  {
    TextIssues(input) + UpdateImageIssues(input.image)
  }

  /** Whatever the create schema accepts, the update schema accepts. */
  lemma CreateImpliesUpdate(input: WikiEntryInput)
    requires CreateIssues(input) == []
    ensures UpdateIssues(input) == []
  {
  }

  /** On update, keeping the current image (no value, `null` or an empty
      string) is accepted whenever the text fields are. */
  lemma UpdateKeepsImage(title: string, description: string, categoryId: string, image: Value)
    requires !Truthy(image)
    ensures UpdateIssues(WikiEntryInput(title, description, categoryId, image)) == [] <==>
      ValidTitle(title) && ValidDescription(description) && categoryId != ""
  {
  }

  /** WebP is accepted here, unlike in the category and post schemas. */
  lemma WebpAccepted(size: nat)
    requires size <= MaxFileSize
    ensures CreateImageIssues(FileValue(File(size, "image/webp"))) == []
  {
    assert AcceptedImageTypes[3] == "image/webp";
  }
}
