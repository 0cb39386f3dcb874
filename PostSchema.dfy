/** The blog post schemas (src/pages/core/blog/schemas/postSchema.ts): title,
    description, content and a cover image, required on creation and
    optional on edit. */
module PostSchema {
  import opened Zod

  const AcceptedImageTypes := ["image/jpeg", "image/jpg", "image/png"]

  datatype PostInput = PostInput(title: string, description: string, content: string, image: Value)

  predicate ValidTitle(s: string) { 5 <= |s| <= 200 }

  predicate ValidDescription(s: string) { 10 <= |s| <= 500 }

  /** Content has a lower bound of 5 characters and no upper bound. */
  predicate ValidContent(s: string) { |s| >= 5 }

  predicate ValidImage(v: Value) {
    v.FileValue? && v.file.size <= MaxFileSize && v.file.mimeType in AcceptedImageTypes
  }

  predicate ValidText(input: PostInput) {
    ValidTitle(input.title) && ValidDescription(input.description) && ValidContent(input.content)
  }

  function TextIssues(input: PostInput): (r: seq<Issue>)
    ensures r == [] <==> ValidText(input)
  {
    MinLength("title", input.title, 5, "El título debe tener al menos 5 caracteres")
    + MaxLength("title", input.title, 200, "El título no puede exceder 200 caracteres")
    + MinLength("description", input.description, 10, "La descripción debe tener al menos 10 caracteres")
    + MaxLength("description", input.description, 500, "La descripción no puede exceder 500 caracteres")
    + MinLength("content", input.content, 5, "El contenido debe tener al menos 50 caracteres")
  }

  function CreateImageIssues(image: Value): (r: seq<Issue>)
    ensures r == [] <==> ValidImage(image)
    ensures OnPath(r, "image")
  {
    FileChecks("image", image, AcceptedImageTypes, "Debes seleccionar una imagen",
      "La imagen no debe exceder 5MB", "Solo se aceptan imágenes en formato JPG, JPEG o PNG")
  }

  function EditImageIssues(image: Value): (r: seq<Issue>)
    ensures r == [] <==> image.Undefined? || ValidImage(image)
    ensures OnPath(r, "image")
  {
    Optional(image, FileChecks("image", image, AcceptedImageTypes, "Debes seleccionar una imagen",
      "La imagen no debe exceder 5MB", "Solo se aceptan imágenes en formato JPG, JPEG, PNG o WEBP"))
  }

  function CreateIssues(input: PostInput): (r: seq<Issue>)
    ensures r == [] <==> ValidText(input) && ValidImage(input.image)
  {
    TextIssues(input) + CreateImageIssues(input.image)
  }

  function EditIssues(input: PostInput): (r: seq<Issue>)
    ensures r == [] <==> ValidText(input) && (input.image.Undefined? || ValidImage(input.image))
  {
    TextIssues(input) + EditImageIssues(input.image)
  }

  lemma CreateImpliesEdit(input: PostInput)
    requires CreateIssues(input) == []
    ensures EditIssues(input) == []
  {
  }

  /** A WebP image is rejected on edit, whatever its size. */
  lemma WebpRejectedOnEdit(size: nat)
    ensures EditImageIssues(FileValue(File(size, "image/webp"))) != []
  {
    assert "image/webp" !in AcceptedImageTypes;
  }

  /** Content of any length from 5 characters on is accepted. */
  lemma LongContentAccepted(content: string)
    requires |content| >= 5
    ensures MinLength("content", content, 5, "El contenido debe tener al menos 50 caracteres") == []
  {
  }
}
