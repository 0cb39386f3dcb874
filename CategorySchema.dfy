/** The category schemas (src/pages/core/categories/schemas/categorySchema.ts):
    a slug-like name, a display name, a description and the icon file,
    required on creation and optional on edit. */
module CategorySchema {
  import opened Zod

  const AcceptedIconTypes := ["image/jpeg", "image/jpg", "image/png"]

  // The messages, as the schemas give them.
  const NameTooShort := "El nombre debe tener al menos 2 caracteres"
  const NameTooLong := "El nombre no puede exceder 50 caracteres"
  const NamePatternMessage := "El nombre solo puede contener letras, números, guiones y guiones bajos"
  const DisplayNameTooShort := "El nombre a mostrar debe tener al menos 2 caracteres"
  const DisplayNameTooLong := "El nombre a mostrar no puede exceder 100 caracteres"
  const DescriptionTooShort := "La descripción debe tener al menos 10 caracteres"
  const DescriptionTooLong := "La descripción no puede exceder 500 caracteres"
  const IconRequired := "Debes seleccionar un ícono"
  /** The size message says 5MB although the limit is 10 MiB. */
  const IconTooLarge := "El ícono no debe exceder 5MB"
  const CreateIconType := "Solo se aceptan imágenes en formato JPG, JPEG o PNG"
  /** The edit message names WEBP and SVG, which the type list does not accept. */
  const EditIconType := "Solo se aceptan imágenes en formato JPG, JPEG, PNG, WEBP o SVG"

  /** The object handed to `parse`; `icon` is `Undefined` when the key is
      not set. */
  datatype CategoryInput = CategoryInput(name: string, displayName: string, description: string, icon: Value)

  /** A character the pattern /^[a-zA-Z0-9_-]+$/ accepts. */
  predicate NameChar(c: char) {
    ('a' <= c <= 'z') || ('A' <= c <= 'Z') || ('0' <= c <= '9') || c == '_' || c == '-'
  }

  /** The regular expression: one or more name characters, nothing else. */
  predicate NamePattern(s: string) {
    |s| >= 1 && forall i | 0 <= i < |s| :: NameChar(s[i])
  }

  predicate ValidName(s: string) {
    2 <= |s| <= 50 && forall i | 0 <= i < |s| :: NameChar(s[i])
  }

  predicate ValidDisplayName(s: string) { 2 <= |s| <= 100 }

  predicate ValidDescription(s: string) { 10 <= |s| <= 500 }

  /** A file the icon checks accept. */
  predicate ValidIcon(v: Value) {
    v.FileValue? && v.file.size <= MaxFileSize && v.file.mimeType in AcceptedIconTypes
  }

  function NameIssues(name: string): (r: seq<Issue>)
    ensures r == [] <==> ValidName(name)
    ensures OnPath(r, "name")
  {
    MinLength("name", name, 2, NameTooShort)
    + MaxLength("name", name, 50, NameTooLong)
    + Check(NamePattern(name), "name", NamePatternMessage)
  }

  function DisplayNameIssues(displayName: string): (r: seq<Issue>)
    ensures r == [] <==> ValidDisplayName(displayName)
    ensures OnPath(r, "displayName")
  {
    MinLength("displayName", displayName, 2, DisplayNameTooShort)
    + MaxLength("displayName", displayName, 100, DisplayNameTooLong)
  }

  function DescriptionIssues(description: string): (r: seq<Issue>)
    ensures r == [] <==> ValidDescription(description)
    ensures OnPath(r, "description")
  {
    MinLength("description", description, 10, DescriptionTooShort)
    + MaxLength("description", description, 500, DescriptionTooLong)
  }

  /** The icon of `createCategorySchema`: required. */
  function CreateIconIssues(icon: Value): (r: seq<Issue>)
    ensures r == [] <==> ValidIcon(icon)
    ensures OnPath(r, "icon")
  {
    FileChecks("icon", icon, AcceptedIconTypes, IconRequired, IconTooLarge, CreateIconType)
  }

  /** The icon of `editCategorySchema`: optional, and without a custom
      message for a value that is not a File. */
  function EditIconIssues(icon: Value): (r: seq<Issue>)
    ensures r == [] <==> icon.Undefined? || ValidIcon(icon)
    ensures OnPath(r, "icon")
  {
    Optional(icon, FileChecks("icon", icon, AcceptedIconTypes, NotFileDefault, IconTooLarge, EditIconType))
  }

  function TextIssues(input: CategoryInput): seq<Issue> {
    NameIssues(input.name) + DisplayNameIssues(input.displayName) + DescriptionIssues(input.description)
  }

  /** `createCategorySchema.parse`'s issues, field by field. */
  function CreateIssues(input: CategoryInput): (r: seq<Issue>)
    ensures r == [] <==>
      ValidName(input.name) && ValidDisplayName(input.displayName) && ValidDescription(input.description)
      && ValidIcon(input.icon)
  {
    TextIssues(input) + CreateIconIssues(input.icon)
  }

  /** `editCategorySchema.parse`'s issues, field by field. */
  function EditIssues(input: CategoryInput): (r: seq<Issue>)
    ensures r == [] <==>
      ValidName(input.name) && ValidDisplayName(input.displayName) && ValidDescription(input.description)
      && (input.icon.Undefined? || ValidIcon(input.icon))
  {
    TextIssues(input) + EditIconIssues(input.icon)
  }

  /** Whatever the create schema accepts, the edit schema accepts. */
  lemma CreateImpliesEdit(input: CategoryInput)
    requires CreateIssues(input) == []
    ensures EditIssues(input) == []
  {
  }

  /** The edit schema accepts an input without an icon exactly when its text
      fields are valid; the create schema never does. */
  lemma MissingIcon(name: string, displayName: string, description: string)
    ensures var input := CategoryInput(name, displayName, description, Undefined);
      && (EditIssues(input) == [] <==> ValidName(name) && ValidDisplayName(displayName) && ValidDescription(description))
      && CreateIssues(input) != []
  {
  }

  /** An empty name fails both the length check and the pattern, in that
      order. */
  lemma EmptyNameTwoIssues()
    ensures NameIssues("") == [
      Issue("name", "El nombre debe tener al menos 2 caracteres"),
      Issue("name", "El nombre solo puede contener letras, números, guiones y guiones bajos")]
  {
  }

  /** An icon over the size limit and of a rejected type fails both
      refinements, the size one first. */
  lemma LargeGifTwoIssues()
    ensures CreateIconIssues(FileValue(File(MaxFileSize + 1, "image/gif"))) == [
      Issue("icon", "El ícono no debe exceder 5MB"),
      Issue("icon", "Solo se aceptan imágenes en formato JPG, JPEG o PNG")]
  {
    assert "image/gif" !in AcceptedIconTypes;
  }
}
