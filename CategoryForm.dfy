/** The category form modal
    (src/pages/core/categories/components/CategoryFormModal.tsx): three text
    fields and an icon, validated with the create or the edit schema, the
    validation issues turned into one message per field, and the accepted
    values sent to the parent as multipart form data. */
module CategoryForm {
  import opened Basics
  import opened Zod
  import CategorySchema

  /** A category as the API returns it (src/pages/core/categories/interfaces/Category.ts). */
  datatype Category = Category(
    id: string, name: string, displayName: string, icon: Option<string>,
    description: string, createdAt: string, entriesCount: int)

  /** The three text inputs, each named after its key. */
  datatype TextField = NameField | DisplayNameField | DescriptionField

  function Key(f: TextField): string {
    match f
    case NameField => "name"
    case DisplayNameField => "displayName"
    case DescriptionField => "description"
  }

  datatype Fields = Fields(name: string, displayName: string, description: string)

  function SetField(fields: Fields, f: TextField, value: string): Fields {
    match f
    case NameField => fields.(name := value)
    case DisplayNameField => fields.(displayName := value)
    case DescriptionField => fields.(description := value)
  }

  /** A `FormData` entry's value. */
  datatype Part = TextPart(text: string) | FilePart(file: File)

  /** The object `handleSubmit` validates: the icon key is always set in
      create mode (to `null` when no file was chosen) and only when a file
      was chosen in edit mode. */
  function DataToValidate(isEditing: bool, fields: Fields, iconFile: Option<File>): (input: CategorySchema.CategoryInput)
    ensures input.name == fields.name && input.displayName == fields.displayName && input.description == fields.description
    ensures iconFile.Some? ==> input.icon == FileValue(iconFile.value)
    ensures iconFile.None? ==> input.icon == (if isEditing then Undefined else Null)
  {
    var icon := if iconFile.Some? then FileValue(iconFile.value) else if isEditing then Undefined else Null;
    CategorySchema.CategoryInput(fields.name, fields.displayName, fields.description, icon)
  }

  /** The issues of the schema the mode selects. */
  function SubmitIssues(isEditing: bool, fields: Fields, iconFile: Option<File>): (r: seq<Issue>)
    ensures isEditing ==> r == CategorySchema.EditIssues(DataToValidate(isEditing, fields, iconFile))
    ensures !isEditing ==> r == CategorySchema.CreateIssues(DataToValidate(isEditing, fields, iconFile))
  {
    var input := DataToValidate(isEditing, fields, iconFile);
    if isEditing then CategorySchema.EditIssues(input) else CategorySchema.CreateIssues(input)
  }

  /** Create mode needs a valid icon; edit mode accepts no icon, and checks
      one only when a file was chosen. */
  lemma SubmitAcceptedIff(isEditing: bool, fields: Fields, iconFile: Option<File>)
    ensures SubmitIssues(isEditing, fields, iconFile) == [] <==>
      && CategorySchema.ValidName(fields.name)
      && CategorySchema.ValidDisplayName(fields.displayName)
      && CategorySchema.ValidDescription(fields.description)
      && (iconFile.Some? ==> CategorySchema.ValidIcon(FileValue(iconFile.value)))
      && (!isEditing ==> iconFile.Some?)
  {
  }

  /** The form data sent to the parent: name, display name and description
      in that order, then the icon when a file was chosen. */
  function SubmitData(fields: Fields, iconFile: Option<File>): (parts: seq<(string, Part)>)
    ensures |parts| == if iconFile.Some? then 4 else 3
    ensures parts[0] == ("name", TextPart(fields.name))
    ensures parts[1] == ("displayName", TextPart(fields.displayName))
    ensures parts[2] == ("description", TextPart(fields.description))
    ensures iconFile.Some? ==> parts[3] == ("icon", FilePart(iconFile.value))
  {
    var parts := [("name", TextPart(fields.name)), ("displayName", TextPart(fields.displayName)),
                  ("description", TextPart(fields.description))];
    if iconFile.Some? then parts + [("icon", FilePart(iconFile.value))] else parts
  }

  /** The `forEach` over the issues: each issue's message is stored under
      its path, so a field's error is the message of its last issue. */
  ghost predicate Reports(issues: seq<Issue>, errors: map<string, string>) {
    && (forall k :: k in errors <==> exists i | 0 <= i < |issues| :: issues[i].path == k)
    && (forall i | 0 <= i < |issues| && (forall j | i < j < |issues| :: issues[j].path != issues[i].path) ::
          issues[i].path in errors && errors[issues[i].path] == issues[i].message)
  }

  method CollectErrors(issues: seq<Issue>) returns (errors: map<string, string>)
    ensures Reports(issues, errors)
  {
    errors := map[];
    for n := 0 to |issues|
      invariant forall k :: k in errors <==> exists i | 0 <= i < n :: issues[i].path == k
      invariant forall i | 0 <= i < n && (forall j | i < j < n :: issues[j].path != issues[i].path) ::
        errors[issues[i].path] == issues[i].message
    {
      errors := errors[issues[n].path := issues[n].message];
    }
  }

  /** With valid other fields and no icon in edit mode, an empty name has
      exactly its two issues. */
  lemma EmptyNameIssues(displayName: string, description: string)
    requires CategorySchema.ValidDisplayName(displayName) && CategorySchema.ValidDescription(description)
    ensures SubmitIssues(true, Fields("", displayName, description), None) ==
      [Issue("name", CategorySchema.NameTooShort), Issue("name", CategorySchema.NamePatternMessage)]
  {
    CategorySchema.EmptyNameTwoIssues();
    var input := DataToValidate(true, Fields("", displayName, description), None);
    assert CategorySchema.DisplayNameIssues(displayName) == [];
    assert CategorySchema.DescriptionIssues(description) == [];
    assert CategorySchema.EditIconIssues(input.icon) == [];
  }

  /** An empty name is reported with the pattern's message, which comes
      after the length message and overwrites it. */
  method EmptyNameError(displayName: string, description: string) returns (errors: map<string, string>)
    requires CategorySchema.ValidDisplayName(displayName) && CategorySchema.ValidDescription(description)
    ensures errors == map["name" := CategorySchema.NamePatternMessage]
  {
    var issues := SubmitIssues(true, Fields("", displayName, description), None);
    EmptyNameIssues(displayName, description);
    errors := CollectErrors(issues);
    LastOfTwoReported(issues, errors);
  }

  /** Two issues on one path leave that path's second message. */
  lemma LastOfTwoReported(issues: seq<Issue>, errors: map<string, string>)
    requires |issues| == 2 && issues[0].path == issues[1].path
    requires Reports(issues, errors)
    ensures errors == map[issues[0].path := issues[1].message]
  {
    assert errors.Keys == {issues[0].path};
  }

  class CategoryFormModal {
    /** The `category` prop; the form is in edit mode when it is set. */
    var category: Option<Category>
    var fields: Fields
    var iconFile: Option<File>
    var iconPreview: string
    /** `errors`: a field without a message has no key. */
    var errors: map<string, string>
    /** The form data handed to `onSubmit`, one per successful submit. */
    var submitted: seq<seq<(string, Part)>>

    constructor (category: Option<Category>)
      ensures this.category == category && iconFile == None && errors == map[] && submitted == []
      ensures category.Some? ==> fields == Fields(category.value.name, category.value.displayName, category.value.description)
      ensures category.None? ==> fields == Fields("", "", "")
    {
      this.category := category;
      fields := if category.Some? then Fields(category.value.name, category.value.displayName, category.value.description)
                else Fields("", "", "");
      iconFile := None;
      iconPreview := if category.Some? && category.value.icon.Some? then category.value.icon.value else "";
      errors := map[];
      submitted := [];
    }

    /** The reset effect, run when the modal opens or the category changes. */
    method Reset(category: Option<Category>)
      modifies this
      ensures this.category == category && iconFile == None && errors == map[] && submitted == old(submitted)
      ensures category.Some? ==> fields == Fields(category.value.name, category.value.displayName, category.value.description)
      ensures category.None? ==> fields == Fields("", "", "")
      ensures iconPreview == if category.Some? && category.value.icon.Some? then category.value.icon.value else ""
    {
      this.category := category;
      if category.Some? {
        fields := Fields(category.value.name, category.value.displayName, category.value.description);
        iconPreview := if category.value.icon.Some? then category.value.icon.value else "";
      } else {
        fields := Fields("", "", "");
        iconPreview := "";
      }
      iconFile := None;
      errors := map[];
    }

    /** `handleInputChange`: the field takes the value and loses its error;
      every other error stays. */
    method HandleInputChange(f: TextField, value: string)
      modifies this`fields, this`errors
      ensures fields == SetField(old(fields), f, value)
      ensures Key(f) in old(errors) && old(errors)[Key(f)] != "" ==> errors == old(errors) - {Key(f)}
      ensures !(Key(f) in old(errors) && old(errors)[Key(f)] != "") ==> errors == old(errors)
    {
      fields := SetField(fields, f, value);
      if Key(f) in errors && errors[Key(f)] != "" {
        errors := errors - {Key(f)};
      }
    }

    /** `handleIconChange`: choosing a file keeps it and drops the icon
      error; an empty selection changes nothing. */
    method HandleIconChange(file: Option<File>)
      modifies this`iconFile, this`errors
      ensures file.None? ==> iconFile == old(iconFile) && errors == old(errors)
      ensures file.Some? ==> iconFile == file
      ensures file.Some? && "icon" in old(errors) && old(errors)["icon"] != "" ==> errors == old(errors) - {"icon"}
      ensures !(file.Some? && "icon" in old(errors) && old(errors)["icon"] != "") ==> errors == old(errors)
    {
      if file.Some? {
        iconFile := file;
        if "icon" in errors && errors["icon"] != "" {
          errors := errors - {"icon"};
        }
      }
    }

    /** `handleSubmit`. The parent's `onSubmit` is called with the form data
        exactly when validation succeeds; whether it then throws does not
        matter here, since the exception is not a validation error and the
        errors stay empty. */
    method HandleSubmit() returns (accepted: bool)
      modifies this`errors, this`submitted
      ensures accepted <==> SubmitIssues(category.Some?, fields, iconFile) == []
      ensures accepted ==> submitted == old(submitted) + [SubmitData(fields, iconFile)] && errors == map[]
      ensures !accepted ==> submitted == old(submitted)
      ensures !accepted ==> Reports(SubmitIssues(category.Some?, fields, iconFile), errors)
    {
      errors := map[];
      var issues := SubmitIssues(category.Some?, fields, iconFile);
      if issues == [] {
        submitted := submitted + [SubmitData(fields, iconFile)];
        accepted := true;
      } else {
        errors := CollectErrors(issues);
        accepted := false;
      }
    }
  }

  /** Every issue lies on one of the four fields. */
  lemma PathsAreFields(isEditing: bool, fields: Fields, iconFile: Option<File>)
    ensures forall i | 0 <= i < |SubmitIssues(isEditing, fields, iconFile)| ::
      SubmitIssues(isEditing, fields, iconFile)[i].path in ["name", "displayName", "description", "icon"]
  {
    var input := DataToValidate(isEditing, fields, iconFile);
    var a := CategorySchema.NameIssues(input.name);
    var b := CategorySchema.DisplayNameIssues(input.displayName);
    var c := CategorySchema.DescriptionIssues(input.description);
    var d := if isEditing then CategorySchema.EditIconIssues(input.icon) else CategorySchema.CreateIconIssues(input.icon);
    var r := SubmitIssues(isEditing, fields, iconFile);
    assert r == a + b + c + d;
    forall i | 0 <= i < |r| ensures r[i].path in ["name", "displayName", "description", "icon"] {
      assert r[i] in a || r[i] in b || r[i] in c || r[i] in d;
    }
  }
}
