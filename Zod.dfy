/** The part of zod's behaviour the form schemas rely on: a failed check
    adds an issue (the field's path and the check's message); the checks of
    a string all run, so several can report; `instanceof` stops the checks
    after it when it fails, while `refine`s do not stop the ones after them;
    `optional()` accepts `undefined` without running anything; an object's
    issues come field by field in the order of its shape. */
module Zod {
  import opened Basics

  /** 10 * 1024 * 1024 bytes, the limit every schema's file checks use. */
  const MaxFileSize: nat := 10 * 1024 * 1024

  /** zod's own message when `instanceof(File)` fails and the schema gives
      none. */
  const NotFileDefault := "Input not instance of File"

  /** A browser `File`: its size in bytes and its MIME type. */
  datatype File = File(size: nat, mimeType: string)

  /** What a file field can hold: missing (`undefined`), `null`, a string
      (an existing image's URL) or a `File`. */
  datatype Value = Undefined | Null | Text(s: string) | FileValue(file: File)

  /** JavaScript truthiness of a field value. */
  predicate Truthy(v: Value) {
    !(v.Undefined? || v.Null? || v == Text(""))
  }

  datatype Issue = Issue(path: string, message: string)

  predicate OnPath(issues: seq<Issue>, path: string) {
    forall i | i in issues :: i.path == path
  }

  /** One check: no issue when it holds, one issue when it fails. */
  function Check(ok: bool, path: string, message: string): (r: seq<Issue>)
    ensures r == [] <==> ok
    ensures |r| <= 1 && OnPath(r, path)
    ensures !ok ==> r == [Issue(path, message)]
  {
    if ok then [] else [Issue(path, message)]
  }

  /** `.min(n, message)` on a string. */
  function MinLength(path: string, s: string, n: nat, message: string): (r: seq<Issue>)
    ensures r == [] <==> |s| >= n
    ensures OnPath(r, path)
  {
    Check(|s| >= n, path, message)
  }

  /** `.max(n, message)` on a string. */
  function MaxLength(path: string, s: string, n: nat, message: string): (r: seq<Issue>)
    ensures r == [] <==> |s| <= n
    ensures OnPath(r, path)
  {
    Check(|s| <= n, path, message)
  }

  /** `.instanceof(File, ...)` followed by a size refinement and a type
      refinement: a value that is not a File gets only the `instanceof`
      issue; a File gets an issue for each refinement it fails. */
  function FileChecks(path: string, v: Value, accepted: seq<string>,
                      notFileMessage: string, sizeMessage: string, typeMessage: string): (r: seq<Issue>)
    ensures r == [] <==> v.FileValue? && v.file.size <= MaxFileSize && v.file.mimeType in accepted
    ensures !v.FileValue? ==> r == [Issue(path, notFileMessage)]
    ensures OnPath(r, path) && |r| <= 2
  {
    if !v.FileValue? then [Issue(path, notFileMessage)]
    else Check(v.file.size <= MaxFileSize, path, sizeMessage) + Check(v.file.mimeType in accepted, path, typeMessage)
  }

  /** `.optional()`: an `undefined` value has no issues. */
  function Optional(v: Value, issues: seq<Issue>): (r: seq<Issue>)
    ensures v.Undefined? ==> r == []
    ensures !v.Undefined? ==> r == issues
  {
    if v.Undefined? then [] else issues
  }

  /** The outcome of `parse`: the data, or the thrown `ZodError`'s issues. */
  datatype Parsed<T> = Valid(data: T) | Invalid(issues: seq<Issue>)

  function Parse<T>(data: T, issues: seq<Issue>): (r: Parsed<T>)
    ensures r.Valid? <==> issues == []
    ensures r.Invalid? ==> r.issues == issues && r.issues != []
  {
    if issues == [] then Valid(data) else Invalid(issues)
  }
}
