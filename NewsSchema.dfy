/** The news schemas (src/pages/core/news/schemas/newsSchema.ts) declare the
    same fields, bounds, file checks and messages as the post schemas, so
    they are the post schemas' functions under the news names. */
module NewsSchema {
  import opened Zod
  import PostSchema

  type NewsInput = PostSchema.PostInput

  function CreateNewsIssues(input: NewsInput): (r: seq<Issue>)
    ensures r == [] <==> PostSchema.ValidText(input) && PostSchema.ValidImage(input.image)
  {
    PostSchema.CreateIssues(input)
  }

  function EditNewsIssues(input: NewsInput): (r: seq<Issue>)
    ensures r == [] <==> PostSchema.ValidText(input) && (input.image.Undefined? || PostSchema.ValidImage(input.image))
  {
    PostSchema.EditIssues(input)
  }

  /** Whatever the news create schema accepts, the news edit schema accepts. */
  lemma CreateImpliesEdit(input: NewsInput)
    requires CreateNewsIssues(input) == []
    ensures EditNewsIssues(input) == []
  {
  }
}
