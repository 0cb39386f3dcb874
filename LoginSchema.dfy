/** The login form schema (src/pages/public/auth/schemas/loginSchema.ts).
    zod's e-mail rule is not modelled: it is the parameter `isEmail`. */
module LoginSchema {
  import opened Zod

  datatype LoginInput = LoginInput(email: string, password: string)

  predicate ValidPassword(password: string) { |password| >= 6 }

  function EmailIssues(email: string, isEmail: string -> bool): (r: seq<Issue>)
    ensures r == [] <==> isEmail(email) && email != ""
    ensures OnPath(r, "email")
  {
    Check(isEmail(email), "email", "Correo electrónico inválido")
    + MinLength("email", email, 1, "El correo electrónico es requerido")
  }

  function PasswordIssues(password: string): (r: seq<Issue>)
    ensures r == [] <==> ValidPassword(password)
    ensures OnPath(r, "password")
  {
    MinLength("password", password, 1, "La contraseña es requerida")
    + MinLength("password", password, 6, "La contraseña debe tener al menos 6 caracteres")
  }

  function LoginIssues(input: LoginInput, isEmail: string -> bool): (r: seq<Issue>)
    ensures r == [] <==> isEmail(input.email) && input.email != "" && ValidPassword(input.password)
  {
    EmailIssues(input.email, isEmail) + PasswordIssues(input.password)
  }

  /** The `min(1)` check on the password never fails alone: whenever it
      reports, so does `min(6)`, and an empty password gets both messages. */
  lemma MinOneImpliedBySix(password: string)
    ensures MinLength("password", password, 1, "La contraseña es requerida") != [] ==>
      MinLength("password", password, 6, "La contraseña debe tener al menos 6 caracteres") != []
    ensures PasswordIssues("") == [
      Issue("password", "La contraseña es requerida"),
      Issue("password", "La contraseña debe tener al menos 6 caracteres")]
  {
  }
}
