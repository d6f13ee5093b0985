/**
 * The input checks of the registration, chat and code-execution endpoints.
 * Each check either passes the cleaned-up input on or rejects the request
 * with status 400 and the message of the first check that fails.
 */
module Validation {
  import opened Common
  import opened Text

  /** An error response: HTTP status and message. */
  datatype Rejection = Rejection(status: int, message: string)

  const UsernameTooShort: string := "Username must be at least 3 characters"
  const EmailRequired: string := "Valid email is required"
  const PasswordTooShort: string := "Password must be at least 6 characters"
  const MessageRequired: string := "Message is required"
  const CodeRequired: string := "Code is required"

  /** The accepted registration: stripped username and e-mail, password as sent. */
  datatype Registration = Registration(username: string, email: string, password: string)

  /**
   * The registration checks, in order: a stripped username of at least 3
   * characters, a stripped e-mail containing '@', a password of at least 6
   * characters.
   */
  function ValidateRegistration(username: Option<string>, email: Option<string>, password: Option<string>)
    : (r: Result<Registration, Rejection>)
    ensures var u, e, p := Strip(ValueOr(username, "")), Strip(ValueOr(email, "")), ValueOr(password, "");
            && (r.Ok? <==> |u| >= 3 && '@' in e && |p| >= 6)
            && (|u| < 3 ==> r == Err(Rejection(400, UsernameTooShort)))
            && (|u| >= 3 && '@' !in e ==> r == Err(Rejection(400, EmailRequired)))
            && (|u| >= 3 && '@' in e && |p| < 6 ==> r == Err(Rejection(400, PasswordTooShort)))
            && (r.Ok? ==> r.value == Registration(u, e, p))
  {
    var u := Strip(ValueOr(username, ""));
    var e := Strip(ValueOr(email, ""));
    var p := ValueOr(password, "");
    if u == [] || |u| < 3 then Err(Rejection(400, UsernameTooShort))
    else if e == [] || '@' !in e then Err(Rejection(400, EmailRequired))
    else if p == [] || |p| < 6 then Err(Rejection(400, PasswordTooShort))
    else Ok(Registration(u, e, p))
  }

  /** Whitespace around the username and the e-mail never changes the outcome. */
  lemma RegistrationIgnoresSurroundingSpace(username: string, email: string, password: Option<string>)
    ensures ValidateRegistration(Some(Strip(username)), Some(Strip(email)), password)
            == ValidateRegistration(Some(username), Some(email), password)
  {
    StripIdempotent(username);
    StripIdempotent(email);
  }

  /** The password is not stripped: six spaces make a valid password. */
  lemma BlankPasswordAccepted(username: string, email: string)
    requires |Strip(username)| >= 3 && '@' in Strip(email)
    ensures ValidateRegistration(Some(username), Some(email), Some("      ")).Ok?
  {
  }

  /** The chat check: the stripped message must not be empty. */
  function ValidateChatMessage(message: Option<string>): (r: Result<string, Rejection>)
    ensures r.Ok? <==> !AllSpace(ValueOr(message, ""))
    ensures r.Ok? ==> r.value == Strip(ValueOr(message, "")) && r.value != []
    ensures r.Err? ==> r.error == Rejection(400, MessageRequired)
  {
    var m := Strip(ValueOr(message, ""));
    if m == [] then Err(Rejection(400, MessageRequired)) else Ok(m)
  }

  datatype Language = Python | JavaScript

  /** An accepted code-execution request: the language and the stripped code. */
  datatype CodeRequest = CodeRequest(language: Language, code: string)

  /**
   * The code-execution checks: the stripped code must not be empty, and the
   * lower-cased language (python when absent) must be python or javascript.
   */
  function ValidateCodeRequest(code: Option<string>, language: Option<string>): (r: Result<CodeRequest, Rejection>)
    ensures var c, l := Strip(ValueOr(code, "")), Lower(ValueOr(language, "python"));
            && (r.Ok? <==> c != [] && (l == "python" || l == "javascript"))
            && (c == [] ==> r == Err(Rejection(400, CodeRequired)))
            && (c != [] && l != "python" && l != "javascript" ==>
                  r == Err(Rejection(400, "Unsupported language: " + l)))
            && (r.Ok? ==> r.value.code == c && (r.value.language == Python <==> l == "python"))
  {
    var c := Strip(ValueOr(code, ""));
    var l := Lower(ValueOr(language, "python"));
    if c == [] then Err(Rejection(400, CodeRequired))
    else if l == "python" then Ok(CodeRequest(Python, c))
    else if l == "javascript" then Ok(CodeRequest(JavaScript, c))
    else Err(Rejection(400, "Unsupported language: " + l))
  }

  /** The language name is matched without regard to case. */
  lemma LanguageIgnoresCase(code: Option<string>, language: string)
    ensures ValidateCodeRequest(code, Some(Lower(language))) == ValidateCodeRequest(code, Some(language))
  {
    LowerIdempotent(language);
  }

  /** A request without a language runs as Python. */
  lemma DefaultLanguageIsPython(code: string)
    requires !AllSpace(code)
    ensures ValidateCodeRequest(Some(code), None) == Ok(CodeRequest(Python, Strip(code)))
  {
    assert Lower("python") == "python";
  }
}
