/**
 * The sign-up page: the schema's length bounds, the submit sequence
 * (auth sign-up, profile insert, rollback on a failed insert, redirect)
 * and field editing.
 */
module Signup {
  import opened Records

  /** One check of a string field and the message it reports when it fails. */
  datatype Check =
    | MinLength(n: nat, message: string)
    | MaxLength(n: nat, message: string)
    | EmailFormat(message: string)

  /** A field of the schema with its checks, in order. */
  datatype Field = Field(name: string, checks: seq<Check>)

  /** `signupSchema`: the three fields and their checks. */
  const Schema: seq<Field> := [
    Field("name", [MinLength(2, "Name must be at least 2 characters"),
                   MaxLength(50, "Name must be less than 50 characters")]),
    Field("email", [EmailFormat("Invalid email address")]),
    Field("password", [MinLength(8, "Password must be at least 8 characters")])
  ]

  /**
   * Whether a check fails on `value`. The e-mail check is the library's
   * own; `emailValid` is its verdict.
   */
  predicate Fails(c: Check, value: string, emailValid: bool) {
    match c
    case MinLength(n, _) => |value| < n
    case MaxLength(n, _) => |value| > n
    case EmailFormat(_) => !emailValid
  }

  /** The messages of the checks that fail, in order. */
  function CheckIssues(checks: seq<Check>, value: string, emailValid: bool): (r: seq<string>)
    ensures r == [] <==> forall k :: 0 <= k < |checks| ==> !Fails(checks[k], value, emailValid)
  {
    if checks == [] then []
    else
      (if Fails(checks[0], value, emailValid) then [checks[0].message] else [])
      + CheckIssues(checks[1..], value, emailValid)
  }

  /** The issues `parse` collects: a missing field is "Required", a present one reports each failed check. */
  function Issues(fields: seq<Field>, form: map<string, string>, emailValid: bool): (r: seq<string>)
    ensures r == [] <==> forall k :: 0 <= k < |fields| ==>
      fields[k].name in form && CheckIssues(fields[k].checks, form[fields[k].name], emailValid) == []
  {
    if fields == [] then []
    else
      var f := fields[0];
      (if f.name !in form then ["Required"] else CheckIssues(f.checks, form[f.name], emailValid))
      + Issues(fields[1..], form, emailValid)
  }

  /** The schema's issues read field by field. */
  lemma SchemaIssuesNone(form: map<string, string>, emailValid: bool)
    ensures Issues(Schema, form, emailValid) == [] <==>
      && "name" in form && 2 <= |form["name"]| <= 50
      && "email" in form && emailValid
      && "password" in form && |form["password"]| >= 8
  {
    var name, email, password := Schema[0], Schema[1], Schema[2];
    if name.name in form {
      assert CheckIssues(name.checks, form["name"], emailValid) == [] <==>
        !Fails(name.checks[0], form["name"], emailValid) && !Fails(name.checks[1], form["name"], emailValid);
    }
    if email.name in form {
      assert CheckIssues(email.checks, form["email"], emailValid) == [] <==> !Fails(email.checks[0], form["email"], emailValid);
    }
    if password.name in form {
      assert CheckIssues(password.checks, form["password"], emailValid) == [] <==>
        !Fails(password.checks[0], form["password"], emailValid);
    }
  }

  /**
   * The schema accepts the form: a name of 2 to 50 characters, an e-mail
   * the library's e-mail check accepts (`emailValid`) and a password of at
   * least 8 characters; `parse` throws exactly when it collects an issue.
   * Lengths count characters of the model's strings.
   */
  function Accepts(form: map<string, string>, emailValid: bool): (r: bool)
    ensures r <==> Issues(Schema, form, emailValid) == []
  {
    SchemaIssuesNone(form, emailValid);
    && "name" in form && "email" in form && "password" in form
    && 2 <= |form["name"]| <= 50
    && emailValid
    && |form["password"]| >= 8
  }

  /** The outcome of `auth.signUp`: the created user's id and the error, either possibly absent. */
  datatype AuthReply = AuthReply(user: Option<Id>, error: Option<string>)

  /** A call the page makes to the backend or the router. */
  datatype SignupCall =
    | SignUp(email: string, password: string)
    | InsertUser(id: Id, email: string, name: string)
    | DeleteUser(id: Id)
    | Redirect(path: string)

  const LoginPath := "/login"

  /**
   * The calls of one submit. Any failure is thrown and swallowed, so the
   * sequence simply stops at it.
   */
  function Steps(form: map<string, string>, emailValid: bool, auth: AuthReply, dbError: Option<string>): (r: seq<SignupCall>)
    ensures !Accepts(form, emailValid) <==> r == []
    ensures r != [] ==> r[0] == SignUp(form["email"], form["password"])
    ensures forall c :: c in r && c.InsertUser? ==>
      auth.error.None? && auth.user == Some(c.id) && c.email == form["email"] && c.name == form["name"]
    ensures (exists c :: c in r && c.InsertUser?) <==> r != [] && auth.error.None? && auth.user.Some?
    ensures (exists c :: c in r && c.DeleteUser?) <==> r != [] && auth.error.None? && auth.user.Some? && dbError.Some?
    ensures forall i :: 0 <= i < |r| && r[i].DeleteUser? ==> 0 < i && r[i - 1] == InsertUser(r[i].id, form["email"], form["name"])
    ensures Redirect(LoginPath) in r <==> r != [] && auth.error.None? && (auth.user.None? || dbError.None?)
    ensures forall i :: 0 <= i < |r| && r[i].Redirect? ==> i == |r| - 1
  {
    if !Accepts(form, emailValid) then []
    else if auth.error.Some? then [SignUp(form["email"], form["password"])]
    else if auth.user.None? then [SignUp(form["email"], form["password"]), Redirect(LoginPath)]
    else
      var id := auth.user.value;
      var insert := InsertUser(id, form["email"], form["name"]);
      var r := if dbError.Some? then [SignUp(form["email"], form["password"]), insert, DeleteUser(id)]
               else [SignUp(form["email"], form["password"]), insert, Redirect(LoginPath)];
      assert r[1] in r && r[2] in r;
      r
  }

  class SignupPage {
    var formData: map<string, string>
    var errors: map<string, string>
    var loading: bool

    /** No field shows an error message. */
    predicate NoMessages()
      reads this
    {
      forall k :: k in errors ==> errors[k] == ""
    }

    constructor()
      ensures formData == map["name" := "", "email" := "", "password" := ""]
      ensures errors == map[] && !loading
    {
      formData := map["name" := "", "email" := "", "password" := ""];
      errors := map[];
      loading := false;
    }

    /**
     * `handleSubmit`, with the backend replies as parameters: `calls` are
     * the calls made, in order. Errors are reset at the start and nothing
     * refills them; loading is off at the end whatever happened.
     */
    method HandleSubmit(emailValid: bool, auth: AuthReply, dbError: Option<string>) returns (calls: seq<SignupCall>)
      modifies this`loading, this`errors
      ensures calls == Steps(formData, emailValid, auth, dbError)
      ensures errors == map[] && NoMessages()
      ensures !loading
    {
      loading := true;
      errors := map[];
      calls := [];
      if Accepts(formData, emailValid) {
        calls := calls + [SignUp(formData["email"], formData["password"])];
        if auth.error.None? {
          var failed := false;
          if auth.user.Some? {
            calls := calls + [InsertUser(auth.user.value, formData["email"], formData["name"])];
            if dbError.Some? {
              calls := calls + [DeleteUser(auth.user.value)];
              failed := true;
            }
          }
          if !failed {
            calls := calls + [Redirect(LoginPath)];
          }
        }
      }
      loading := false;
    }

    /**
     * `handleChange`: the named field takes the new value, and its error is
     * blanked only if it held a message; nothing else changes.
     */
    method HandleChange(field: string, value: string)
      modifies this`formData, this`errors
      ensures formData == old(formData)[field := value]
      ensures forall k :: k != field ==> (k in formData <==> k in old(formData))
      ensures forall k :: k != field && k in formData ==> formData[k] == old(formData)[k]
      ensures errors == if field in old(errors) && old(errors)[field] != "" then old(errors)[field := ""] else old(errors)
      ensures old(NoMessages()) ==> errors == old(errors)
      ensures old(NoMessages()) ==> NoMessages()
    {
      formData := formData[field := value];
      if field in errors && errors[field] != "" {
        errors := errors[field := ""];
      }
    }
  }
}
