/** The client sign-up form: live validation of each field, the submit gate, and
    the multipart body it posts. */
module SignupPage {
  import opened Js
  import Text

  const FirstNameRequired := "First name is required."
  const EmailInvalid := "Enter a valid email."
  const PasswordTooShort := "Password must be at least 6 characters."
  const PasswordTooWeak := "Must include uppercase, number & special char."
  const PasswordsDiffer := "Passwords do not match."
  const PhotoTooLarge := "Image must be less than 2MB."
  const TermsRequired := "You must accept the terms and conditions."

  /** The largest accepted photo, in bytes. */
  const PhotoLimit: nat := 2 * 1024 * 1024

  // ---------------------------------------------------------------------------
  // The password pattern /(?=.*[A-Z])(?=.*[0-9])(?=.*[!@#$%^&*])/, used with `test`

  datatype CharClass = Upper | Digit | Special

  predicate InClass(c: char, k: CharClass) {
    match k
    case Upper => 'A' <= c <= 'Z'
    case Digit => '0' <= c <= '9'
    case Special => c in "!@#$%^&*"
  }

  /** The characters `.` does not match. */
  predicate LineTerminator(c: char) {
    c == '\n' || c == '\r' || c == '\U{2028}' || c == '\U{2029}'
  }

  /** `(?=.*[k])` succeeds at position p: a character of class k at or after p with
      no line terminator before it. */
  ghost predicate LookaheadAt(s: string, p: nat, k: CharClass) {
    exists q :: p <= q < |s| && InClass(s[q], k) && forall j :: p <= j < q ==> !LineTerminator(s[j])
  }

  /** Scans for the lookahead from position p. */
  function Reaches(s: string, p: nat, k: CharClass): bool
    requires p <= |s|
    decreases |s| - p
  {
    if p == |s| then false
    else if InClass(s[p], k) then true
    else if LineTerminator(s[p]) then false
    else Reaches(s, p + 1, k)
  }

  lemma {:induction false} ReachesIff(s: string, p: nat, k: CharClass)
    requires p <= |s|
    ensures Reaches(s, p, k) <==> LookaheadAt(s, p, k)
    decreases |s| - p
  {
    if p < |s| && !InClass(s[p], k) && !LineTerminator(s[p]) {
      ReachesIff(s, p + 1, k);
      if LookaheadAt(s, p, k) {
        var q :| p <= q < |s| && InClass(s[q], k) && forall j :: p <= j < q ==> !LineTerminator(s[j]);
        assert q != p;
        assert LookaheadAt(s, p + 1, k);
      }
    } else if p < |s| && InClass(s[p], k) {
      assert p <= p < |s| && InClass(s[p], k);
    }
  }

  predicate AllAhead(s: string, p: nat)
    requires p <= |s|
  {
    Reaches(s, p, Upper) && Reaches(s, p, Digit) && Reaches(s, p, Special)
  }

  /** Tries the three lookaheads at every position from p on. */
  function MatchFrom(s: string, p: nat): bool
    requires p <= |s|
    decreases |s| - p
  {
    if AllAhead(s, p) then true else if p == |s| then false else MatchFrom(s, p + 1)
  }

  /** `/(?=.*[A-Z])(?=.*[0-9])(?=.*[!@#$%^&*])/.test(s)`. */
  predicate PasswordPattern(s: string) {
    MatchFrom(s, 0)
  }

  lemma {:induction false} MatchFromIff(s: string, p: nat)
    requires p <= |s|
    ensures MatchFrom(s, p) <==> exists a :: p <= a <= |s| && AllAhead(s, a)
    decreases |s| - p
  {
    if p < |s| {
      MatchFromIff(s, p + 1);
      if exists a :: p <= a <= |s| && AllAhead(s, a) {
        var a :| p <= a <= |s| && AllAhead(s, a);
        if a != p {
          assert p + 1 <= a <= |s| && AllAhead(s, a);
        }
      }
    }
  }

  /** The pattern holds exactly when at some position all three lookaheads succeed. */
  lemma PasswordPatternIff(s: string)
    ensures PasswordPattern(s) <==>
      exists p :: 0 <= p <= |s| && LookaheadAt(s, p, Upper) && LookaheadAt(s, p, Digit) && LookaheadAt(s, p, Special)
  {
    MatchFromIff(s, 0);
    forall p | 0 <= p <= |s|
      ensures AllAhead(s, p) <==> LookaheadAt(s, p, Upper) && LookaheadAt(s, p, Digit) && LookaheadAt(s, p, Special)
    {
      ReachesIff(s, p, Upper);
      ReachesIff(s, p, Digit);
      ReachesIff(s, p, Special);
    }
  }

  ghost predicate Contains(s: string, k: CharClass) {
    exists i :: 0 <= i < |s| && InClass(s[i], k)
  }

  /** On a single line the pattern just asks for an uppercase letter, a digit and
      one of !@#$%^&* anywhere. */
  lemma PasswordPatternOneLine(s: string)
    requires forall i :: 0 <= i < |s| ==> !LineTerminator(s[i])
    ensures PasswordPattern(s) <==> Contains(s, Upper) && Contains(s, Digit) && Contains(s, Special)
  {
    PasswordPatternIff(s);
    forall k: CharClass ensures Contains(s, k) ==> LookaheadAt(s, 0, k) {
      if Contains(s, k) {
        var i :| 0 <= i < |s| && InClass(s[i], k);
        assert 0 <= i < |s| && InClass(s[i], k) && forall j :: 0 <= j < i ==> !LineTerminator(s[j]);
      }
    }
    forall p, k: CharClass | 0 <= p <= |s| && LookaheadAt(s, p, k) ensures Contains(s, k) {
      var q :| p <= q < |s| && InClass(s[q], k) && forall j :: p <= j < q ==> !LineTerminator(s[j]);
      assert 0 <= q < |s| && InClass(s[q], k);
    }
  }

  // ---------------------------------------------------------------------------
  // validateField

  /** The names validateField has a rule for. */
  const CheckedFields: set<string> := {"firstName", "email", "password", "confirmPassword", "photo"}

  /** Sets or deletes the error of one field. */
  function SetError(errors: map<string, string>, name: string, failed: bool, message: string): (r: map<string, string>)
    ensures name in r <==> failed
    ensures failed ==> r[name] == message
    ensures forall k :: k != name ==> (k in r <==> k in errors) && (k in r ==> r[k] == errors[k])
  {
    if failed then errors[name := message] else errors - {name}
  }

  /** `validateField(name, value, files)` on the current `errors`; `files` are the
      sizes of the picked files and `formPassword` is `form.password`. */
  function ValidateField(errors: map<string, string>, name: string, value: string, files: seq<nat>, formPassword: string)
    : (r: map<string, string>)
    ensures forall k :: k != name ==> (k in r <==> k in errors) && (k in r ==> r[k] == errors[k])
    ensures name !in CheckedFields ==> r == errors
    ensures name == "firstName" ==> ("firstName" in r <==> Text.Blank(value))
    ensures name == "email" ==> ("email" in r <==> !Text.EmailPattern(value))
    ensures name == "password" && |value| < 6 ==> "password" in r && r["password"] == PasswordTooShort
    ensures name == "password" && |value| >= 6 ==>
      ("password" in r <==> !PasswordPattern(value))
      && ("password" in r ==> r["password"] == PasswordTooWeak)
    ensures name == "confirmPassword" ==> ("confirmPassword" in r <==> value != formPassword)
    ensures name == "photo" ==> ("photo" in r <==> |files| > 0 && files[0] > PhotoLimit)
  {
    match name
    case "firstName" =>
      Text.TrimEmptyIffBlank(value);
      SetError(errors, name, Text.Trim(value) == "", FirstNameRequired)
    case "email" => SetError(errors, name, !Text.EmailPattern(value), EmailInvalid)
    case "password" =>
      if |value| < 6 then SetError(errors, name, true, PasswordTooShort)
      else SetError(errors, name, !PasswordPattern(value), PasswordTooWeak)
    case "confirmPassword" => SetError(errors, name, value != formPassword, PasswordsDiffer)
    case "photo" => SetError(errors, name, |files| > 0 && files[0] > PhotoLimit, PhotoTooLarge)
    case _ => errors
  }

  /** One call of validateField. */
  datatype Change = Change(name: string, value: string, files: seq<nat>, formPassword: string)

  function ValidateAll(errors: map<string, string>, changes: seq<Change>): map<string, string>
    decreases |changes|
  {
    if changes == [] then errors
    else
      var c := changes[0];
      ValidateAll(ValidateField(errors, c.name, c.value, c.files, c.formPassword), changes[1..])
  }

  /** No sequence of field validations removes an error under a name that has no
      rule, such as "terms" or "general". */
  lemma {:induction false} UncheckedErrorsStay(errors: map<string, string>, changes: seq<Change>, key: string)
    requires key in errors && key !in CheckedFields
    ensures key in ValidateAll(errors, changes) && ValidateAll(errors, changes)[key] == errors[key]
    decreases |changes|
  {
    if changes != [] {
      var c := changes[0];
      UncheckedErrorsStay(ValidateField(errors, c.name, c.value, c.files, c.formPassword), changes[1..], key);
    }
  }

  // ---------------------------------------------------------------------------
  // The submit gate

  datatype Gate = Blocked(errors: map<string, string>) | Proceed(errors: map<string, string>)

  /** The gate as written: unticked terms add the terms error; then any error at all
      stops the submit. */
  function SubmitGateAsWritten(terms: bool, errors: map<string, string>): (g: Gate)
    ensures g.Proceed? <==> terms && |errors| == 0
  {
    if !terms then Blocked(errors["terms" := TermsRequired])
    else if |errors| > 0 then Blocked(errors)
    else Proceed(errors)
  }

  /** As written, a terms error once shown blocks every later submit: ticking the
      box only runs the default branch of validateField, and no other change removes
      it. The same holds for the "general" error a failed request leaves. */
  lemma AsWrittenTermsErrorBlocksForever(errors: map<string, string>, changes: seq<Change>, terms: bool)
    ensures SubmitGateAsWritten(false, errors).Blocked?
    ensures SubmitGateAsWritten(terms, ValidateAll(SubmitGateAsWritten(false, errors).errors, changes)).Blocked?
  {
    var e := SubmitGateAsWritten(false, errors).errors;
    UncheckedErrorsStay(e, changes, "terms");
    var after := ValidateAll(e, changes);
    assert "terms" in after;
    assert |after| > 0;
  }

  /** The field errors: everything but the two messages no field rule manages. */
  function FieldErrors(errors: map<string, string>): (r: map<string, string>)
    ensures r.Keys == errors.Keys - {"terms", "general"}
  {
    errors - {"terms", "general"}
  }

  /** The gate as evidently intended: once the terms are ticked, the stale terms and
      request errors are cleared and only field errors stop the submit. */
  function SubmitGate(terms: bool, errors: map<string, string>): (g: Gate)
    ensures !terms ==> g == Blocked(errors["terms" := TermsRequired])
    ensures terms ==> g.errors == FieldErrors(errors)
    ensures g.Proceed? <==> terms && FieldErrors(errors) == map[]
  {
    if !terms then Blocked(errors["terms" := TermsRequired])
    else if |FieldErrors(errors)| > 0 then Blocked(FieldErrors(errors))
    else Proceed(FieldErrors(errors))
  }

  /** With the corrected gate, ticking the terms after a refused submit lets the next
      submit through when no field has an error. */
  lemma TermsErrorClears(errors: map<string, string>, changes: seq<Change>)
    requires FieldErrors(ValidateAll(SubmitGate(false, errors).errors, changes)) == map[]
    ensures SubmitGate(true, ValidateAll(SubmitGate(false, errors).errors, changes)).Proceed?
  {
  }

  // ---------------------------------------------------------------------------
  // The form and its multipart encoding

  datatype File = File(name: string, size: nat)

  datatype SignupForm = SignupForm(
    firstName: string, lastName: string, email: string, password: string,
    confirmPassword: string, userType: string, terms: bool, photo: Option<File>)

  /** A form state value. */
  datatype Field = Text(s: string) | Flag(b: bool) | Picked(file: Option<File>)

  /** A FormData entry value: a string or a file. */
  datatype Part = StrPart(s: string) | FilePart(file: File)

  predicate FieldTruthy(v: Field) {
    match v
    case Text(s) => s != ""
    case Flag(b) => b
    case Picked(f) => f.Some?
  }

  /** `formData.append(key, value)`: a file is kept, anything else is converted
      with `String(value)`. */
  function Appended(v: Field): Part {
    match v
    case Text(s) => StrPart(s)
    case Flag(b) => StrPart(if b then "true" else "false")
    case Picked(f) => if f.Some? then FilePart(f.value) else StrPart("null")
  }

  /** The body of the `forEach` callback for one entry. */
  function EncodeEntry(key: string, v: Field): Part {
    if key == "photo" && FieldTruthy(v) then Appended(v)
    else if key == "terms" then StrPart(if FieldTruthy(v) then "on" else "off")
    else Appended(v)
  }

  /** `Object.entries(form)`, in the order the form object was built. */
  function Entries(f: SignupForm): seq<(string, Field)> {
    [("firstName", Text(f.firstName)), ("lastName", Text(f.lastName)), ("email", Text(f.email)),
     ("password", Text(f.password)), ("confirmPassword", Text(f.confirmPassword)),
     ("userType", Text(f.userType)), ("terms", Flag(f.terms)), ("photo", Picked(f.photo))]
  }

  /** What the posted body holds for a form: the texts as typed, terms as "on" or
      "off", and the photo as a file entry, or the string "null" when none was
      picked. */
  lemma EncodedForm(f: SignupForm)
    ensures var e := Entries(f);
      && EncodeEntry(e[0].0, e[0].1) == StrPart(f.firstName)
      && EncodeEntry(e[1].0, e[1].1) == StrPart(f.lastName)
      && EncodeEntry(e[2].0, e[2].1) == StrPart(f.email)
      && EncodeEntry(e[3].0, e[3].1) == StrPart(f.password)
      && EncodeEntry(e[4].0, e[4].1) == StrPart(f.confirmPassword)
      && EncodeEntry(e[5].0, e[5].1) == StrPart(f.userType)
      && EncodeEntry(e[6].0, e[6].1) == StrPart(if f.terms then "on" else "off")
      && EncodeEntry(e[7].0, e[7].1) == (if f.photo.Some? then FilePart(f.photo.value) else StrPart("null"))
  {
  }

  // ---------------------------------------------------------------------------
  // The page

  class SignupPageState {
    var form: SignupForm
    var errors: map<string, string>
    var success: string
    var loading: bool

    constructor ()
      ensures form == SignupForm("", "", "", "", "", "guest", false, None)
      ensures errors == map[] && success == "" && !loading
    {
      form := SignupForm("", "", "", "", "", "guest", false, None);
      errors := map[];
      success := "";
      loading := false;
    }

    /** `validateField` applied to the page's errors. */
    method Validate(name: string, value: string, files: seq<nat>)
      modifies this`errors
      ensures errors == ValidateField(old(errors), name, value, files, form.password)
    {
      errors := ValidateField(errors, name, value, files, form.password);
    }

    /** `handleChange` for the terms checkbox: the form takes the new value, and
        `validateField("terms", ...)` falls through to its default branch. */
    method ChangeTerms(checked: bool)
      modifies this`form, this`errors
      ensures form == old(form).(terms := checked)
      ensures errors == old(errors)
    {
      form := form.(terms := checked);
      errors := ValidateField(errors, "terms", "on", [], form.password);
    }

    /** The `forEach` that fills the FormData. */
    static method EncodeForm(entries: seq<(string, Field)>) returns (data: seq<(string, Part)>)
      ensures |data| == |entries|
      ensures forall i :: 0 <= i < |entries| ==> data[i] == (entries[i].0, EncodeEntry(entries[i].0, entries[i].1))
    {
      data := [];
      var i := 0;
      while i < |entries|
        invariant 0 <= i <= |entries|
        invariant |data| == i
        invariant forall j :: 0 <= j < i ==> data[j] == (entries[j].0, EncodeEntry(entries[j].0, entries[j].1))
      {
        var (key, value) := entries[i];
        data := data + [(key, EncodeEntry(key, value))];
        i := i + 1;
      }
    }

    /** `handleSubmit` up to the request, with the corrected gate: returns the body to
        post, or nothing when the submit is stopped. */
    method HandleSubmit() returns (body: Option<seq<(string, Part)>>)
      modifies this`errors, this`success, this`loading
      ensures success == ""
      ensures errors == SubmitGate(old(form.terms), old(errors)).errors
      ensures body.Some? <==> SubmitGate(old(form.terms), old(errors)).Proceed?
      ensures body.Some? ==>
        && loading && |body.value| == 8
        && forall i :: 0 <= i < 8 ==> body.value[i] == (Entries(form)[i].0, EncodeEntry(Entries(form)[i].0, Entries(form)[i].1))
      ensures body.None? ==> loading == old(loading)
    {
      success := "";
      var gate := SubmitGate(form.terms, errors);
      errors := gate.errors;
      if gate.Blocked? {
        return None;
      }
      var data := EncodeForm(Entries(form));
      loading := true;
      body := Some(data);
    }

    /** The end of `handleSubmit`: the request succeeded, or failed with the
        server's message, if any. */
    method Finished(ok: bool, message: Option<string>)
      modifies this`errors, this`success, this`loading
      ensures !loading
      ensures ok ==> success == "Registration successful! Redirecting..." && errors == old(errors)
      ensures !ok ==>
        && success == old(success)
        && errors == map["general" := "Signup failed: " + (if message.Some? && message.value != "" then message.value else "Unknown error")]
    {
      if ok {
        success := "Registration successful! Redirecting...";
      } else {
        errors := map["general" := "Signup failed: " + (if message.Some? && message.value != "" then message.value else "Unknown error")];
      }
      loading := false;
    }

    /** A submit with the terms unticked, then a tick, then a second submit: with
        the corrected gate the first is stopped and the second posts the form, when
        no field has an error. */
    method SubmitTickSubmit() returns (first: Option<seq<(string, Part)>>, second: Option<seq<(string, Part)>>)
      requires !form.terms && FieldErrors(errors) == map[]
      modifies this`form, this`errors, this`success, this`loading
      ensures first.None? && second.Some?
      ensures form.terms && errors == map[] && loading
    {
      first := HandleSubmit();
      ChangeTerms(true);
      second := HandleSubmit();
    }
  }
}
