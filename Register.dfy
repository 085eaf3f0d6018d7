/** The registration form: the emptiness check, the email pattern, the payload
    normalisation, the two phases of `handleRegister` around the request, and the
    mapping from server errors to the alert text. */
module Register {
  import opened Wrappers
  import opened Text
  import opened Api

  /** The four text fields as typed. */
  datatype Fields = Fields(name: string, username: string, email: string, password: string)

  /** The body posted to `/register`. */
  datatype RegisterData = RegisterData(name: string, username: string, email: string, password: string)

  const FillAllFields := "Please fill in all fields"
  const InvalidEmail := "Please enter a valid email address"
  const Welcome := "Account created successfully!"
  const GenericFailure := "Registration failed. Please try again."
  const EmailTaken := "Email already registered. Please use a different email."
  const UsernameTaken := "Username already taken. Please choose a different one."
  const CannotConnect := "Cannot connect to server. Please check your internet connection."

  /** A character of the class `[^\s@]`. */
  predicate EmailChar(c: char) { !IsWhitespace(c) && c != '@' }

  predicate EmailPart(s: string) {
    forall k :: 0 <= k < |s| ==> EmailChar(s[k])
  }

  /** `/^[^\s@]+@[^\s@]+\.[^\s@]+$/.test(s)`: `s` splits as local part, `@`, domain,
      `.`, suffix, the three parts non-empty and free of whitespace and `@`. */
  predicate MatchesEmailRegex(s: string) {
    exists i, j ::
      && 0 < i && i + 1 < j && j + 1 < |s| && s[i] == '@' && s[j] == '.'
      && EmailPart(s[..i]) && EmailPart(s[i + 1..j]) && EmailPart(s[j + 1..])
  }

  predicate NoWhitespace(s: string) {
    forall k :: 0 <= k < |s| ==> !IsWhitespace(s[k])
  }

  /** Position `i` holds the only `@` of `s`, not at the start, and a `.` follows
      with at least one character on either side of it. */
  predicate SoleAtBeforeDot(s: string, i: int) {
    && 0 < i < |s| && s[i] == '@'
    && (forall k :: 0 <= k < |s| && k != i ==> s[k] != '@')
    && (exists j :: i + 1 < j < |s| - 1 && s[j] == '.')
  }

  lemma EmailRegexSound(s: string)
    requires MatchesEmailRegex(s)
    ensures NoWhitespace(s)
    ensures exists i :: SoleAtBeforeDot(s, i)
  {
    var i, j :| && 0 < i && i + 1 < j && j + 1 < |s| && s[i] == '@' && s[j] == '.'
                && EmailPart(s[..i]) && EmailPart(s[i + 1..j]) && EmailPart(s[j + 1..]);
    assert s[..i] == s[0..i] && s[j + 1..] == s[j + 1..|s|];
    forall k | 0 <= k < |s| && k != i && k != j ensures EmailChar(s[k]) {
      if k < i {
        EmailPartAt(s, 0, i, k);
      } else if k < j {
        EmailPartAt(s, i + 1, j, k);
      } else {
        EmailPartAt(s, j + 1, |s|, k);
      }
    }
    assert SoleAtBeforeDot(s, i);
  }

  lemma EmailPartAt(s: string, lo: int, hi: int, k: int)
    requires 0 <= lo <= k < hi <= |s| && EmailPart(s[lo..hi])
    ensures EmailChar(s[k])
  {
    assert s[k] == s[lo..hi][k - lo];
  }

  lemma EmailRegexComplete(s: string, i: int)
    requires NoWhitespace(s) && SoleAtBeforeDot(s, i)
    ensures MatchesEmailRegex(s)
  {
    var j :| i + 1 < j < |s| - 1 && s[j] == '.';
    assert EmailPart(s[..i]);
    assert EmailPart(s[i + 1..j]);
    assert EmailPart(s[j + 1..]);
  }

  /** The pattern in plain terms: no whitespace, exactly one `@` and not first, and a
      `.` after the character following the `@` and before the last character. */
  lemma EmailRegexIff(s: string)
    ensures MatchesEmailRegex(s) <==> NoWhitespace(s) && exists i :: SoleAtBeforeDot(s, i)
  {
    if MatchesEmailRegex(s) {
      EmailRegexSound(s);
    }
    if NoWhitespace(s) && exists i :: SoleAtBeforeDot(s, i) {
      var i :| SoleAtBeforeDot(s, i);
      EmailRegexComplete(s, i);
    }
  }

  /** Lower-casing a matching address keeps it matching, so the address actually
      sent satisfies the pattern that was checked. */
  lemma LowerKeepsEmailMatch(s: string)
    requires MatchesEmailRegex(s)
    ensures MatchesEmailRegex(Lower(s))
  {
    EmailRegexSound(s);
    var i :| SoleAtBeforeDot(s, i);
    var j :| i + 1 < j < |s| - 1 && s[j] == '.';
    var t := Lower(s);
    LowerKeepsWhitespace(s);
    assert t[i] == '@' && t[j] == '.';
    assert SoleAtBeforeDot(t, i);
    EmailRegexComplete(t, i);
  }

  /** Every field holds something besides whitespace. */
  predicate AllFilled(f: Fields) {
    Trim(f.name) != "" && Trim(f.username) != "" && Trim(f.email) != "" && Trim(f.password) != ""
  }

  /** `userData`: everything trimmed; username and email also lower-cased. */
  function Payload(f: Fields): (d: RegisterData)
    ensures |d.name| <= |f.name| && |d.username| <= |f.username|
    ensures |d.email| <= |f.email| && |d.password| <= |f.password|
    ensures AllFilled(f) ==> d.name != "" && d.username != "" && d.email != "" && d.password != ""
  {
    RegisterData(Trim(f.name), Lower(Trim(f.username)), Lower(Trim(f.email)), Trim(f.password))
  }

  /** Submitting an already normalised payload again sends it unchanged. */
  lemma PayloadIdempotent(f: Fields)
    ensures var d := Payload(f); Payload(Fields(d.name, d.username, d.email, d.password)) == d
  {
    TrimIdempotent(f.name);
    TrimIdempotent(f.password);
    NormaliseLowerTrim(f.username);
    NormaliseLowerTrim(f.email);
  }

  lemma NormaliseLowerTrim(s: string)
    ensures Lower(Trim(Lower(Trim(s)))) == Lower(Trim(s))
  {
    LowerTrimCommute(Trim(s));
    TrimIdempotent(s);
    LowerIdempotent(Trim(s));
  }

  /** Registration and login normalise a typed email the same way, so an account
      registered with some spelling of an address is found under the same key at
      login. */
  lemma RegisterEmailMatchesLogin(f: Fields, password: string)
    ensures Payload(f).email == LoginPayload(f.email, password).email
  {
  }

  /** The checks of `handleRegister` before the request: blank fields first, then
      the pattern on the trimmed email; on success the normalised payload. */
  function Validate(f: Fields): (r: Result<RegisterData, string>)
    ensures r == Err(FillAllFields) <==> !AllFilled(f)
    ensures r == Err(InvalidEmail) <==> AllFilled(f) && !MatchesEmailRegex(Trim(f.email))
    ensures r.Ok? <==> AllFilled(f) && MatchesEmailRegex(Trim(f.email))
    ensures r.Ok? ==> r.value == Payload(f) && MatchesEmailRegex(r.value.email)
  {
    if !AllFilled(f) then Err(FillAllFields)
    else if !MatchesEmailRegex(Trim(f.email)) then Err(InvalidEmail)
    else
      LowerKeepsEmailMatch(Trim(f.email));
      Ok(Payload(f))
  }

  /** The alert text for a failed registration: the first of three known phrases
      found in the error message decides; otherwise the generic text. */
  function FailureText(message: string): (t: string)
    ensures Contains(message, "Email already registered") ==> t == EmailTaken
    ensures !Contains(message, "Email already registered") && Contains(message, "Username already taken") ==>
      t == UsernameTaken
    ensures (&& !Contains(message, "Email already registered")
             && !Contains(message, "Username already taken")
             && Contains(message, "Network request failed")) ==> t == CannotConnect
    ensures t == GenericFailure <==>
      && !Contains(message, "Email already registered")
      && !Contains(message, "Username already taken")
      && !Contains(message, "Network request failed")
  {
    if Contains(message, "Email already registered") then EmailTaken
    else if Contains(message, "Username already taken") then UsernameTaken
    else if Contains(message, "Network request failed") then CannotConnect
    else GenericFailure
  }

  /** A network failure below `callAPI` reaches this screen already rewritten, so
      the form shows the generic text and never its own connection text. */
  lemma NetworkFailureShowsGenericText(message: string)
    requires Contains(message, "Network request failed")
    ensures CallApi(Threw(JsError("TypeError", message))).Err?
    ensures FailureText(CallApi(Threw(JsError("TypeError", message))).error.message) == GenericFailure
  {
    CallApiNetworkFailure(message);
    ConnectionMessageLacksPhrases();
  }

  /** The rewritten connection message mentions neither a taken email nor a taken
      username. */
  lemma ConnectionMessageLacksPhrases()
    ensures !Contains(ConnectionMessage, "Email already registered")
    ensures !Contains(ConnectionMessage, "Username already taken")
  {
    ConnectionMessageLacks('E');
    NotContainsWithoutHead(ConnectionMessage, "Email already registered");
    ConnectionMessageLacks('U');
    NotContainsWithoutHead(ConnectionMessage, "Username already taken");
  }

  /** `registerUser(userData)` up to `fetch`: a POST to `/register` with the payload. */
  method RegisterRequest(d: RegisterData) returns (endpoint: string, config: RequestConfig<RegisterData>)
    ensures endpoint == "/register" && config.httpMethod == "POST" && config.body == Some(d)
  {
    endpoint := "/register";
    config := BuildConfig("POST", Some(d));
  }

  class RegisterForm {
    var name: string
    var username: string
    var email: string
    var password: string
    var isLoading: bool

    function CurrentFields(): Fields
      reads this
    {
      Fields(name, username, email, password)
    }

    constructor ()
      ensures name == "" && username == "" && email == "" && password == "" && !isLoading
    {
      name, username, email, password := "", "", "", "";
      isLoading := false;
    }

    method TypeName(text: string)
      modifies this`name
      ensures name == text
    {
      name := text;
    }

    method TypeUsername(text: string)
      modifies this`username
      ensures username == text
    {
      username := text;
    }

    method TypeEmail(text: string)
      modifies this`email
      ensures email == text
    {
      email := text;
    }

    method TypePassword(text: string)
      modifies this`password
      ensures password == text
    {
      password := text;
    }

    /** `handleRegister` up to the request. The button is disabled while loading.
        A rejected form makes no request and leaves `isLoading` false; an accepted
        one sets it and yields the payload to send. */
    method HandleRegister() returns (r: Result<RegisterData, string>)
      requires !isLoading
      modifies this`isLoading
      ensures r == Validate(old(CurrentFields()))
      ensures isLoading <==> r.Ok?
    {
      r := Validate(CurrentFields());
      if r.Ok? {
        isLoading := true;
      }
    }

    /** The request has settled: on success the four fields are cleared, on failure
        they stay; either way `isLoading` is false again. Returns the alert text. */
    method FinishRegistration(reply: Result<Data, JsError>) returns (alert: string)
      requires isLoading
      modifies this
      ensures !isLoading
      ensures reply.Ok? ==> alert == Welcome && CurrentFields() == Fields("", "", "", "")
      ensures reply.Err? ==> alert == FailureText(reply.error.message) && CurrentFields() == old(CurrentFields())
    {
      if reply.Ok? {
        name, username, email, password := "", "", "", "";
        alert := Welcome;
      } else {
        alert := FailureText(reply.error.message);
      }
      isLoading := false;
    }
  }
}
