/** The integration's setup dialog (`RohlikVoiceConfigFlow`): the format
    check of the OpenAI key, the connection test that validates the grocery
    credentials, and the user step that turns their outcomes into an abort,
    a form with an error code, or a new entry. */
module ConfigFlow {
  import opened Base
  import opened PyText
  import opened Json
  import opened McpClient

  /** The three required fields of the form. */
  datatype UserInput = UserInput(email: string, password: string, apiKey: string)

  /** What the user step answers: the form again with its `errors`, a new
      entry with its title and data, or an abort with its reason. */
  datatype FlowResult =
    | ShowForm(errors: map<string, string>)
    | CreateEntry(title: string, data: UserInput)
    | Abort(reason: string)

  const KeyPrefix := "sk-"
  const MinKeyLength := 20

  /** `validate_openai_key`: a format check only, no request is made. */
  function ValidateOpenAiKey(key: string): (ok: bool)
    ensures ok <==> StartsWith(key, KeyPrefix) && |key| >= MinKeyLength
    ensures key == [] ==> !ok
  {
    if key == [] then false
    else if !StartsWith(key, KeyPrefix) then false
    else if |key| < MinKeyLength then false
    else true
  }

  /** The shortest accepted key is "sk-" and seventeen more characters; no
      key of nineteen characters or fewer is accepted, whatever its prefix. */
  lemma KeyLengthBoundary(rest: string, key: string)
    requires |rest| == 17
    requires |key| < MinKeyLength
    ensures ValidateOpenAiKey(KeyPrefix + rest)
    ensures !ValidateOpenAiKey(KeyPrefix + rest[..16])
    ensures !ValidateOpenAiKey(key)
  {
    assert (KeyPrefix + rest)[..3] == KeyPrefix;
  }

  /** A key that does not start with "sk-" is refused however long it is. */
  lemma KeyPrefixIsRequired(key: string)
    requires |key| >= 3 && key[..3] != KeyPrefix
    ensures !ValidateOpenAiKey(key)
  {
  }

  /** `validate_rohlik_credentials`: a fresh client runs the connection test
      (its first POST is the tool listing) and is closed afterwards,
      whatever the test gave. */
  method ValidateRohlikCredentials(email: string, password: string, server: (nat, Json) -> Reply,
                                   loads: string -> Outcome<Json>)
    returns (ok: bool, client: Client)
    ensures ok == ConnectionOk(server(0, ListToolsRequest), loads)
    ensures client.email == email && client.password == password
    ensures client.posted == [ListToolsRequest]
    ensures !client.sessionOpen
  {
    client := new Client(email, password, server, loads);
    ok := client.TestConnection();
    client.Close();
  }

  /** The decision of `async_step_user` from what its checks gave: whether
      the unique id is already configured, whether the key is well formed,
      and what validating the credentials returned or raised (consulted only
      for a well-formed key). */
  function Decide(input: Option<UserInput>, configured: set<string>, keyOk: bool, credentials: Outcome<bool>): FlowResult {
    match input
    case None => ShowForm(map[])
    case Some(u) =>
      if u.email in configured then Abort("already_configured")
      else if !keyOk then ShowForm(map["base" := "invalid_openai_key"])
      else
        match credentials
        case Raised(_) => ShowForm(map["base" := "cannot_connect"])
        case Returned(false) => ShowForm(map["base" := "invalid_auth"])
        case Returned(true) => CreateEntry("Rohlik (" + u.email + ")", u)
  }

  /** Without input the form is shown with no error. */
  lemma NoInputShowsEmptyForm(configured: set<string>, keyOk: bool, credentials: Outcome<bool>)
    ensures Decide(None, configured, keyOk, credentials) == ShowForm(map[])
  {
  }

  /** An email already configured aborts before any check. */
  lemma ConfiguredEmailAborts(u: UserInput, configured: set<string>, keyOk: bool, credentials: Outcome<bool>)
    requires u.email in configured
    ensures Decide(Some(u), configured, keyOk, credentials) == Abort("already_configured")
  {
  }

  /** A malformed key is reported as such, and the credentials do not matter. */
  lemma BadKeyIgnoresCredentials(u: UserInput, configured: set<string>, c1: Outcome<bool>, c2: Outcome<bool>)
    requires u.email !in configured
    ensures Decide(Some(u), configured, false, c1) == ShowForm(map["base" := "invalid_openai_key"])
    ensures Decide(Some(u), configured, false, c1) == Decide(Some(u), configured, false, c2)
  {
  }

  /** With a well-formed key, refused credentials give `invalid_auth` and an
      exception gives `cannot_connect`. */
  lemma CredentialErrors(u: UserInput, configured: set<string>, m: string)
    requires u.email !in configured
    ensures Decide(Some(u), configured, true, Returned(false)) == ShowForm(map["base" := "invalid_auth"])
    ensures Decide(Some(u), configured, true, Raised(m)) == ShowForm(map["base" := "cannot_connect"])
  {
  }

  /** An entry titled "Rohlik (<email>)" holding the input is created exactly
      when nothing went wrong; otherwise the form carries exactly one error,
      under `base`. */
  lemma EntryExactlyWithoutErrors(input: Option<UserInput>, configured: set<string>, keyOk: bool, credentials: Outcome<bool>)
    ensures var r := Decide(input, configured, keyOk, credentials);
      && (r.CreateEntry? <==> input.Some? && input.value.email !in configured && keyOk && credentials == Returned(true))
      && (r.CreateEntry? ==> r.title == "Rohlik (" + input.value.email + ")" && r.data == input.value)
      && (r.ShowForm? && input.Some? ==> r.errors.Keys == {"base"})
  {
  }

  /** `async_step_user`, checking the credentials against the backend
      `server`: it fills `errors` step by step and then decides. `probe` is
      what the validation POSTed: nothing unless the key is well formed. */
  method StepUser(input: Option<UserInput>, configured: set<string>, server: (nat, Json) -> Reply,
                  loads: string -> Outcome<Json>)
    returns (result: FlowResult, probe: seq<Json>)
    ensures input.Some? ==>
      result == Decide(input, configured, ValidateOpenAiKey(input.value.apiKey),
                       Returned(ConnectionOk(server(0, ListToolsRequest), loads)))
    ensures input.None? ==> result == ShowForm(map[])
    ensures probe == (if input.Some? && input.value.email !in configured && ValidateOpenAiKey(input.value.apiKey)
                      then [ListToolsRequest] else [])
  {
    probe := [];
    var errors: map<string, string> := map[];
    if input.Some? {
      var u := input.value;
      if u.email in configured {
        return Abort("already_configured"), probe;
      }
      if !ValidateOpenAiKey(u.apiKey) {
        errors := errors["base" := "invalid_openai_key"];
        assert "base" in errors;
      } else {
        var valid, client := ValidateRohlikCredentials(u.email, u.password, server, loads);
        probe := client.posted;
        if !valid {
          errors := errors["base" := "invalid_auth"];
          assert "base" in errors;
        }
      }
      if errors == map[] {
        return CreateEntry("Rohlik (" + u.email + ")", u), probe;
      }
    }
    result := ShowForm(errors);
  }

  /** Validation against the backend never raises, so the step never answers
      `cannot_connect`. */
  lemma NeverCannotConnect(input: Option<UserInput>, configured: set<string>, server: (nat, Json) -> Reply,
                           loads: string -> Outcome<Json>)
    requires input.Some?
    ensures var r := Decide(input, configured, ValidateOpenAiKey(input.value.apiKey),
                            Returned(ConnectionOk(server(0, ListToolsRequest), loads)));
      r.ShowForm? ==> r.errors == map["base" := "invalid_openai_key"] || r.errors == map["base" := "invalid_auth"]
  {
  }
}
