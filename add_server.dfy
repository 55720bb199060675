/**
 * The add-server form (frontend/src/components/AddServer.js): the field values, the per-field
 * error messages, validation, the port input's parse with its 3389 fallback, and submission,
 * which drops blank optional fields before handing the record to the client cache.
 */
module AddServerForm {
  import opened Wrappers
  import opened Text
  import opened Broker
  import opened ClientCache

  // ---------------------------------------------------------------------------
  // Form data
  // ---------------------------------------------------------------------------

  /** The inputs' `name` attributes. */
  datatype Field = Name | Host | Port | Username | Password | Domain | OsKind | Description

  datatype FormData = FormData(name: string, host: string, port: int, username: string, password: string,
                               domain: string, osType: string, description: string)

  const InitialForm := FormData("", "", 3389, "", "", "", "windows", "")

  /** `parseInt(value) || 3389`: NaN and 0 both fall back to the default port. */
  function PortInput(value: string): (port: int)
    ensures port != 0
  {
    match ParseIntPrefix(value)
    case None => DefaultPort
    case Some(n) => if n == 0 then DefaultPort else n
  }

  /** A typed port number is read back as itself, except 0; negative numbers pass through too. */
  lemma PortInputRoundTrip(n: int)
    ensures PortInput(IntToString(n)) == if n == 0 then 3389 else n
  {
    ParseIntRoundTrip(n);
  }

  /** Input that does not start with a number gives the default port. */
  lemma PortInputNotANumber(value: string)
    requires ParseIntPrefix(value).None?
    ensures PortInput(value) == 3389
  {
  }

  /** The string value of a text field (the port is read as a number instead). */
  function Get(f: FormData, k: Field): string
    requires k != Port
  {
    match k
    case Name => f.name
    case Host => f.host
    case Username => f.username
    case Password => f.password
    case Domain => f.domain
    case OsKind => f.osType
    case Description => f.description
  }

  /** `{ ...prev, [name]: name === "port" ? parseInt(value) || 3389 : value }`. */
  function WithField(f: FormData, k: Field, value: string): FormData {
    match k
    case Name => f.(name := value)
    case Host => f.(host := value)
    case Port => f.(port := PortInput(value))
    case Username => f.(username := value)
    case Password => f.(password := value)
    case Domain => f.(domain := value)
    case OsKind => f.(osType := value)
    case Description => f.(description := value)
  }

  /** Editing one field sets that field and leaves every other field as it was. */
  lemma WithFieldChangesOneField(f: FormData, k: Field, value: string)
    ensures k != Port ==> Get(WithField(f, k, value), k) == value && WithField(f, k, value).port == f.port
    ensures k == Port ==> WithField(f, k, value) == f.(port := PortInput(value))
    ensures forall j :: j != k && j != Port ==> Get(WithField(f, k, value), j) == Get(f, j)
  {
  }

  // ---------------------------------------------------------------------------
  // Validation
  // ---------------------------------------------------------------------------

  const NameRequired := "Server name is required"
  const HostRequired := "Host address is required"
  const UsernameRequired := "Username is required"
  const PasswordRequired := "Password is required"
  const PortOutOfRange := "Port must be between 1 and 65535"

  predicate PortInRange(port: int) {
    1 <= port <= 65535
  }

  /** The outcome of each of `validateForm`'s checks: true where the check fails. */
  datatype Checks = Checks(name: bool, host: bool, username: bool, password: bool, port: bool)

  function ChecksOf(f: FormData): Checks {
    Checks(IsBlank(f.name), IsBlank(f.host), IsBlank(f.username), IsBlank(f.password), !PortInRange(f.port))
  }

  /** Whether the check for `k` failed; fields without a check never fail. */
  predicate FailsIn(c: Checks, k: Field) {
    match k
    case Name => c.name
    case Host => c.host
    case Username => c.username
    case Password => c.password
    case Port => c.port
    case _ => false
  }

  /** The condition under which `validateForm` reports an error for `k`. */
  predicate Fails(f: FormData, k: Field) {
    FailsIn(ChecksOf(f), k)
  }

  /** The message reported for `k`. */
  function Message(k: Field): string {
    match k
    case Name => NameRequired
    case Host => HostRequired
    case Username => UsernameRequired
    case Password => PasswordRequired
    case Port => PortOutOfRange
    case _ => ""
  }

  const Checked: set<Field> := {Name, Host, Port, Username, Password}

  function ErrorsFor(c: Checks): map<Field, string> {
    map k | k in Checked && FailsIn(c, k) :: Message(k)
  }

  /** The errors `validateForm` finds: one per failing field, with that field's message. */
  function FieldErrors(f: FormData): map<Field, string> {
    ErrorsFor(ChecksOf(f))
  }

  /** Required text fields must be filled in and the port must be a valid TCP port. */
  predicate IsValid(f: FormData) {
    && !IsBlank(f.name) && !IsBlank(f.host) && !IsBlank(f.username) && !IsBlank(f.password)
    && PortInRange(f.port)
  }

  /** An error is reported for a field exactly when its own check fails, with its own message. */
  lemma ErrorKeyIff(f: FormData, k: Field)
    ensures k in FieldErrors(f) <==> Fails(f, k)
    ensures k in FieldErrors(f) ==> FieldErrors(f)[k] == Message(k) && FieldErrors(f)[k] != ""
    ensures k == Name ==> (k in FieldErrors(f) <==> Trim(f.name) == "")
    ensures k == Host ==> (k in FieldErrors(f) <==> Trim(f.host) == "")
    ensures k == Username ==> (k in FieldErrors(f) <==> Trim(f.username) == "")
    ensures k == Password ==> (k in FieldErrors(f) <==> Trim(f.password) == "")
    ensures k == Port ==> (k in FieldErrors(f) <==> f.port < 1 || f.port > 65535)
    ensures k !in Checked ==> k !in FieldErrors(f)
  {
    TrimEmptyIffBlank(f.name);
    TrimEmptyIffBlank(f.host);
    TrimEmptyIffBlank(f.username);
    TrimEmptyIffBlank(f.password);
  }

  /** Name, host, username and password must be non-empty after trimming, and the port in 1..65535. */
  lemma ValidIffTrimmedFields(f: FormData)
    ensures IsValid(f) <==> && Trim(f.name) != "" && Trim(f.host) != "" && Trim(f.username) != ""
                            && Trim(f.password) != "" && 1 <= f.port <= 65535
  {
    TrimEmptyIffBlank(f.name);
    TrimEmptyIffBlank(f.host);
    TrimEmptyIffBlank(f.username);
    TrimEmptyIffBlank(f.password);
  }

  /** The form is valid exactly when no error is reported. */
  lemma ValidIffNoErrors(f: FormData)
    ensures IsValid(f) <==> FieldErrors(f) == map[]
    ensures IsValid(f) <==> |FieldErrors(f)| == 0
  {
    var c := ChecksOf(f);
    if !IsValid(f) {
      var k :| k in Checked && FailsIn(c, k);
      assert k in FieldErrors(f);
    }
  }

  /** The initial form is not submittable: its required text fields are empty. */
  lemma InitialFormErrors()
    ensures FieldErrors(InitialForm) == map[Name := NameRequired, Host := HostRequired,
                                            Username := UsernameRequired, Password := PasswordRequired]
  {
    assert IsBlank("");
    assert ChecksOf(InitialForm) == Checks(true, true, true, true, false);
  }

  /** `if (failed) newErrors[k] = message`: one of `validateForm`'s checks. */
  function AddIf(errors: map<Field, string>, failed: bool, k: Field): map<Field, string> {
    if failed then errors[k := Message(k)] else errors
  }

  /** The errors as `validateForm` adds them, one check at a time. */
  function CollectErrors(c: Checks): map<Field, string> {
    AddIf(AddIf(AddIf(AddIf(AddIf(map[], c.name, Name), c.host, Host), c.username, Username), c.password, Password), c.port, Port)
  }

  /** Adding the checks one at a time finds the same errors as checking every field at once. */
  lemma CollectErrorsIsErrorsFor(c: Checks)
    ensures CollectErrors(c) == ErrorsFor(c)
  {
    var m := CollectErrors(c);
    forall k
      ensures k in m <==> k in ErrorsFor(c)
    {
    }
  }

  /** A field with a visible error has it cleared to "" on edit; nothing else changes. */
  function ClearError(errors: map<Field, string>, k: Field): map<Field, string> {
    if k in errors && errors[k] != "" then errors[k := ""] else errors
  }

  /** After an edit the field shows no error, the set of keys is the same, and other errors stay. */
  lemma ClearErrorEffect(errors: map<Field, string>, k: Field)
    ensures ClearError(errors, k).Keys == errors.Keys
    ensures k in errors ==> ClearError(errors, k)[k] == ""
    ensures forall j :: j in errors && j != k ==> ClearError(errors, k)[j] == errors[j]
    ensures ClearError(ClearError(errors, k), k) == ClearError(errors, k)
  {
  }

  // ---------------------------------------------------------------------------
  // Submission
  // ---------------------------------------------------------------------------

  /** The record passed to `createServer`: `domain` and `description` absent when blank. */
  datatype ServerData = ServerData(name: string, host: string, port: int, username: string, password: string,
                                   domain: Option<string>, osType: string, description: Option<string>)

  function StripOptional(f: FormData): ServerData {
    ServerData(f.name, f.host, f.port, f.username, f.password,
               if IsBlank(f.domain) then None else Some(f.domain), f.osType,
               if IsBlank(f.description) then None else Some(f.description))
  }

  /**
   * The optional fields are dropped only when they are nothing but white space, and sent
   * untrimmed otherwise; every other field is sent as entered.
   */
  lemma StripOptionalFields(f: FormData)
    ensures var d := StripOptional(f);
      && (d.domain.None? <==> Trim(f.domain) == "")
      && (d.description.None? <==> Trim(f.description) == "")
      && (d.domain.Some? ==> d.domain.value == f.domain)
      && (d.description.Some? ==> d.description.value == f.description)
      && d.name == f.name && d.host == f.host && d.port == f.port && d.username == f.username
      && d.password == f.password && d.osType == f.osType
  {
    TrimEmptyIffBlank(f.domain);
    TrimEmptyIffBlank(f.description);
  }

  class AddServerPage {
    var form: FormData
    var errors: map<Field, string>
    /** `navigate("/servers")` was called. */
    var navigated: bool

    constructor ()
      ensures form == InitialForm && errors == map[] && !navigated
    {
      form, errors, navigated := InitialForm, map[], false;
    }

    /** `handleChange` for the input named `k`. */
    method HandleChange(k: Field, value: string)
      modifies this
      ensures form == WithField(old(form), k, value)
      ensures errors == ClearError(old(errors), k)
      ensures navigated == old(navigated)
    {
      form := WithField(form, k, value);
      if k in errors && errors[k] != "" {
        errors := errors[k := ""];
      }
    }

    /** `validateForm`: collect the errors, show them, and report whether there were none. */
    method ValidateForm() returns (ok: bool)
      modifies this
      ensures errors == FieldErrors(form)
      ensures ok <==> IsValid(form)
      ensures form == old(form) && navigated == old(navigated)
    {
      var checks := ChecksOf(form);
      var newErrors: map<Field, string> := map[];
      newErrors := AddIf(newErrors, checks.name, Name);
      newErrors := AddIf(newErrors, checks.host, Host);
      newErrors := AddIf(newErrors, checks.username, Username);
      newErrors := AddIf(newErrors, checks.password, Password);
      newErrors := AddIf(newErrors, checks.port, Port);
      assert newErrors == CollectErrors(checks);
      CollectErrorsIsErrorsFor(checks);
      ValidIffNoErrors(form);
      assert newErrors == FieldErrors(form);
      errors := newErrors;
      ok := |newErrors| == 0;
    }

    /**
     * `handleSubmit`: an invalid form only shows its errors; a valid one is sent, blank
     * optional fields removed, and the page leaves for the server list once the cache has
     * added the new server. A failed request leaves the page where it is.
     */
    method HandleSubmit(cache: RdpCache, response: Http<Server>) returns (sent: Option<ServerData>)
      modifies this, cache
      ensures errors == FieldErrors(old(form)) && form == old(form)
      ensures sent.None? <==> !IsValid(old(form))
      ensures sent.Some? ==> sent.value == StripOptional(old(form))
      ensures sent.None? ==> navigated == old(navigated) && unchanged(cache)
      ensures sent.Some? ==> navigated == (old(navigated) || response.Ok?)
      ensures sent.Some? ==> !cache.loading && cache.connections == old(cache.connections)
      ensures sent.Some? && response.Ok? ==> cache.servers == old(cache.servers) + [response.data] && cache.error == None
      ensures sent.Some? && response.Failed? ==> cache.servers == old(cache.servers) && cache.error == Some(CreateServerFailed)
    {
      var ok := ValidateForm();
      if !ok {
        return None;
      }
      var serverData := StripOptional(form);
      var done := cache.CreateServer(response);
      if done.Returned? {
        navigated := true;
      }
      sent := Some(serverData);
    }
  }
}
