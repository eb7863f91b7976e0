/** The request a caller fills in to send one e-mail: `SendEmailRequest`,
    `EMailAddress` and `EMailPriority`. */
module EmailRequest {
  import opened CSharp
  import Mail

  /** The named members of `EMailPriority`, in declaration order. */
  datatype EMailPriority = Low | Medium | High

  /** The underlying value of a named member (implicit numbering from 0). */
  function Ordinal(p: EMailPriority): int32
  {
    match p
    case Low => 0
    case Medium => 1
    case High => 2
  }

  /** The named member with underlying value `v`, if there is one. An enum-typed
      variable may hold any `int` value, named or not. */
  function Member(v: int32): (r: Option<EMailPriority>)
    ensures r.Some? ==> Ordinal(r.value) == v
    ensures r.None? ==> forall p: EMailPriority :: Ordinal(p) != v
  {
    if v == 0 then Some(Low)
    else if v == 1 then Some(Medium)
    else if v == 2 then Some(High)
    else None
  }

  /** `EMailPriority` has exactly three members, numbered 0, 1 and 2. */
  lemma ExactlyThreeMembers()
    ensures forall v: int32 :: Member(v).Some? <==> 0 <= v <= 2
    ensures forall p: EMailPriority :: Member(Ordinal(p)) == Some(p)
    ensures forall p, q: EMailPriority :: Ordinal(p) == Ordinal(q) ==> p == q
  {
  }

  /** An `EMailAddress`: the nullable backing field `_name` and the address. */
  datatype EMailAddress = EMailAddress(storedName: Option<string>, address: string)

  /** The `EMailAddress(name, address)` constructor. */
  function NewAddress(name: Option<string>, address: string): (a: EMailAddress)
    ensures a.address == address && a.storedName == name
    ensures !IsNullOrEmpty(name) ==> Name(a) == name.value
    ensures IsNullOrEmpty(name) ==> Name(a) == address
  {
    EMailAddress(name, address)
  }

  /** The `Name` getter: the stored name, or the address when it is null or empty. */
  function Name(a: EMailAddress): (n: string)
    ensures Some(n) == a.storedName || n == a.address
    ensures a.address != "" ==> n != ""
  {
    if IsNullOrEmpty(a.storedName) then a.address else a.storedName.value
  }

  /** The `Name` setter: stores the value as given, null and empty included. */
  function SetName(a: EMailAddress, name: Option<string>): (a': EMailAddress)
    ensures a'.address == a.address && a'.storedName == name
    ensures IsNullOrEmpty(name) ==> Name(a') == a.address
  {
    a.(storedName := name)
  }

  /** A null or empty stored name reads back as the address. */
  lemma NameFallsBackToAddress(a: EMailAddress)
    requires IsNullOrEmpty(a.storedName)
    ensures Name(a) == a.address
  {
  }

  /** Setting a non-empty name and reading it back gives the same name. */
  lemma NameRoundTrip(a: EMailAddress, name: string)
    requires name != ""
    ensures Name(SetName(a, Some(name))) == name
  {
  }

  /** A `{name, value}` pair for template substitution. */
  datatype TemplateVariable = TemplateVariable(name: string, value: string)

  /** A `SendEmailRequest`. `attachments` is a nullable list. The last four
      fields are the ones the service reads but `SendEmailRequest.cs` does not
      declare: `UseTemplate`, `AlternateViews`, `Variables` and `Template`. */
  datatype SendEmailRequest = SendEmailRequest(
    fromAddress: Option<EMailAddress>,
    toAddresses: seq<EMailAddress>,
    ccAddresses: seq<EMailAddress>,
    bccAddresses: seq<EMailAddress>,
    subject: string,
    body: string,
    isHtml: bool,
    priority: int32,
    eMailStateId: string,
    attachments: Option<seq<string>>,
    useTemplate: bool,
    alternateViews: seq<Mail.AlternateView>,
    variables: seq<TemplateVariable>,
    template: string)

  /** `new SendEmailRequest()`. The values of the four undeclared fields are
      assumed: raw mode, no views, no variables, empty template. */
  function NewRequest(): SendEmailRequest
  {
    SendEmailRequest(
      fromAddress := None,
      toAddresses := [],
      ccAddresses := [],
      bccAddresses := [],
      subject := "",
      body := "",
      isHtml := true,
      priority := Ordinal(High),
      eMailStateId := "",
      attachments := None,
      useTemplate := false,
      alternateViews := [],
      variables := [],
      template := "")
  }

  /** A new request has no sender, no recipients of any kind, a null attachment
      list, High priority and HTML on. */
  lemma NewRequestDefaults()
    ensures NewRequest().fromAddress.None?
    ensures NewRequest().toAddresses == []
    ensures NewRequest().ccAddresses == []
    ensures NewRequest().bccAddresses == []
    ensures Member(NewRequest().priority) == Some(High)
    ensures NewRequest().isHtml
    ensures NewRequest().attachments.None?
  {
  }
}
