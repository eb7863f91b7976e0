/** The System.Net.Mail values the service builds, reduced to the data it sets on
    them. Address parsing, file reading and content encoding belong to .NET and are
    not modelled: addresses, file names and view contents are opaque strings. */
module Mail {
  import opened CSharp

  /** `new MailAddress(address, displayName, encoding)`: the arguments it was given. */
  datatype MailAddress = MailAddress(address: string, displayName: string)

  /** System.Net.Mail.MailPriority. */
  datatype MailPriority = Normal | Low | High

  /** `new Attachment(fileName)`. */
  datatype Attachment = Attachment(fileName: string)

  /** An alternate body representation: its content and media type. */
  datatype AlternateView = AlternateView(content: string, mediaType: string)

  /** One entry of `MailMessage.Headers`. */
  datatype Header = Header(name: string, value: string)

  /** The observable state of a `MailMessage`. `from` and `replyTo` are null until
      assigned; `headers` keeps insertion order. */
  datatype MailMessage = MailMessage(
    headers: seq<Header>,
    replyTo: Option<MailAddress>,
    from: Option<MailAddress>,
    priority: MailPriority,
    to: seq<MailAddress>,
    cc: seq<MailAddress>,
    bcc: seq<MailAddress>,
    subject: string,
    attachments: seq<Attachment>,
    isBodyHtml: bool,
    body: string,
    alternateViews: seq<AlternateView>)

  /** `new MailMessage()`: no headers, no addresses, normal priority, empty body. */
  function NewMailMessage(): MailMessage
  {
    MailMessage([], None, None, Normal, [], [], [], "", [], false, "", [])
  }

  /** The header collection holds an entry named `name`. */
  predicate HasHeader(hs: seq<Header>, name: string)
  {
    exists h :: h in hs && h.name == name
  }

  /** The value of the first entry named `name`, or null when there is none. */
  function Lookup(hs: seq<Header>, name: string): (v: Option<string>)
    ensures v.Some? <==> HasHeader(hs, name)
    ensures v.Some? ==> Header(name, v.value) in hs
  {
    if hs == [] then None
    else if hs[0].name == name then Some(hs[0].value)
    else
      assert forall h :: h in hs ==> h == hs[0] || h in hs[1..];
      Lookup(hs[1..], name)
  }

  /** The value found is the one of the first entry with the name. */
  lemma {:induction false} LookupFindsFirst(hs: seq<Header>, name: string, k: nat)
    requires k < |hs| && hs[k].name == name
    requires forall j :: 0 <= j < k ==> hs[j].name != name
    ensures Lookup(hs, name) == Some(hs[k].value)
    decreases k
  {
    if k > 0 {
      LookupFindsFirst(hs[1..], name, k - 1);
    }
  }
}
