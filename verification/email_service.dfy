/** `EmailService`: assembling a `MailMessage` from the configuration and a
    request, configuring the SMTP transport, and classifying the completion
    notification the transport delivers once per send. */
module EmailService {
  import opened CSharp
  import opened Text
  import opened Mail
  import opened EmailConfiguration
  import opened EmailRequest

  const MessageIdHeader := "Message-ID"
  const DispositionNotificationHeader := "Disposition-Notification-To"
  const HtmlMediaType := "text/html"

  // ---------------------------------------------------------------------------
  // Message assembly
  // ---------------------------------------------------------------------------

  /** The headers added to a new message: the generated Message-ID always, and
      the read-receipt address when the configuration names a reply-to address. */
  function MessageHeaders(cfg: EmailConfig, id: string): (hs: seq<Header>)
    ensures |hs| == if cfg.replyToAddress != "" then 2 else 1
    ensures hs[0] == Header(MessageIdHeader, id)
    ensures Lookup(hs, MessageIdHeader) == Some(id)
    ensures HasHeader(hs, DispositionNotificationHeader) <==> cfg.replyToAddress != ""
    ensures HasHeader(hs, DispositionNotificationHeader) ==>
              Lookup(hs, DispositionNotificationHeader) == Some(cfg.replyToAddress)
    ensures forall h :: h in hs ==> h.name == MessageIdHeader || h.name == DispositionNotificationHeader
  {
    var hs := [Header(MessageIdHeader, id)];
    if cfg.replyToAddress != "" then hs + [Header(DispositionNotificationHeader, cfg.replyToAddress)]
    else hs
  }

  /** The Reply-To address: set exactly when the configuration names one. */
  function ReplyTo(cfg: EmailConfig): (r: Option<MailAddress>)
    ensures r.Some? <==> cfg.replyToAddress != ""
    ensures r.Some? ==> r.value.address == cfg.replyToAddress && r.value.displayName == ""
  {
    if cfg.replyToAddress != "" then Some(MailAddress(cfg.replyToAddress, "")) else None
  }

  /** The sender: the request's own sender when there is one, otherwise the
      configured default identity. */
  function ResolveFrom(cfg: EmailConfig, req: SendEmailRequest): (f: MailAddress)
    ensures req.fromAddress.Some? ==>
              f.address == req.fromAddress.value.address && f.displayName == Name(req.fromAddress.value)
    ensures req.fromAddress.None? ==> f.address == cfg.fromAddress && f.displayName == cfg.fromName
  {
    MailAddress(
      Coalesce(Select(req.fromAddress, (a: EMailAddress) => a.address), cfg.fromAddress),
      Coalesce(Select(req.fromAddress, Name), cfg.fromName))
  }

  /** The transport priority for a request priority; values outside the named
      members fall to the default branch. */
  function MapPriority(v: int32): (p: MailPriority)
    ensures v == Ordinal(EMailPriority.Low) ==> p == MailPriority.Low
    ensures v == Ordinal(EMailPriority.Medium) ==> p == MailPriority.Normal
    ensures v == Ordinal(EMailPriority.High) ==> p == MailPriority.High
    ensures Member(v).None? ==> p == MailPriority.Normal
  {
    match Member(v)
    case Some(named) => (
      match named
      case Low => MailPriority.Low
      case Medium => MailPriority.Normal
      case High => MailPriority.High)
    case None => MailPriority.Normal
  }

  /** The `MailAddress` built for one recipient: its address and its
      fallback-resolved display name. */
  function ToMailAddress(a: EMailAddress): MailAddress
  {
    MailAddress(a.address, Name(a))
  }

  /** `out` holds one `MailAddress` per entry of `src`, in the same order. */
  predicate CopiedAddresses(out: seq<MailAddress>, src: seq<EMailAddress>)
  {
    |out| == |src| && forall i :: 0 <= i < |src| ==> out[i] == ToMailAddress(src[i])
  }

  /** `out` holds one attachment per path when the list is non-null, and none
      when it is null. */
  predicate AttachedFiles(out: seq<Attachment>, paths: Option<seq<string>>)
  {
    match paths
    case None => out == []
    case Some(ps) => |out| == |ps| && forall i :: 0 <= i < |ps| ==> out[i] == Attachment(ps[i])
  }

  /** Everything the assembled message holds, field by field, in terms of the
      configuration, the request and the generated id. */
  ghost predicate Assembled(cfg: EmailConfig, req: SendEmailRequest, id: string, m: MailMessage)
  {
    && m.headers == MessageHeaders(cfg, id)
    && m.replyTo == ReplyTo(cfg)
    && m.from == Some(ResolveFrom(cfg, req))
    && m.priority == MapPriority(req.priority)
    && CopiedAddresses(m.to, req.toAddresses)
    && CopiedAddresses(m.cc, req.ccAddresses)
    && CopiedAddresses(m.bcc, req.bccAddresses)
    && m.subject == req.subject
    && AttachedFiles(m.attachments, req.attachments)
    && (if req.useTemplate then
          // template mode: the body itself, always HTML, only the request's views
          && m.body == req.body
          && m.isBodyHtml
          && m.alternateViews == req.alternateViews
        else
          // raw mode: the body as a leading text/html view, HTML flag from the request
          && m.body == ""
          && m.isBodyHtml == req.isHtml
          && m.alternateViews == [AlternateView(req.body, HtmlMediaType)] + req.alternateViews)
  }

  /** Appends one `MailAddress` per recipient to a message's address collection. */
  method AddAddresses(coll: seq<MailAddress>, addrs: seq<EMailAddress>) returns (r: seq<MailAddress>)
    ensures |coll| <= |r| && r[..|coll|] == coll
    ensures CopiedAddresses(r[|coll|..], addrs)
  {
    r := coll;
    var i := 0;
    while i < |addrs|
      invariant 0 <= i <= |addrs|
      invariant |r| == |coll| + i
      invariant r[..|coll|] == coll
      invariant forall j :: 0 <= j < i ==> r[|coll| + j] == ToMailAddress(addrs[j])
    {
      r := r + [ToMailAddress(addrs[i])];
      i := i + 1;
    }
  }

  /** Appends one attachment per file path to a message's attachment collection. */
  method AddAttachments(coll: seq<Attachment>, paths: seq<string>) returns (r: seq<Attachment>)
    ensures |coll| <= |r| && r[..|coll|] == coll
    ensures AttachedFiles(r[|coll|..], Some(paths))
  {
    r := coll;
    var i := 0;
    while i < |paths|
      invariant 0 <= i <= |paths|
      invariant |r| == |coll| + i
      invariant r[..|coll|] == coll
      invariant forall j :: 0 <= j < i ==> r[|coll| + j] == Attachment(paths[j])
    {
      r := r + [Attachment(paths[i])];
      i := i + 1;
    }
  }

  /** Appends the request's alternate views, in order, after the existing ones. */
  method AddViews(coll: seq<AlternateView>, views: seq<AlternateView>) returns (r: seq<AlternateView>)
    ensures r == coll + views
  {
    r := coll;
    var i := 0;
    while i < |views|
      invariant 0 <= i <= |views|
      invariant r == coll + views[..i]
    {
      r := r + [views[i]];
      i := i + 1;
    }
    assert views[..i] == views;
  }

  /** The placeholder searched for a variable: the interpolated string
      `$"{{{name}}}"` is `{name}`, with single braces. */
  function Placeholder(name: string): (p: string)
    ensures |p| == |name| + 2 && p[0] == '{' && p[|p| - 1] == '}'
    ensures p[1..|p| - 1] == name
  {
    "{" + name + "}"
  }

  /** The variable loop run on the request's template: each variable APPENDS a
      replaced copy of the current template to it (`Template += Template.Replace(..)`).
      The message never reads the result. */
  function TemplateLoop(template: string, vars: seq<TemplateVariable>): (t: string)
    ensures template <= t
    decreases |vars|
  {
    if vars == [] then template
    else TemplateLoop(template + Replace(template, Placeholder(vars[0].name), vars[0].value), vars[1..])
  }

  /** Builds the message for a request with the generated id `id`. The request
      comes back with its template rewritten by the variable loop; nothing else
      in it changes. */
  method GenerateEMail(cfg: EmailConfig, req: SendEmailRequest, id: string)
      returns (m: MailMessage, req': SendEmailRequest)
    ensures Assembled(cfg, req, id, m)
    ensures req' == req.(template := TemplateLoop(req.template, req.variables))
  {
    m := NewMailMessage();
    m := m.(headers := MessageHeaders(cfg, id));
    m := m.(replyTo := ReplyTo(cfg));
    m := m.(from := Some(ResolveFrom(cfg, req)));
    m := m.(priority := MapPriority(req.priority));

    var to := AddAddresses(m.to, req.toAddresses);
    m := m.(to := to);
    var cc := AddAddresses(m.cc, req.ccAddresses);
    m := m.(cc := cc);
    var bcc := AddAddresses(m.bcc, req.bccAddresses);
    m := m.(bcc := bcc);

    m := m.(subject := req.subject);

    if req.attachments.Some? {
      var attachments := AddAttachments(m.attachments, req.attachments.value);
      m := m.(attachments := attachments);
    }

    m := m.(isBodyHtml := req.isHtml);
    if !req.useTemplate {
      m := m.(alternateViews := m.alternateViews + [AlternateView(req.body, HtmlMediaType)]);
    } else {
      m := m.(body := req.body, isBodyHtml := true);
    }
    var views := AddViews(m.alternateViews, req.alternateViews);
    m := m.(alternateViews := views);

    var template := RunTemplateLoop(req.template, req.variables);
    req' := req.(template := template);
  }

  /** The `foreach` over the request's variables, rewriting the template in place. */
  method RunTemplateLoop(template: string, vars: seq<TemplateVariable>) returns (t: string)
    ensures t == TemplateLoop(template, vars)
  {
    t := template;
    var i := 0;
    while i < |vars|
      invariant 0 <= i <= |vars|
      invariant TemplateLoop(t, vars[i..]) == TemplateLoop(template, vars)
    {
      t := t + Replace(t, Placeholder(vars[i].name), vars[i].value);
      i := i + 1;
    }
  }

  // ---------------------------------------------------------------------------
  // Transport configuration
  // ---------------------------------------------------------------------------

  /** `new NetworkCredential(userName, password)`. */
  datatype NetworkCredential = NetworkCredential(userName: string, password: string)

  /** The settings the service passes to the `SmtpClient` a send uses, before
      the client's own validation of host and port. `targetName` is `None` while
      the client keeps its own default peer name. */
  datatype SmtpSettings = SmtpSettings(
    host: string,
    port: int32,
    enableSsl: bool,
    useDefaultCredentials: bool,
    credentials: Option<NetworkCredential>,
    targetName: Option<string>)

  /** `new SmtpClient(host, port)`: no SSL, no credentials, default target name. */
  function NewSmtpClient(host: string, port: int32): SmtpSettings
  {
    SmtpSettings(host, port, false, false, None, None)
  }

  /** The transport settings selected from the configuration. */
  function ResolveTransport(cfg: EmailConfig): (t: SmtpSettings)
    ensures t.host == cfg.server && t.port == cfg.port && t.enableSsl == cfg.useSsl
    ensures t.useDefaultCredentials <==> cfg.userName == ""
    ensures t.useDefaultCredentials ==> t.credentials.None?
    ensures !t.useDefaultCredentials ==>
              t.credentials == Some(NetworkCredential(cfg.userName, cfg.password))
    ensures t.targetName.Some? <==> cfg.targetName != ""
    ensures t.targetName.Some? ==> t.targetName.value == cfg.targetName
  {
    var client := NewSmtpClient(cfg.server, cfg.port).(enableSsl := cfg.useSsl);
    var client :=
      if cfg.userName == "" then client.(useDefaultCredentials := true)
      else client.(useDefaultCredentials := false,
                   credentials := Some(NetworkCredential(cfg.userName, cfg.password)));
    if cfg.targetName != "" then client.(targetName := Some(cfg.targetName)) else client
  }

  // ---------------------------------------------------------------------------
  // Submission and completion
  // ---------------------------------------------------------------------------

  /** What one send hands to the transport: the message, the client settings
      and the user state that tags the completion notification. */
  datatype Submission = Submission(message: MailMessage, transport: SmtpSettings, userState: string)

  /** The send is refused before anything reaches the transport: `SendAsync`
      throws for a message without a To, Cc or Bcc recipient, an empty host or
      a port above 65535, and `new SmtpClient(host, port)` already throws for a
      negative port. */
  predicate Refused(m: MailMessage, t: SmtpSettings)
  {
    || (m.to == [] && m.cc == [] && m.bcc == [])
    || t.host == ""
    || t.port < 0
    || t.port > 65535
  }

  /** The synchronous part of a send: build the message, configure the client
      and, unless the send is refused, submit the message tagged with the
      request's state id. `m` is the message built; the source returns it only
      when the submission is made, and throws otherwise. */
  method SendEMail(cfg: EmailConfig, req: SendEmailRequest, id: string)
      returns (m: MailMessage, sub: Option<Submission>, req': SendEmailRequest)
    ensures Assembled(cfg, req, id, m)
    ensures sub.None? <==> Refused(m, ResolveTransport(cfg))
    ensures sub.Some? ==> sub.value == Submission(m, ResolveTransport(cfg), req.eMailStateId)
    ensures req' == req.(template := TemplateLoop(req.template, req.variables))
  {
    m, req' := GenerateEMail(cfg, req, id);
    var transport := ResolveTransport(cfg);
    if Refused(m, transport) {
      sub := None;
    } else {
      sub := Some(Submission(m, transport, req.eMailStateId));
    }
  }

  /** One log entry written by the completion handler, tagged with the user state. */
  datatype LogEvent =
    | Warning(userState: string)
    | Error(userState: string, detail: string)
    | Information(userState: string)

  /** The log entries for one completion notification. The cancellation check
      and the error check are independent: a cancelled send without an error
      logs a warning and then "Message sent". */
  function SendCompleted(cancelled: bool, error: Option<string>, userState: string): (events: seq<LogEvent>)
    ensures (exists e :: e in events && e.Warning?) <==> cancelled
    ensures (exists e :: e in events && e.Error?) <==> error.Some?
    ensures (exists e :: e in events && e.Information?) <==> error.None?
    ensures error.Some? ==> Error(userState, error.value) in events
    ensures forall e :: e in events ==> e.userState == userState
    ensures |events| == if cancelled then 2 else 1
    ensures cancelled ==> events[0].Warning?
  {
    var warning := if cancelled then [Warning(userState)] else [];
    var outcome := if error.Some? then Error(userState, error.value) else Information(userState);
    var events := warning + [outcome];
    assert events[|events| - 1] == outcome && events[0] in events;
    events
  }
}
