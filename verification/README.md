# UtilEmail message assembly, in Dafny

A model of the core of `RamsonDevelopers.UtilEmail`, a small .NET helper that
turns a `SendEmailRequest` and the server's `EmailConfig` into a
`System.Net.Mail.MailMessage`, configures an `SmtpClient` and logs the outcome the
client reports when the asynchronous send completes.

Modules (one per source file, plus the .NET pieces they lean on):

- `CSharp` (`csharp.dfy`): `int32`, nullable references as `Option`, the
  `?.` and `??` operators, `string.IsNullOrEmpty`.
- `Text` (`text.dfy`): ordinal `String.Replace(string, string)` as a
  left-to-right scan, with its length law and lemmas about the scan.
- `Mail` (`mail.dfy`): `MailAddress`, `MailPriority`, `Attachment`,
  `AlternateView`, header entries and the observable state of a `MailMessage`.
- `EmailConfiguration` (`email_config.dfy`): `EmailConfig` and its defaults.
- `EmailRequest` (`email_request.dfy`): `EMailPriority`, `EMailAddress` with
  its display-name fallback, and `SendEmailRequest` with its constructor defaults.
- `EmailService` (`email_service.dfy`): `GenerateEMail` and its steps, the
  transport settings chosen in `SendEMailAsync`, and `SendCompletedCallback`
  as a function from one completion notification to the log entries it writes.
- `ServiceProperties` (`service_properties.dfy`): lemmas that relate several
  calls, defaults and worked examples.

The message builder is a method that follows the source statement by
statement. Its contract is the ghost predicate `EmailService.Assembled`, which
gives every field of the message in terms of the configuration, the request and
the message id. The GUID is a parameter, because it is generated at random.

Modelling choices:

- Two fields are modelled as nullable although they are declared non-nullable.
  `EMailAddress._name` is declared `string` (SendEmailRequest.cs:42), but the
  getter tests it for null, so it is an `Option`. `SendEmailRequest.Attachments`
  is declared `List<string>` (SendEmailRequest.cs:26), but the constructor never
  assigns it, so it is null in a new request and is an `Option` too. `Address`
  and the configuration strings keep their non-null declarations.
- `EMailPriority` is stored as its underlying `int` value. A C# enum variable
  can hold values that name no member, and that is the case the `default:`
  branch of the priority switch handles.
- `SendEmailRequest.cs` does not declare `UseTemplate`, `AlternateViews`,
  `Variables` or `Template`, but `EmailService.cs` reads all four. The request
  datatype has them as the builder uses them. Their values in a new request are
  assumed (raw mode, no views, no variables, empty template).
- `SmtpSettings.targetName` is `None` while the client keeps its own default
  peer name.

Three behaviours of the code that are easy to misread:

- The completion handler's cancellation check and error check are two separate
  `if`s. A cancelled send without an error therefore logs a warning and then
  "Message sent." (`ServiceProperties.CancelledWithoutErrorLogsTwice`).
- Template mode does not read a template file and does not substitute anything
  into the message. The message body is `request.Body`. The variable loop searches
  for the single-brace placeholder `{name}`. Each variable appends a replaced copy
  of the template to `request.Template` (`Template += Template.Replace(..)`). The
  message never reads the result (`ServiceProperties.AssembledIgnoresTemplate`,
  `ServiceProperties.TemplateLoopDoubles`,
  `ServiceProperties.TemplateLoopDoubleBraceExample`). Appending can form an
  occurrence across the join that a later variable then replaces
  (`ServiceProperties.TemplateLoopSeamExample`). The loop runs in both modes,
  and for a template without `{` each variable doubles it
  (`ServiceProperties.TemplateLoopNoBraceLength`). The message does not read
  the template, but enough variables make the template outgrow a .NET string,
  and then no message is built at all (see "Left out").
- No linked resources are attached to the HTML view. In both modes the request's
  own alternate views are appended after the builder's.

## Model

| member | source | states |
|---|---|---|
| `Text.ReplaceFirstOccurrence` | EmailService.cs:170 | At the leftmost occurrence of the pattern, the text before it is kept, the occurrence becomes the replacement, and the rest of the string after it is replaced as a string of its own. Together with `ReplaceAbsent` this fixes the result for every input. |
| `Text.ReplaceFromFirstOccurrence` | EmailService.cs:170 | The same law for the scan resumed at any index: up to the first occurrence from there, the text is copied unchanged. |
| `Text.ReplaceFromSuffix` | EmailService.cs:170 | Resuming the scan at an index gives the same result as replacing the suffix from that index on its own. |
| `Text.OccursAtSlice` | EmailService.cs:170 | The character-by-character match the scan uses is exactly equality of the slice with the pattern. |
| `Text.ReplaceLength` | EmailService.cs:170 | The result's length is the input's length plus, for each occurrence the scan replaces, the difference in length between replacement and pattern. |
| `Text.ReplaceAbsent` | EmailService.cs:170 | Replacing a pattern that does not occur leaves the string unchanged. |
| `Text.ReplaceSelf` | EmailService.cs:170 | Replacing a pattern by itself leaves the string unchanged. |
| `Mail.Lookup` | EmailService.cs:81-84 | A header lookup finds a value exactly when an entry with that name exists, and the value it returns belongs to such an entry. |
| `Mail.LookupFindsFirst` | EmailService.cs:81-84 | When several entries share a name, the lookup returns the value of the first of them. |
| `EmailRequest.Member` | SendEmailRequest.cs:62-67 | An underlying value names a member exactly when some member has that ordinal. The member found has that ordinal. |
| `EmailRequest.ExactlyThreeMembers` | SendEmailRequest.cs:62-67 | `EMailPriority` has exactly three members, Low, Medium and High, with distinct values 0, 1 and 2. |
| `EmailRequest.NewAddress` | SendEmailRequest.cs:52-56 | The constructor keeps the address and the name exactly as given. A non-empty name is the name read back. A null or empty name reads back as the address. |
| `EmailRequest.Name` | SendEmailRequest.cs:44-46 | The display name is either the stored name or the address. It is non-empty whenever the address is non-empty. |
| `EmailRequest.SetName` | SendEmailRequest.cs:47 | The setter keeps the address. Setting null or empty makes the name read back as the address. |
| `EmailRequest.NameFallsBackToAddress` | SendEmailRequest.cs:46 | A null or empty stored name reads back as the address. |
| `EmailRequest.NameRoundTrip` | SendEmailRequest.cs:46-47 | Setting a non-empty name and getting it back returns that name unchanged. |
| `EmailRequest.NewRequestDefaults` | SendEmailRequest.cs:16-33 | A new request has no sender, empty To, Cc and Bcc lists, a null attachment list, High priority and HTML on. |
| `EmailService.MessageHeaders` | EmailService.cs:81-84 | The first entry is Message-ID with the generated id. Disposition-Notification-To is present exactly when ReplyToAddress is non-empty, and then carries it. There are two entries when ReplyToAddress is non-empty and one otherwise, and no other header is added. |
| `EmailService.ReplyTo` | EmailService.cs:88-89 | Reply-To is set exactly when ReplyToAddress is non-empty, and then to that address. |
| `EmailService.ResolveFrom` | EmailService.cs:91-93 | With a request sender, From is that sender's address and fallback-resolved name. Without one, From is the configured FromAddress and FromName. |
| `EmailService.MapPriority` | EmailService.cs:96-114 | Low maps to Low, Medium to Normal and High to High. A value naming no member maps to Normal. |
| `EmailService.AddAddresses` | EmailService.cs:116-133 | The recipient collection keeps its entries and gains one address per recipient, in order. Each added address carries the recipient's address and fallback-resolved name. |
| `EmailService.AddAttachments` | EmailService.cs:141-145 | The attachment collection keeps its entries and gains exactly one attachment per path, in order. |
| `EmailService.AddViews` | EmailService.cs:162-163 | The request's alternate views are appended, in order, after the existing ones. |
| `EmailService.Placeholder` | EmailService.cs:170 | The searched placeholder is the variable name in single braces. |
| `EmailService.TemplateLoop` | EmailService.cs:169-170 | The variable loop only ever extends the template: the original template is a prefix of the result. |
| `EmailService.RunTemplateLoop` | EmailService.cs:169-170 | The `foreach` over the variables, rewriting the template in place, computes `TemplateLoop`. |
| `EmailService.GenerateEMail` | EmailService.cs:79-173 | The message satisfies `Assembled`, which covers headers, Reply-To, From, priority, To/Cc/Bcc, subject, attachments (none for a null list), and body mode. Raw mode gives a leading text/html view of the body, the request's HTML flag and then the request's views. Template mode gives body = request body, HTML on and only the request's views. The request comes back changed only in its template. |
| `EmailService.ResolveTransport` | EmailService.cs:38-51 | Host, port and SSL are copied from the configuration. Default credentials are used exactly when UserName is empty. Otherwise explicit (UserName, Password) credentials are used. TargetName is overridden exactly when the configured one is non-empty. |
| `EmailService.SendEMail` | EmailService.cs:28-64 | The message is assembled as `Assembled` says. The send is refused, and nothing is submitted, exactly when the message has no To, Cc or Bcc recipient, the host is empty, or the port is negative or above 65535. Otherwise the submission is the assembled message with the transport settings of the configuration, tagged with the request's EMailStateID. |
| `ServiceProperties.SendRefusedIff` | EmailService.cs:38-59 | In terms of the inputs: a send is refused exactly when the request has no recipient in any of its three lists, the configured server is empty, or the configured port is negative or above 65535. |
| `ServiceProperties.NewRequestRefused` | EmailService.cs:38-59 | A new request sent with an unbound configuration is refused, because it has no recipient and no server. |
| `EmailService.SendCompleted` | EmailService.cs:181-190 | A warning is logged iff the send was cancelled, an error iff there is an error (with its detail), and an info entry iff there is none. Every entry is tagged with the user state. There are two entries when cancelled and one otherwise, and the warning comes first. |
| `ServiceProperties.AssembledDeterministic` | EmailService.cs:79-173 | Configuration, request and id determine the assembled message completely. |
| `ServiceProperties.AssembledIgnoresTemplate` | EmailService.cs:151-170 | The message does not depend on the request's template or variables. |
| `ServiceProperties.PriorityTable` | EmailService.cs:98-112 | In both directions, Low comes only from Low and High only from High. Every other value, Medium included, gives Normal. |
| `ServiceProperties.DefaultConfigTransport` | EmailConfig.cs:16-41 | An unbound configuration selects port 25, SSL on, default credentials and the client's own target name. |
| `ServiceProperties.DefaultConfigHeaders` | EmailConfig.cs:56 | An unbound configuration yields only the Message-ID header: no Disposition-Notification-To and no Reply-To. |
| `ServiceProperties.NewRequestMessage` | SendEmailRequest.cs:20-33 | A new request assembles into a message with no recipients and no attachments. It has High priority, HTML on, the empty body as its one HTML view, and the configured sender. |
| `ServiceProperties.NotifierExample` | EmailService.cs:91-154 | In a worked raw-mode example, From is "Notifier" with noreply@example.com. The recipient's name falls back to its address, the single view is the HTML body, and priority is High. |
| `ServiceProperties.TemplateLoopAppendsCopy` | EmailService.cs:169-170 | With one variable, the loop yields the template followed by its replaced copy. |
| `ServiceProperties.TemplateLoopSnoc` | EmailService.cs:169-170 | After any number of variables, one more variable appends the replaced copy of the template built so far, so the loop's state after each iteration is known. |
| `ServiceProperties.TemplateLoopSeamExample` | EmailService.cs:169-170 | Appending creates occurrences across the join: `"}{a"` with variable `a` = X twice becomes `"}{a}{a}X{a"`, because the second pass replaces the `{a}` the first pass formed at the seam. |
| `ServiceProperties.TemplateLoopNoBraceLength` | EmailService.cs:169-170 | For a template without `{`, the loop's result is the template's length times 2 to the number of variables. |
| `ServiceProperties.TemplateLoopDoubles` | EmailService.cs:169-170 | When the placeholder does not occur, one variable doubles the template. |
| `ServiceProperties.TemplateLoopDoubleBraceExample` | EmailService.cs:169-170 | `"Hi {{name}}"` with name = Sam becomes `"Hi {{name}}Hi {Sam}"`. |
| `ServiceProperties.CancelledWithoutErrorLogsTwice` | EmailService.cs:183-189 | A cancelled send without an error logs exactly a warning followed by "Message sent". |

## Left out

- SMTP delivery is network I/O and concurrency, so it is not modelled. That covers `SmtpClient.SendAsync`, `Task.Factory.StartNew`, `DeliveryMethod` and the 600000 ms timeout (EmailService.cs:53-60). A send is modelled as the `Submission` it hands over, or as refused when `SendAsync` or the `SmtpClient` constructor throws.
- The transport calls the completion handler exactly once per send that `SendAsync` accepts. That is the transport's promise, so it is not modelled. `SendCompleted` models one call.
- GUID generation (EmailService.cs:34) is random, so the id is a parameter.
- EmailService.SendEMail: the refusal checks are modelled on the configured host and port. The `SmtpClient` constructor trims the host, so a host of only white space is also refused, and it turns port 0 into 25. Neither is modelled. The exception a refusal raises is logged and rethrown (EmailService.cs:66-70), and the model returns `None` instead.
- EmailService.GenerateEMail: strings here have no length limit, but a .NET string holds at most about 2^30 characters. The template loop (EmailService.cs:169-170) can double the template once per variable (`TemplateLoopNoBraceLength`), so a one-character template overflows at about 30 variables and a 10 KB template at about 17. The source then throws `OutOfMemoryException` inside `GenerateEMail`, in raw mode too. The exception is logged and rethrown (EmailService.cs:66-70), no message is sent, and `request.Template` keeps the iterations already done. The model builds the message and the rewritten request for every input.
- EmailService.GenerateEMail: the subject is copied as given (`m.subject == req.subject` in `Assembled`). The `MailMessage.Subject` setter (EmailService.cs:138) is .NET library work and is not modelled. It throws `ArgumentException` for a subject containing CR or LF, and that exception is logged and rethrown (EmailService.cs:66-70). It also stores an RFC 2047 encoded-word subject decoded, so `"=?utf-8?B?SGk=?="` reads back as `"Hi"`.
- EmailService.ResolveTransport: host and port are the configured values the service passes to `new SmtpClient(server, port)` (EmailService.cs:38). The client's own handling of them is .NET library work and is not modelled in the settings. It uses port 25 for port 0 and trims the host. Its `ArgumentOutOfRangeException` for a negative port is modelled as a refusal in `SendEMail`.
- The debug log lines and the catch-log-rethrow (EmailService.cs:32, 62, 66-70) are logging-sink side effects and exception plumbing. The model has no exceptions.
- `MailAddress` parsing is .NET library work, so it is not modelled. The constructor throws for a malformed or empty address, and an address here is an opaque string.
- Attachment file access is .NET library work, so it is not modelled. `new Attachment(path)` (EmailService.cs:144) opens the file while the message is built. A missing file or an empty path therefore throws inside `GenerateEMail`, before any `SmtpClient` exists, and the exception is logged and rethrown (EmailService.cs:66-70). The model has no exceptions, and a file name here is an opaque string.
- `AlternateView` content encoding, `Encoding.UTF8` on subject and body, and `DeliveryNotificationOptions.OnSuccess` (EmailService.cs:86, 137, 149, 165-166) are .NET library settings with no branch in the service.
- `EmailConfig.SectionLabel` (EmailConfig.cs:11) is a process-wide configuration label, not runtime logic.
- `IEmailService.SendTemplateMessage` (IEmailService.cs:22) is declared in the interface, but `EmailService.cs` does not implement it, so there is nothing to model. `ServiceExtension.cs` is dependency-injection wiring.
- A configuration binder could set a configuration string to null. That is not modelled, because the strings are declared non-nullable.
- `Mail.Lookup` compares header names exactly and returns the first entry's value. `MailMessage.Headers` ignores case and returns every value stored under a name, joined by commas. Neither difference matters here, because the service adds each of its two fixed header names at most once.
- Template file resolution, `{{name}}` substitution into the body and a "template not found" error are not in this code.
- Strings are sequences of Unicode scalar values, not the UTF-16 code units of a .NET `string`. Lengths in the `Replace` length law are therefore not .NET's `Length` for text outside the Basic Multilingual Plane, and lone surrogates are not modelled.

No contract is deliberately weaker than the code. The lines above that start with a member name record where .NET itself would validate, transform or reject a value the model passes on.
