/** Properties of the service that relate several calls, default values, and
    worked examples. */
module ServiceProperties {
  import opened CSharp
  import opened Text
  import opened Mail
  import opened EmailConfiguration
  import opened EmailRequest
  import opened EmailService

  // ---------------------------------------------------------------------------
  // The assembled message
  // ---------------------------------------------------------------------------

  /** The builder's output is fully determined by configuration, request and id. */
  lemma AssembledDeterministic(cfg: EmailConfig, req: SendEmailRequest, id: string, m1: MailMessage, m2: MailMessage)
    requires Assembled(cfg, req, id, m1)
    requires Assembled(cfg, req, id, m2)
    ensures m1 == m2
  {
  }

  /** The message does not depend on the request's template or variables. */
  lemma AssembledIgnoresTemplate(cfg: EmailConfig, req: SendEmailRequest, id: string, m: MailMessage,
                                 template: string, vars: seq<TemplateVariable>)
    requires Assembled(cfg, req, id, m)
    ensures Assembled(cfg, req.(template := template, variables := vars), id, m)
  {
  }

  /** The priority table, in both directions: Low and High map to themselves and
      every other value, Medium included, maps to Normal. */
  lemma PriorityTable(v: int32)
    ensures MapPriority(v) == MailPriority.Low <==> v == Ordinal(EMailPriority.Low)
    ensures MapPriority(v) == MailPriority.High <==> v == Ordinal(EMailPriority.High)
    ensures MapPriority(v) == MailPriority.Normal <==>
              v != Ordinal(EMailPriority.Low) && v != Ordinal(EMailPriority.High)
  {
  }

  // ---------------------------------------------------------------------------
  // Defaults
  // ---------------------------------------------------------------------------

  /** An unbound configuration talks to port 25 over SSL with the ambient
      credentials and the client's own target name. */
  lemma DefaultConfigTransport()
    ensures ResolveTransport(DefaultConfig()).port == 25
    ensures ResolveTransport(DefaultConfig()).enableSsl
    ensures ResolveTransport(DefaultConfig()).useDefaultCredentials
    ensures ResolveTransport(DefaultConfig()).credentials.None?
    ensures ResolveTransport(DefaultConfig()).targetName.None?
  {
  }

  /** An unbound configuration adds only the Message-ID header and no Reply-To. */
  lemma DefaultConfigHeaders(id: string)
    ensures MessageHeaders(DefaultConfig(), id) == [Header(MessageIdHeader, id)]
    ensures !HasHeader(MessageHeaders(DefaultConfig(), id), DispositionNotificationHeader)
    ensures ReplyTo(DefaultConfig()).None?
  {
  }

  /** A new request yields a message with no recipients and no attachments, High
      priority, and the empty body as its one HTML view. */
  lemma NewRequestMessage(cfg: EmailConfig, id: string, m: MailMessage)
    requires Assembled(cfg, NewRequest(), id, m)
    ensures m.to == [] && m.cc == [] && m.bcc == []
    ensures m.attachments == []
    ensures m.priority == MailPriority.High
    ensures m.isBodyHtml
    ensures m.alternateViews == [AlternateView("", HtmlMediaType)]
    ensures m.from == Some(MailAddress(cfg.fromAddress, cfg.fromName))
  {
  }

  /** A raw-mode request to one recipient without a display name, sent with a
      configured default sender. */
  lemma NotifierExample(id: string, m: MailMessage)
    requires
      var cfg := DefaultConfig().(server := "smtp.example.com", port := 587,
                                  fromAddress := "noreply@example.com", fromName := "Notifier");
      var req := NewRequest().(toAddresses := [NewAddress(None, "a@b.com")],
                               subject := "Hi", body := "<p>hello</p>");
      Assembled(cfg, req, id, m)
    ensures m.from == Some(MailAddress("noreply@example.com", "Notifier"))
    ensures m.to == [MailAddress("a@b.com", "a@b.com")]
    ensures m.alternateViews == [AlternateView("<p>hello</p>", HtmlMediaType)]
    ensures m.priority == MailPriority.High
  {
  }

  // ---------------------------------------------------------------------------
  // The template loop
  // ---------------------------------------------------------------------------

  /** With one variable the loop returns the template followed by its replaced copy. */
  lemma TemplateLoopAppendsCopy(template: string, v: TemplateVariable)
    ensures TemplateLoop(template, [v]) == template + Replace(template, Placeholder(v.name), v.value)
  {
  }

  /** After any number of variables, one more variable appends the replaced copy
      of the template the loop has built so far. */
  lemma {:induction false} TemplateLoopSnoc(template: string, vars: seq<TemplateVariable>, v: TemplateVariable)
    ensures TemplateLoop(template, vars + [v]) ==
              (var u := TemplateLoop(template, vars); u + Replace(u, Placeholder(v.name), v.value))
    decreases |vars|
  {
    if vars == [] {
      assert vars + [v] == [v];
    } else {
      assert (vars + [v])[1..] == vars[1..] + [v];
      TemplateLoopSnoc(template + Replace(template, Placeholder(vars[0].name), vars[0].value), vars[1..], v);
    }
  }

  /** Appending creates occurrences across the seam: `"}{a"` does not contain
      `{a}`, but doubling it does, so the second pass of the same variable
      replaces an occurrence the first pass could not see. */
  lemma TemplateLoopSeamExample(template: string, v: TemplateVariable)
    requires template == "}{a" && v == TemplateVariable("a", "X")
    ensures TemplateLoop(template, [v, v]) == "}{a}{a}X{a"
  {
    var pat := Placeholder(v.name);
    assert pat == "{a}";
    SeamFirstPass(template, pat);
    var doubled := template + Replace(template, pat, v.value);
    assert doubled == "}{a}{a";
    SeamSecondPass(doubled, pat);
    assert [v, v][1..] == [v];
    assert TemplateLoop(template, [v, v]) == TemplateLoop(doubled, [v]);
  }

  /** `"}{a".Replace("{a}", "X")` changes nothing. */
  lemma SeamFirstPass(s: string, pat: string)
    requires s == "}{a" && pat == "{a}"
    ensures Replace(s, pat, "X") == s
  {
    forall i
      ensures !OccursAt(s, pat, i)
    {
      OccursAtSlice(s, pat, i);
      if 0 <= i && i + |pat| <= |s| {
        assert s[i..i + 3][0] != pat[0];
      }
    }
    ReplaceAbsent(s, pat, "X");
  }

  /** `"}{a}{a".Replace("{a}", "X")` replaces the occurrence at the seam. */
  lemma SeamSecondPass(s: string, pat: string)
    requires s == "}{a}{a" && pat == "{a}"
    ensures Replace(s, pat, "X") == "}X{a"
  {
    OccursAtSlice(s, pat, 1);
    assert s[1..4] == pat;
    forall j | 0 <= j < 1
      ensures !OccursAt(s, pat, j)
    {
      OccursAtSlice(s, pat, j);
      assert s[j..j + 3][0] != pat[0];
    }
    ReplaceFirstOccurrence(s, pat, "X", 1);
    assert s[4..] == "{a";
    assert s[..1] == "}";
  }

  /** `2` to the power `n`. */
  function Pow2(n: nat): (p: nat)
    ensures p >= 1
  {
    if n == 0 then 1 else 2 * Pow2(n - 1)
  }

  /** A placeholder starts with `{`, so it never occurs in a text without one. */
  lemma NoBraceAbsent(t: string, pat: string)
    requires forall i :: 0 <= i < |t| ==> t[i] != '{'
    requires |pat| > 0 && pat[0] == '{'
    ensures !Occurs(t, pat)
  {
    forall i
      ensures !OccursAt(t, pat, i)
    {
      OccursAtSlice(t, pat, i);
      if 0 <= i && i + |pat| <= |t| {
        assert t[i..i + |pat|][0] == t[i];
      }
    }
  }

  /** For a template without `{`, every variable doubles the template, so its
      length grows as a power of two in the number of variables. */
  lemma {:induction false} TemplateLoopNoBraceLength(template: string, vars: seq<TemplateVariable>)
    requires forall i :: 0 <= i < |template| ==> template[i] != '{'
    ensures |TemplateLoop(template, vars)| == |template| * Pow2(|vars|)
    decreases |vars|
  {
    if vars != [] {
      var pat := Placeholder(vars[0].name);
      NoBraceAbsent(template, pat);
      ReplaceAbsent(template, pat, vars[0].value);
      NoBraceDoubled(template);
      TemplateLoopNoBraceLength(template + template, vars[1..]);
      DoubleTimesPow2(|template|, |vars|);
    }
  }

  /** Doubling a text without `{` gives a text without `{`. */
  lemma NoBraceDoubled(t: string)
    requires forall i :: 0 <= i < |t| ==> t[i] != '{'
    ensures forall i :: 0 <= i < |t + t| ==> (t + t)[i] != '{'
  {
    forall i | 0 <= i < |t + t|
      ensures (t + t)[i] != '{'
    {
      if i >= |t| {
        assert (t + t)[i] == t[i - |t|];
      }
    }
  }

  /** `(2 * a) * 2^(n - 1) == a * 2^n`. */
  lemma DoubleTimesPow2(a: nat, n: nat)
    requires n > 0
    ensures (2 * a) * Pow2(n - 1) == a * Pow2(n)
  {
    assert (2 * a) * Pow2(n - 1) == a * (2 * Pow2(n - 1));
  }

  /** When the placeholder does not occur, the loop doubles the template. */
  lemma TemplateLoopDoubles(template: string, v: TemplateVariable)
    requires !Occurs(template, Placeholder(v.name))
    ensures TemplateLoop(template, [v]) == template + template
  {
    ReplaceAbsent(template, Placeholder(v.name), v.value);
  }

  /** A double-brace placeholder is not consumed whole: its inner single-brace
      part is replaced, and the template itself is kept in front. */
  lemma TemplateLoopDoubleBraceExample(template: string, v: TemplateVariable)
    requires template == "Hi {{name}}" && v == TemplateVariable("name", "Sam")
    ensures TemplateLoop(template, [v]) == "Hi {{name}}Hi {Sam}"
  {
    TemplateLoopAppendsCopy(template, v);
    assert Placeholder(v.name) == "{name}";
    DoubleBraceReplaced(template, Placeholder(v.name));
  }

  /** `"Hi {{name}}".Replace("{name}", "Sam")`: the first occurrence starts at
      the second brace. */
  lemma DoubleBraceReplaced(s: string, pat: string)
    requires s == "Hi {{name}}" && pat == "{name}"
    ensures Replace(s, pat, "Sam") == "Hi {Sam}"
  {
    OccursAtSlice(s, pat, 4);
    assert s[4..10] == pat;
    forall j | 0 <= j < 4
      ensures !OccursAt(s, pat, j)
    {
      OccursAtSlice(s, pat, j);
      if j == 3 {
        assert s[j..j + 6][1] != pat[1];
      } else {
        assert s[j..j + 6][0] != pat[0];
      }
    }
    ReplaceFirstOccurrence(s, pat, "Sam", 4);
    assert s[10..] == "}";
    assert s[..4] == "Hi {";
  }

  // ---------------------------------------------------------------------------
  // Completion
  // ---------------------------------------------------------------------------

  /** A send is refused exactly when the request has no recipient at all, the
      configured server is empty, or the configured port is out of range. */
  lemma SendRefusedIff(cfg: EmailConfig, req: SendEmailRequest, id: string, m: MailMessage)
    requires Assembled(cfg, req, id, m)
    ensures Refused(m, ResolveTransport(cfg)) <==>
              || (req.toAddresses == [] && req.ccAddresses == [] && req.bccAddresses == [])
              || cfg.server == ""
              || cfg.port < 0
              || cfg.port > 65535
  {
  }

  /** A new request sent with an unbound configuration is refused: it has no
      recipient and no server. */
  lemma NewRequestRefused(id: string, m: MailMessage)
    requires Assembled(DefaultConfig(), NewRequest(), id, m)
    ensures Refused(m, ResolveTransport(DefaultConfig()))
  {
  }

  /** A cancelled send without an error logs a warning and then "Message sent". */
  lemma CancelledWithoutErrorLogsTwice(userState: string)
    ensures SendCompleted(true, None, userState) == [Warning(userState), Information(userState)]
  {
  }
}
