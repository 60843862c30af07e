/**
 * The sender of report emails: checks its inputs, attaches every report file,
 * configures the SMTP transport from the mail-server profile, sets recipients,
 * sender and subject from the email settings, sets the bodies and sends, and
 * turns every failure into an `IOException` whose message renders the whole
 * chain of causes.
 *
 * The pure functions below specify each step on message values; the methods
 * perform the same steps on a mutable `Email` and are proved to end in the
 * state, and with the outcome, that the functions give.
 */
module EmailSender {
  import opened JavaLang
  import opened Text
  import opened CommonsEmail

  // ----- Constants -------------------------------------------------------

  const NoEmailDataMessage: string := "Cannot send email, no email data provided."
  const NoMailServerMessage: string := "Cannot send email, no mail server configuration available"
  const NoAttachmentsMessage: string := "Cannot send email, no attachments specified."

  /** The separator users type between recipients. */
  const SCOLON: char := ';'
  /** What the separator is rewritten to; despite its name, a colon. */
  const COMMA: char := ':'

  const ReportDescription: string := "The generated report"
  const PlainTextBody: string := "Your email client does not support HTML messages"
  const AddressExceptionPrefix: string := "AddressException: "
  const SendFailurePrefix: string := "Sending the email caused an exception: "
  const AuthenticationFailedText: string := "Authentication with the provided SMTP username and password failed"

  // ----- Inputs and results ---------------------------------------------

  /** A report file: what `getAbsolutePath()` and `getName()` return for it. */
  datatype File = File(absolutePath: string, name: string)

  /** The mail-server profile (`MailserverConfig`); a port of -1 means "library default". */
  datatype MailserverConfig = MailserverConfig(
    serverAddress: string,
    serverPort: int,
    userId: Option<string>,
    password: Option<string>,
    bounce: Option<string>,
    debug: bool,
    sslEnabled: bool,
    subjectPrefix: Option<string>)

  /**
   * The email settings (`EmailConfig`): for each of to, cc and bcc the raw
   * setting (`getTo()`) and the address list it resolves to (`getToAsEmail()`).
   */
  datatype EmailConfig = EmailConfig(
    to: Option<string>,
    toAsEmail: string,
    cc: Option<string>,
    ccAsEmail: string,
    bcc: Option<string>,
    bccAsEmail: string,
    from: Option<string>,
    subject: Option<string>)

  /** The `IOException` the sender throws: its message and, if given, its cause. */
  datatype IOException = IOException(message: string, cause: Option<Throwable>)

  /** How a call of the sender ends: normally, or by throwing. */
  datatype Outcome = Sent | Failed(error: IOException)

  /** What one recipient setting (to, cc or bcc) contributes. */
  datatype FieldResult =
    | Skipped
    | Resolved(addresses: seq<InternetAddress>)
    | Unparsable(exception: Throwable)

  /** Why setting recipients, sender and subject stopped. */
  datatype ConfigError =
    | AddressFailure(exception: Throwable)   // the AddressException thrown by the parser
    | MissingRecipient(message: string)      // the IOException for "no recipient"

  /** Recipients, sender and subject after `setEmailConfig`, and the error that ended it early, if any. */
  datatype EnvelopeResult = EnvelopeResult(envelope: Envelope, error: Option<ConfigError>)

  /** The message as composed before `send`, and the error that ended composition early, if any. */
  datatype ComposeResult = ComposeResult(msg: Message, error: Option<ConfigError>)

  /**
   * A whole call: its outcome, and the message object as it was left (None
   * when the call stopped before creating one).
   */
  datatype Run = Run(outcome: Outcome, email: Option<Message>)

  // ----- Attachments ----------------------------------------------------

  /** The descriptor built for one report file. */
  function AttachmentFor(report: File): EmailAttachment {
    EmailAttachment(report.absolutePath, ATTACHMENT, ReportDescription, report.name)
  }

  /** The attachments for the report files: one per file, in the files' order. */
  function AttachmentsFor(files: seq<File>): (r: seq<EmailAttachment>)
    ensures |r| == |files|
    ensures forall i :: 0 <= i < |files| ==>
      r[i].path == files[i].absolutePath && r[i].disposition == ATTACHMENT &&
      r[i].description == ReportDescription && r[i].name == files[i].name
  {
    if files == [] then [] else [AttachmentFor(files[0])] + AttachmentsFor(files[1..])
  }

  /** Adding the descriptor of one more file extends the attachments by exactly that descriptor. */
  lemma AttachmentsForSnoc(files: seq<File>, report: File)
    ensures AttachmentsFor(files + [report]) == AttachmentsFor(files) + [AttachmentFor(report)]
  {
    var l, r := AttachmentsFor(files + [report]), AttachmentsFor(files) + [AttachmentFor(report)];
    assert |l| == |r|;
    forall i | 0 <= i < |l| ensures l[i] == r[i] {
      if i < |files| {
        assert (files + [report])[i] == files[i];
      }
    }
  }

  // ----- SMTP settings --------------------------------------------------

  /**
   * The transport settings after the mail-server profile is applied: the host
   * always, the port unless it is -1, the credentials only when both are
   * non-empty, the bounce address only when non-empty, debug and SSL always.
   */
  function ApplySmtp(t: Transport, config: MailserverConfig): (r: Transport)
    ensures r.hostName == Some(config.serverAddress)
    ensures r.smtpPort == if config.serverPort != -1 then Some(config.serverPort) else t.smtpPort
    ensures r.authentication ==
      if HasText(config.userId) && HasText(config.password)
      then Some(Authentication(config.userId.value, config.password.value))
      else t.authentication
    ensures r.bounceAddress == if HasText(config.bounce) then config.bounce else t.bounceAddress
    ensures r.debug == config.debug && r.sslOnConnect == config.sslEnabled
  {
    var withHost := t.(hostName := Some(config.serverAddress));
    var withPort :=
      if config.serverPort != -1 then withHost.(smtpPort := Some(config.serverPort)) else withHost;
    var withAuth :=
      if HasText(config.userId) && HasText(config.password)
      then withPort.(authentication := Some(Authentication(config.userId.value, config.password.value)))
      else withPort;
    var withBounce :=
      if HasText(config.bounce) then withAuth.(bounceAddress := Some(config.bounce.value)) else withAuth;
    withBounce.(debug := config.debug, sslOnConnect := config.sslEnabled)
  }

  /** `setSMTPConfig`: applies the mail-server profile to the message; nothing but its transport settings changes. */
  method SetSmtpConfig(email: Email, config: MailserverConfig)
    modifies email`transport
    ensures email.transport == ApplySmtp(old(email.transport), config)
  {
    var port := config.serverPort;
    email.SetHostName(config.serverAddress);
    if port != -1 {
      email.SetSmtpPort(port);
    }
    var smtpUser, smtpPassword := config.userId, config.password;
    if HasText(smtpUser) && HasText(smtpPassword) {
      email.SetAuthentication(smtpUser.value, smtpPassword.value);
    }
    var emailBounce := config.bounce;
    if HasText(emailBounce) {
      email.SetBounceAddress(emailBounce.value);
    }
    email.SetDebug(config.debug);
    email.SetSslOnConnect(config.sslEnabled);
  }

  // ----- Recipients, sender and subject ---------------------------------

  /**
   * The address list as handed to the parser: every semicolon rewritten to
   * COMMA. The length is kept and no semicolon is left.
   */
  function WithoutSemicolons(s: string): (r: string)
    ensures |r| == |s| && SCOLON !in r
  {
    ReplaceRemovesAll(s, SCOLON, COMMA);
    Replace(s, SCOLON, COMMA)
  }

  /**
   * The setting is used: the raw setting is neither null nor empty and the
   * list it resolves to is not empty (hence neither is the rewritten list).
   */
  predicate Qualifies(raw: Option<string>, asEmail: string) {
    HasText(raw) && |asEmail| > 0
  }

  /** The setting is used and the parser rejects it. */
  predicate ParseFails(raw: Option<string>, asEmail: string, parse: string -> ParseResult) {
    Qualifies(raw, asEmail) && parse(WithoutSemicolons(asEmail)).ParseFailed?
  }

  /** At least one of to, cc and bcc is set and resolves to a non-empty list. */
  predicate HasRecipientSetting(config: EmailConfig) {
    Qualifies(config.to, config.toAsEmail) || Qualifies(config.cc, config.ccAsEmail) ||
    Qualifies(config.bcc, config.bccAsEmail)
  }

  /**
   * The `AddressException` of the first of to, cc and bcc (in that order) that
   * is used and rejected by the parser; None when every used setting parses.
   */
  function FirstAddressError(config: EmailConfig, parse: string -> ParseResult): Option<Throwable> {
    if ParseFails(config.to, config.toAsEmail, parse) then
      Some(parse(WithoutSemicolons(config.toAsEmail)).exception)
    else if ParseFails(config.cc, config.ccAsEmail, parse) then
      Some(parse(WithoutSemicolons(config.ccAsEmail)).exception)
    else if ParseFails(config.bcc, config.bccAsEmail, parse) then
      Some(parse(WithoutSemicolons(config.bccAsEmail)).exception)
    else None
  }

  /**
   * One of to, cc and bcc: skipped unless the raw setting is non-empty and its
   * rewritten list is non-empty; otherwise whatever the parser makes of the
   * rewritten list.
   */
  function ResolveField(raw: Option<string>, asEmail: string, parse: string -> ParseResult): (r: FieldResult)
    ensures r.Skipped? <==> !Qualifies(raw, asEmail)
    ensures r.Resolved? ==> parse(WithoutSemicolons(asEmail)) == Parsed(r.addresses)
    ensures r.Unparsable? ==> parse(WithoutSemicolons(asEmail)) == ParseFailed(r.exception)
  {
    if HasText(raw) then
      var rewritten := WithoutSemicolons(asEmail);
      if |rewritten| > 0 then
        match parse(rewritten)
        case Parsed(addresses) => Resolved(addresses)
        case ParseFailed(e) => Unparsable(e)
      else Skipped
    else Skipped
  }

  const NoRecipientHead: string := "At least one receiver address required, could not send email: '"

  /** The message text of the "no recipient" `IOException`. */
  function NoRecipientMessage(subject: Option<string>, from: Option<string>): (r: string)
    ensures IsPrefix(NoRecipientHead + Str(subject), r)
    ensures IsSuffix(Str(from) + "'", r)
  {
    var head, tail := NoRecipientHead + Str(subject), Str(from) + "'";
    var m := head + "' from '" + tail;
    assert m[..|head|] == head;
    assert m[|m| - |tail|..] == tail;
    m
  }

  /** The "no recipient" message names the subject and the sender, null or not. */
  lemma NoRecipientMessageMentions(subject: Option<string>, from: Option<string>)
    ensures IsInfix(Str(subject), NoRecipientMessage(subject, from))
    ensures IsInfix(Str(from), NoRecipientMessage(subject, from))
  {
    var m := NoRecipientMessage(subject, from);
    InfixAfterPrefix(NoRecipientHead, Str(subject), m);
    InfixBeforeSuffix(Str(from), "'", m);
  }

  /** The subject: the prefix (nothing when null) followed by the configured subject. */
  function FullSubject(subjectPrefix: Option<string>, subject: Option<string>): (r: string)
    ensures subjectPrefix.Some? ==> IsPrefix(subjectPrefix.value, r)
    ensures subjectPrefix.None? ==> r == Str(subject)
    ensures IsSuffix(Str(subject), r)
    ensures |r| == (if subjectPrefix.Some? then |subjectPrefix.value| else 0) + |Str(subject)|
  {
    (if subjectPrefix.Some? then subjectPrefix.value else "") + Str(subject)
  }

  /**
   * Recipients, sender and subject after the email settings are applied. to, cc and bcc are
   * resolved in that order and the first parser failure stops the step; when
   * none of them is used the step stops with the "no recipient" error; only
   * then are the sender (when not null) and the subject set.
   */
  function ApplyEmailConfig(m: Envelope, config: EmailConfig, subjectPrefix: Option<string>,
                            parse: string -> ParseResult): (r: EnvelopeResult)
    ensures FirstAddressError(config, parse).Some? ==>
      r.error == Some(AddressFailure(FirstAddressError(config, parse).value))
    ensures FirstAddressError(config, parse).None? && !HasRecipientSetting(config) ==>
      r.error == Some(MissingRecipient(NoRecipientMessage(config.subject, config.from)))
    ensures r.error.None? <==> FirstAddressError(config, parse).None? && HasRecipientSetting(config)
    ensures r.error.Some? ==> r.envelope.from == m.from && r.envelope.subject == m.subject
    ensures r.error.None? ==>
      r.envelope.from == (if config.from.Some? then config.from else m.from) &&
      r.envelope.subject == Some(FullSubject(subjectPrefix, config.subject))
    ensures r.error.None? ==>
      (Qualifies(config.to, config.toAsEmail) ==> parse(WithoutSemicolons(config.toAsEmail)) == Parsed(r.envelope.to)) &&
      (Qualifies(config.cc, config.ccAsEmail) ==> parse(WithoutSemicolons(config.ccAsEmail)) == Parsed(r.envelope.cc)) &&
      (Qualifies(config.bcc, config.bccAsEmail) ==> parse(WithoutSemicolons(config.bccAsEmail)) == Parsed(r.envelope.bcc))
    ensures !Qualifies(config.to, config.toAsEmail) ==> r.envelope.to == m.to
    ensures !Qualifies(config.cc, config.ccAsEmail) ==> r.envelope.cc == m.cc
    ensures !Qualifies(config.bcc, config.bccAsEmail) ==> r.envelope.bcc == m.bcc
  {
    var toField := ResolveField(config.to, config.toAsEmail, parse);
    if toField.Unparsable? then EnvelopeResult(m, Some(AddressFailure(toField.exception)))
    else
      var m1 := if toField.Resolved? then m.(to := toField.addresses) else m;
      var ccField := ResolveField(config.cc, config.ccAsEmail, parse);
      if ccField.Unparsable? then EnvelopeResult(m1, Some(AddressFailure(ccField.exception)))
      else
        var m2 := if ccField.Resolved? then m1.(cc := ccField.addresses) else m1;
        var bccField := ResolveField(config.bcc, config.bccAsEmail, parse);
        if bccField.Unparsable? then EnvelopeResult(m2, Some(AddressFailure(bccField.exception)))
        else
          var m3 := if bccField.Resolved? then m2.(bcc := bccField.addresses) else m2;
          var hadAddress := !toField.Skipped? || !ccField.Skipped? || !bccField.Skipped?;
          if !hadAddress then
            EnvelopeResult(m3, Some(MissingRecipient(NoRecipientMessage(config.subject, config.from))))
          else
            var m4 := if config.from.Some? then m3.(from := config.from) else m3;
            EnvelopeResult(m4.(subject := Some(FullSubject(subjectPrefix, config.subject))), None)
  }

  /**
   * `setEmailConfig`: sets to, cc and bcc from the email settings, then the
   * sender and the subject; reports the parser's `AddressException` or the
   * missing-recipient `IOException` instead of throwing it.
   */
  method SetEmailConfig(email: Email, config: EmailConfig, subjectPrefix: Option<string>,
                        parse: string -> ParseResult) returns (error: Option<ConfigError>)
    modifies email`envelope
    ensures var r := ApplyEmailConfig(old(email.envelope), config, subjectPrefix, parse);
      error == r.error && email.envelope == r.envelope
  {
    var hadAddress := false;
    ghost var initial := email.envelope;
    ghost var toField := ResolveField(config.to, config.toAsEmail, parse);
    ghost var ccField := ResolveField(config.cc, config.ccAsEmail, parse);
    ghost var bccField := ResolveField(config.bcc, config.bccAsEmail, parse);

    if HasText(config.to) {
      var toWithoutScolons := WithoutSemicolons(config.toAsEmail);
      if |toWithoutScolons| > 0 {
        match parse(toWithoutScolons)
        case ParseFailed(e) =>
          assert toField == Unparsable(e);
          return Some(AddressFailure(e));
        case Parsed(addresses) =>
          assert toField == Resolved(addresses);
          email.SetTo(addresses);
          hadAddress := true;
      }
    }
    assert !toField.Unparsable? && hadAddress == !toField.Skipped?;
    ghost var afterTo := email.envelope;
    assert afterTo == if toField.Resolved? then initial.(to := toField.addresses) else initial;

    if HasText(config.cc) {
      var ccWithoutScolons := WithoutSemicolons(config.ccAsEmail);
      if |ccWithoutScolons| > 0 {
        match parse(ccWithoutScolons)
        case ParseFailed(e) =>
          assert ccField == Unparsable(e);
          return Some(AddressFailure(e));
        case Parsed(addresses) =>
          assert ccField == Resolved(addresses);
          email.SetCc(addresses);
          hadAddress := true;
      }
    }
    assert !ccField.Unparsable? && hadAddress == (!toField.Skipped? || !ccField.Skipped?);
    ghost var afterCc := email.envelope;
    assert afterCc == if ccField.Resolved? then afterTo.(cc := ccField.addresses) else afterTo;

    if HasText(config.bcc) {
      var bccWithoutScolons := WithoutSemicolons(config.bccAsEmail);
      if |bccWithoutScolons| > 0 {
        match parse(bccWithoutScolons)
        case ParseFailed(e) =>
          assert bccField == Unparsable(e);
          return Some(AddressFailure(e));
        case Parsed(addresses) =>
          assert bccField == Resolved(addresses);
          email.SetBcc(addresses);
          hadAddress := true;
      }
    }
    assert !bccField.Unparsable? && hadAddress == (!toField.Skipped? || !ccField.Skipped? || !bccField.Skipped?);
    assert email.envelope == if bccField.Resolved? then afterCc.(bcc := bccField.addresses) else afterCc;

    if !hadAddress {
      return Some(MissingRecipient(NoRecipientMessage(config.subject, config.from)));
    }

    if config.from.Some? {
      email.SetFrom(config.from.value);
    }
    email.SetSubject(FullSubject(subjectPrefix, config.subject));
    return None;
  }

  // ----- Exception text -------------------------------------------------

  /** The line for one exception, without its causes. */
  function Describe(e: Throwable): (line: string)
    ensures e.kind == AuthenticationFailed ==> line == AuthenticationFailedText
    ensures e.kind != AuthenticationFailed && e.message.Some? ==> line == e.rendered
    ensures e.kind != AuthenticationFailed && e.message.None? ==> line == e.simpleName
  {
    if e.kind == AuthenticationFailed then AuthenticationFailedText
    else if e.message.Some? then e.rendered
    else e.simpleName
  }

  /** `getExceptionText`: the exception's line, then the text of its cause on the next line. */
  function GetExceptionText(e: Throwable): (text: string)
    ensures IsPrefix(Describe(e), text)
    ensures e.cause.None? <==> text == Describe(e)
  {
    match e.cause
    case None => Describe(e)
    case Some(c) =>
      var t := Describe(e) + [NewLine] + GetExceptionText(c);
      assert t[..|Describe(e)|] == Describe(e);
      t
  }

  /** The exception and its causes, outermost first, each the cause of the one before. */
  function CauseChain(e: Throwable): (chain: seq<Throwable>)
    ensures |chain| >= 1 && chain[0] == e
    ensures forall k :: 0 <= k < |chain| - 1 ==> chain[k].cause == Some(chain[k + 1])
    ensures chain[|chain| - 1].cause == None
  {
    match e.cause
    case None => [e]
    case Some(c) => [e] + CauseChain(c)
  }

  /** The line of each exception in the cause chain, outermost first. */
  function CauseLines(e: Throwable): (lines: seq<string>)
    ensures |lines| == |CauseChain(e)|
    ensures forall k :: 0 <= k < |lines| ==> lines[k] == Describe(CauseChain(e)[k])
  {
    var chain := CauseChain(e);
    seq(|chain|, k requires 0 <= k < |chain| => Describe(chain[k]))
  }

  /** The exception text is the lines of the cause chain, outermost first, joined by newlines. */
  lemma {:induction false} ExceptionTextJoinsCauses(e: Throwable)
    ensures GetExceptionText(e) == JoinLines(CauseLines(e))
  {
    match e.cause
    case None =>
    case Some(c) =>
      ExceptionTextJoinsCauses(c);
      var lines := CauseLines(e);
      assert lines[1..] == CauseLines(c);
  }

  /** The exception text ends with the line of the innermost cause. */
  lemma ExceptionTextEndsWithRootCause(e: Throwable)
    ensures IsSuffix(Describe(CauseChain(e)[|CauseChain(e)| - 1]), GetExceptionText(e))
  {
    ExceptionTextJoinsCauses(e);
    JoinLinesEndsWithLast(CauseLines(e));
  }

  /**
   * When no line contains a newline itself, the exception text splits back
   * into exactly one line per exception of the cause chain, in order.
   */
  lemma ExceptionTextLines(e: Throwable)
    requires forall k :: 0 <= k < |CauseChain(e)| ==> NewLine !in Describe(CauseChain(e)[k])
    ensures SplitLines(GetExceptionText(e)) == CauseLines(e)
    ensures |SplitLines(GetExceptionText(e))| == |CauseChain(e)|
  {
    ExceptionTextJoinsCauses(e);
    SplitJoin(CauseLines(e));
  }

  /**
   * An authentication failure is described by the fixed friendly text,
   * whatever its own message, rendering and class name.
   */
  lemma AuthenticationFailureText(e: Throwable, message: Option<string>, rendered: string, simpleName: string)
    requires e.kind == AuthenticationFailed
    ensures IsPrefix(AuthenticationFailedText, GetExceptionText(e))
    ensures GetExceptionText(e.(message := message, rendered := rendered, simpleName := simpleName)) ==
            GetExceptionText(e)
  {
  }

  // ----- The whole send -------------------------------------------------

  /** The message as composed before `send`, from created object to bodies. */
  function Compose(files: seq<File>, server: MailserverConfig, config: EmailConfig, html: Option<string>,
                   workingDirUrl: string, parse: string -> ParseResult): (r: ComposeResult)
    ensures r.msg.content.dataSourceBase == Some(workingDirUrl)
    ensures r.msg.content.attachments == AttachmentsFor(files)
    ensures r.msg.transport == ApplySmtp(Blank.transport, server)
    ensures r.msg.envelope == ApplyEmailConfig(Blank.envelope, config, server.subjectPrefix, parse).envelope
    ensures r.error.None? && Qualifies(config.to, config.toAsEmail) ==>
      parse(WithoutSemicolons(config.toAsEmail)) == Parsed(r.msg.envelope.to)
    ensures r.error.None? && Qualifies(config.cc, config.ccAsEmail) ==>
      parse(WithoutSemicolons(config.ccAsEmail)) == Parsed(r.msg.envelope.cc)
    ensures r.error.None? && Qualifies(config.bcc, config.bccAsEmail) ==>
      parse(WithoutSemicolons(config.bccAsEmail)) == Parsed(r.msg.envelope.bcc)
    ensures !Qualifies(config.to, config.toAsEmail) ==> r.msg.envelope.to == []
    ensures !Qualifies(config.cc, config.ccAsEmail) ==> r.msg.envelope.cc == []
    ensures !Qualifies(config.bcc, config.bccAsEmail) ==> r.msg.envelope.bcc == []
    ensures r.error.None? <==> FirstAddressError(config, parse).None? && HasRecipientSetting(config)
    ensures r.error.Some? ==>
      r.msg.envelope.from.None? && r.msg.envelope.subject.None? &&
      r.msg.content.text.None? && r.msg.content.html.None?
    ensures r.error.None? ==>
      r.msg.envelope.from == config.from &&
      r.msg.envelope.subject == Some(FullSubject(server.subjectPrefix, config.subject)) &&
      r.msg.content.text == Some(PlainTextBody) &&
      r.msg.content.html == (if HasText(html) then html else Some(HtmlWrapped(PlainTextBody)))
    ensures !r.msg.sent
  {
    var created := Blank.(content := Blank.content.(dataSourceBase := Some(workingDirUrl)));
    var attached := created.(content := created.content.(attachments := AttachmentsFor(files)));
    var configured := attached.(transport := ApplySmtp(attached.transport, server));
    var addressed := ApplyEmailConfig(configured.envelope, config, server.subjectPrefix, parse);
    var composed := configured.(envelope := addressed.envelope);
    if addressed.error.Some? then ComposeResult(composed, addressed.error)
    else
      var withText := composed.content.(text := Some(PlainTextBody), html := Some(HtmlWrapped(PlainTextBody)));
      var bodies := if HasText(html) then withText.(html := html) else withText;
      ComposeResult(composed.(content := bodies), None)
  }

  /** The inputs are all present and there is at least one attachment. */
  predicate InputsPresent(files: Option<seq<File>>, server: Option<MailserverConfig>, config: Option<EmailConfig>) {
    server.Some? && config.Some? && files.Some? && |files.value| > 0
  }

  /**
   * The guarded part of `sendAttachmentEmail` on values: composition, then
   * `send`, tried only when composition succeeded. Parser failures are
   * wrapped with the "AddressException: " prefix and keep the exception as
   * cause; the missing-recipient error passes through unchanged; transport
   * failures are wrapped with the "Sending the email caused an exception: "
   * prefix.
   */
  function Delivery(files: seq<File>, server: MailserverConfig, config: EmailConfig, html: Option<string>,
                    workingDirUrl: string, parse: string -> ParseResult, transportError: Option<Throwable>): (r: Run)
    ensures r.email.Some?
    ensures r.email.value.(sent := false) == Compose(files, server, config, html, workingDirUrl, parse).msg
    ensures r.email.value.sent <==> r.outcome.Sent?
    ensures r.outcome.Sent? <==>
      transportError.None? && FirstAddressError(config, parse).None? && HasRecipientSetting(config)
    ensures FirstAddressError(config, parse).Some? ==>
      var e := FirstAddressError(config, parse).value;
      r.outcome == Failed(IOException(AddressExceptionPrefix + GetExceptionText(e), Some(e)))
    ensures FirstAddressError(config, parse).None? && !HasRecipientSetting(config) ==>
      r.outcome == Failed(IOException(NoRecipientMessage(config.subject, config.from), None))
    ensures FirstAddressError(config, parse).None? && HasRecipientSetting(config) && transportError.Some? ==>
      r.outcome == Failed(IOException(SendFailurePrefix + GetExceptionText(transportError.value), None))
  {
    var composed := Compose(files, server, config, html, workingDirUrl, parse);
    match composed.error
    case Some(AddressFailure(e)) =>
      Run(Failed(IOException(AddressExceptionPrefix + GetExceptionText(e), Some(e))), Some(composed.msg))
    case Some(MissingRecipient(text)) =>
      Run(Failed(IOException(text, None)), Some(composed.msg))
    case None =>
      match transportError
      case None => Run(Sent, Some(composed.msg.(sent := true)))
      case Some(e) =>
        Run(Failed(IOException(SendFailurePrefix + GetExceptionText(e), None)), Some(composed.msg))
  }

  /**
   * `sendAttachmentEmail` on values: the three input checks in order, each
   * failing before any message exists, then the delivery.
   */
  function SendAttachmentEmailSpec(files: Option<seq<File>>, server: Option<MailserverConfig>,
                                   config: Option<EmailConfig>, html: Option<string>, workingDirUrl: string,
                                   parse: string -> ParseResult, transportError: Option<Throwable>): (r: Run)
    ensures server.None? ==> r == Run(Failed(IOException(NoMailServerMessage, None)), None)
    ensures server.Some? && config.None? ==> r == Run(Failed(IOException(NoEmailDataMessage, None)), None)
    ensures server.Some? && config.Some? && (files.None? || |files.value| == 0) ==>
      r == Run(Failed(IOException(NoAttachmentsMessage, None)), None)
    ensures r.email.Some? <==> InputsPresent(files, server, config)
    ensures r.outcome.Sent? ==> InputsPresent(files, server, config) && transportError.None?
    ensures InputsPresent(files, server, config) ==>
      r == Delivery(files.value, server.value, config.value, html, workingDirUrl, parse, transportError)
  {
    if server.None? then Run(Failed(IOException(NoMailServerMessage, None)), None)
    else if config.None? then Run(Failed(IOException(NoEmailDataMessage, None)), None)
    else if files.None? || |files.value| == 0 then Run(Failed(IOException(NoAttachmentsMessage, None)), None)
    else Delivery(files.value, server.value, config.value, html, workingDirUrl, parse, transportError)
  }

  /** The loop of `sendAttachmentEmail` that attaches one descriptor per report file, in order. */
  method AttachReports(email: Email, files: seq<File>)
    modifies email`content
    ensures email.content == old(email.content).(attachments := old(email.content.attachments) + AttachmentsFor(files))
  {
    ghost var before := email.content;
    var i := 0;
    while i < |files|
      invariant 0 <= i <= |files|
      invariant email.content == before.(attachments := before.attachments + AttachmentsFor(files[..i]))
    {
      var report := files[i];
      ghost var done := AttachmentsFor(files[..i]);
      email.Attach(AttachmentFor(report));
      AttachmentsForSnoc(files[..i], report);
      assert files[..i + 1] == files[..i] + [report];
      assert before.attachments + done + [AttachmentFor(report)] ==
             before.attachments + (done + [AttachmentFor(report)]);
      i := i + 1;
    }
    assert files[..i] == files;
  }

  /**
   * The `try` block of `sendAttachmentEmail`: creates the message, attaches
   * the reports, applies both configurations, sets the bodies and sends,
   * translating the exceptions caught.
   */
  method Deliver(files: seq<File>, server: MailserverConfig, config: EmailConfig, html: Option<string>,
                 workingDirUrl: string, parse: string -> ParseResult, transportError: Option<Throwable>)
    returns (outcome: Outcome, email: Email)
    ensures fresh(email)
    ensures Run(outcome, Some(email.State())) ==
            Delivery(files, server, config, html, workingDirUrl, parse, transportError)
  {
    email := new Email();
    email.SetDataSourceResolver(workingDirUrl);

    AttachReports(email, files);

    SetSmtpConfig(email, server);
    assert email.State() == Message(ApplySmtp(Blank.transport, server), Blank.envelope,
                                    Content(Some(workingDirUrl), None, None, AttachmentsFor(files)), false);

    var configError := SetEmailConfig(email, config, server.subjectPrefix, parse);
    ghost var composed := Compose(files, server, config, html, workingDirUrl, parse);
    ghost var addressed := ApplyEmailConfig(Blank.envelope, config, server.subjectPrefix, parse);
    assert configError == addressed.error == composed.error;
    assert email.envelope == addressed.envelope == composed.msg.envelope;
    if configError.Some? {
      assert email.State() == composed.msg;
      match configError.value
      case AddressFailure(e) =>
        return Failed(IOException(AddressExceptionPrefix + GetExceptionText(e), Some(e))), email;
      case MissingRecipient(message) =>
        return Failed(IOException(message, None)), email;
    }

    email.SetMsg(PlainTextBody);
    if HasText(html) {
      email.SetHtmlMsg(html.value);
    }

    assert email.State() == composed.msg;
    var thrown := email.Send(transportError);
    if thrown.Some? {
      return Failed(IOException(SendFailurePrefix + GetExceptionText(thrown.value), None)), email;
    }
    return Sent, email;
  }

  /**
   * `sendAttachmentEmail`: sends one email with the report files as
   * attachments. The address parser and the transport's outcome are given as
   * parameters; the message object is returned so that its final state can be
   * stated (null when the input checks failed before it was created).
   */
  method SendAttachmentEmail(attachments: Option<seq<File>>, mailserverConfig: Option<MailserverConfig>,
                             emailConfig: Option<EmailConfig>, html: Option<string>, workingDirUrl: string,
                             parse: string -> ParseResult, transportError: Option<Throwable>)
    returns (outcome: Outcome, email: Email?)
    ensures var run := SendAttachmentEmailSpec(attachments, mailserverConfig, emailConfig, html, workingDirUrl,
                                               parse, transportError);
      outcome == run.outcome && (email == null <==> run.email.None?) &&
      (email != null ==> fresh(email) && email.State() == run.email.value)
  {
    if mailserverConfig.None? {
      return Failed(IOException(NoMailServerMessage, None)), null;
    }
    if emailConfig.None? {
      return Failed(IOException(NoEmailDataMessage, None)), null;
    }
    if attachments.None? || |attachments.value| == 0 {
      return Failed(IOException(NoAttachmentsMessage, None)), null;
    }
    outcome, email := Deliver(attachments.value, mailserverConfig.value, emailConfig.value, html, workingDirUrl,
                              parse, transportError);
  }

  /**
   * Two address lists separated by a semicolon reach the parser separated by
   * a colon, not a comma: "a@x.com;b@y.com" becomes "a@x.com:b@y.com".
   */
  lemma SemicolonBecomesColon(first: string, second: string)
    requires SCOLON !in first && SCOLON !in second
    ensures WithoutSemicolons(first + [SCOLON] + second) == first + [':'] + second
    ensures ',' !in WithoutSemicolons(first + [SCOLON] + second) <==> ',' !in first && ',' !in second
  {
    var s := first + [SCOLON] + second;
    var r := WithoutSemicolons(s);
    assert r == Replace(s, SCOLON, COMMA);
    forall i | 0 <= i < |s| ensures r[i] == (first + [':'] + second)[i] {
      if i < |first| {
        assert s[i] == first[i];
      } else if i > |first| {
        assert s[i] == second[i - |first| - 1];
      }
    }
  }
}
