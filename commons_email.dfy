/**
 * The outgoing message of Apache Commons Email (`ImageHtmlEmail`, a
 * `MultiPartEmail`) as far as the sender uses it: a mutable object whose
 * setters store what they are given, whose `attach` appends, and whose `send`
 * either succeeds or throws. What the library does inside a setter beyond
 * storing the value, and the MIME and SMTP work inside `send`, are not part of
 * this model.
 */
module CommonsEmail {
  import opened JavaLang

  /** One parsed recipient address. */
  datatype InternetAddress = InternetAddress(address: string)

  /**
   * What `InternetAddress.parse(s)` does with a list of addresses: returns
   * them, or throws an `AddressException`.
   */
  datatype ParseResult =
    | Parsed(addresses: seq<InternetAddress>)
    | ParseFailed(exception: Throwable)

  /** `EmailAttachment.ATTACHMENT`, the disposition of a part shown as an attachment. */
  const ATTACHMENT: string := "attachment"

  /** An `EmailAttachment` descriptor as handed to `attach`. */
  datatype EmailAttachment = EmailAttachment(
    path: string,
    disposition: string,
    description: string,
    name: string)

  /** What `HtmlEmail.setMsg` puts around a plain-text body to make its HTML part. */
  const HtmlMessageStart: string := "<html><body><pre>"
  const HtmlMessageEnd: string := "</pre></body></html>"

  /** The HTML part `setMsg` derives from a plain-text body. */
  function HtmlWrapped(body: string): (r: string)
    ensures |r| == |HtmlMessageStart| + |body| + |HtmlMessageEnd|
    ensures r[..|HtmlMessageStart|] == HtmlMessageStart
    ensures r[|HtmlMessageStart|..|HtmlMessageStart| + |body|] == body
    ensures r[|HtmlMessageStart| + |body|..] == HtmlMessageEnd
  {
    HtmlMessageStart + body + HtmlMessageEnd
  }

  /** The user name and password given to `setAuthentication`. */
  datatype Authentication = Authentication(userName: string, password: string)

  /** The transport settings of the message. */
  datatype Transport = Transport(
    hostName: Option<string>,
    smtpPort: Option<int>,
    authentication: Option<Authentication>,
    bounceAddress: Option<string>,
    debug: bool,
    sslOnConnect: bool)

  /** Recipients, sender and subject of the message. */
  datatype Envelope = Envelope(
    to: seq<InternetAddress>,
    cc: seq<InternetAddress>,
    bcc: seq<InternetAddress>,
    from: Option<string>,
    subject: Option<string>)

  /** The bodies and attachments, and the base for resolving embedded images. */
  datatype Content = Content(
    dataSourceBase: Option<string>,
    text: Option<string>,
    html: Option<string>,
    attachments: seq<EmailAttachment>)

  /** Everything the sender sets on the message, as one value. */
  datatype Message = Message(transport: Transport, envelope: Envelope, content: Content, sent: bool)

  /** A freshly constructed message: nothing set, nothing attached, not sent. */
  const Blank: Message :=
    Message(Transport(None, None, None, None, false, false), Envelope([], [], [], None, None),
            Content(None, None, None, []), false)

  /**
   * The message object. Its settings are kept in three groups, the transport
   * settings, the envelope and the content, each replaced as a whole value
   * when one of its parts is set.
   */
  class Email {
    var transport: Transport
    var envelope: Envelope
    var content: Content
    var sent: bool

    /** The message as it stands. */
    function State(): Message
      reads this
    {
      Message(transport, envelope, content, sent)
    }

    constructor ()
      ensures State() == Blank
    {
      transport, envelope, content, sent := Blank.transport, Blank.envelope, Blank.content, Blank.sent;
    }

    /** `setDataSourceResolver`: the base against which embedded images are resolved. */
    method SetDataSourceResolver(base: string)
      modifies this`content
      ensures content == old(content).(dataSourceBase := Some(base))
    {
      content := content.(dataSourceBase := Some(base));
    }

    method SetHostName(host: string)
      modifies this`transport
      ensures transport == old(transport).(hostName := Some(host))
    {
      transport := transport.(hostName := Some(host));
    }

    method SetSmtpPort(port: int)
      modifies this`transport
      ensures transport == old(transport).(smtpPort := Some(port))
    {
      transport := transport.(smtpPort := Some(port));
    }

    method SetAuthentication(userName: string, password: string)
      modifies this`transport
      ensures transport == old(transport).(authentication := Some(Authentication(userName, password)))
    {
      transport := transport.(authentication := Some(Authentication(userName, password)));
    }

    method SetBounceAddress(address: string)
      modifies this`transport
      ensures transport == old(transport).(bounceAddress := Some(address))
    {
      transport := transport.(bounceAddress := Some(address));
    }

    method SetDebug(on: bool)
      modifies this`transport
      ensures transport == old(transport).(debug := on)
    {
      transport := transport.(debug := on);
    }

    method SetSslOnConnect(on: bool)
      modifies this`transport
      ensures transport == old(transport).(sslOnConnect := on)
    {
      transport := transport.(sslOnConnect := on);
    }

    method SetTo(addresses: seq<InternetAddress>)
      modifies this`envelope
      ensures envelope == old(envelope).(to := addresses)
    {
      envelope := envelope.(to := addresses);
    }

    method SetCc(addresses: seq<InternetAddress>)
      modifies this`envelope
      ensures envelope == old(envelope).(cc := addresses)
    {
      envelope := envelope.(cc := addresses);
    }

    method SetBcc(addresses: seq<InternetAddress>)
      modifies this`envelope
      ensures envelope == old(envelope).(bcc := addresses)
    {
      envelope := envelope.(bcc := addresses);
    }

    method SetFrom(address: string)
      modifies this`envelope
      ensures envelope == old(envelope).(from := Some(address))
    {
      envelope := envelope.(from := Some(address));
    }

    method SetSubject(s: string)
      modifies this`envelope
      ensures envelope == old(envelope).(subject := Some(s))
    {
      envelope := envelope.(subject := Some(s));
    }

    /**
     * `setMsg` of an HTML email: the plain-text body, and an HTML part that
     * shows the same text preformatted.
     */
    method SetMsg(body: string)
      modifies this`content
      ensures content == old(content).(text := Some(body), html := Some(HtmlWrapped(body)))
    {
      content := content.(text := Some(body), html := Some(HtmlWrapped(body)));
    }

    /** `setHtmlMsg`: the HTML body. */
    method SetHtmlMsg(body: string)
      modifies this`content
      ensures content == old(content).(html := Some(body))
    {
      content := content.(html := Some(body));
    }

    /** `attach`: one more attachment after those already added. */
    method Attach(attachment: EmailAttachment)
      modifies this`content
      ensures content == old(content).(attachments := old(content.attachments) + [attachment])
    {
      content := content.(attachments := content.attachments + [attachment]);
    }

    /**
     * `send`: the transport either delivers the message or fails with the
     * given `EmailException`, which is then thrown.
     */
    method Send(transportError: Option<Throwable>) returns (thrown: Option<Throwable>)
      modifies this`sent
      ensures thrown == transportError
      ensures sent == transportError.None?
    {
      sent := transportError.None?;
      thrown := transportError;
    }
  }
}
