# EmailSender model

This project models `EmailSender`, the small class of the POI benchmark project that sends the generated reports as email attachments through Apache Commons Email. It covers the whole of `sendAttachmentEmail` and the three helpers it uses:

- **Input checks.** The mail-server configuration, the email configuration and a non-empty attachment list are checked in that order. Each failure is an `IOException` with its own message, raised before any message object exists.
- **Attachments.** One `EmailAttachment` descriptor is attached per report file, in order.
- **SMTP settings (`setSMTPConfig`).** The mail-server profile is mapped onto the message's transport settings.
- **Recipients, sender and subject (`setEmailConfig`).**
  - In the to, cc and bcc lists, every `;` is rewritten to the constant `COMMA`, and the result goes to the address parser.
  - At least one of the three settings must be used. If none is, an `IOException` is raised.
  - Only after that check are the sender and the subject (prefix + subject) set.
- **Bodies and send.** The fixed plain-text body is always set. In an HTML email, `setMsg` also sets an HTML part that shows that text preformatted. A non-empty HTML body given by the caller replaces that part. `send` comes last.
- **Exception text (`getExceptionText`).** An exception's cause chain is rendered as newline-separated lines, outermost first. An authentication failure always gets the fixed friendly text.

Files:

- `java_lang.dfy` (module `JavaLang`) holds the Java pieces the code relies on:
  - nullable references (`Option`);
  - the `!= null && !isEmpty()` guard (`HasText`);
  - how a null string prints in a concatenation (`Str`, which gives `"null"`);
  - `String.replace(char, char)` (`Replace`);
  - `Throwable` with its finite cause chain.
- `text.dfy` (module `Text`) holds joining and splitting of lines and substring search. These are used to state what the diagnostic texts contain.
- `commons_email.dfy` (module `CommonsEmail`) holds the Commons Email message as a class `Email`:
  - its state is three value records (transport settings, envelope, content) plus a `sent` flag;
  - its setters store what they are given, `attach` appends, and `send` either succeeds or throws the `EmailException` it is given;
  - `State()` returns the whole message as a `Message` value.
- `email_sender.dfy` (module `EmailSender`) holds the sender:
  - Pure functions specify each step on values: `AttachmentsFor`, `ApplySmtp`, `ApplyEmailConfig`, `Compose`, `Delivery` and `SendAttachmentEmailSpec`.
  - Methods perform the same steps on an `Email` object. Each method is proved to end in the state and with the outcome that its function gives: `AttachReports`, `SetSmtpConfig`, `SetEmailConfig`, `Deliver` and `SendAttachmentEmail`.

The model differs from the code's own comment in one place. The comment at line 136 says semicolons are replaced with commas, but the constant `COMMA` (line 34) is `':'`. The model follows the code: the parser receives `a@x.com:b@y.com` for `a@x.com;b@y.com` (`SemicolonBecomesColon`).

`setEmailConfig` counts a setting as a recipient when it was handed to the parser. It does not check whether the parser returned any addresses. The model does the same.

## Model

| member | source | states |
|---|---|---|
| `JavaLang.Replace` | src/jmh/java/org/apache/poi/benchmark/email/EmailSender.java:141 | `replace(SCOLON, COMMA)` keeps the length and maps each character on its own: the old character becomes the new one, every other character is kept |
| `JavaLang.ReplaceRemovesAll` | src/jmh/java/org/apache/poi/benchmark/email/EmailSender.java:141 | after replacing with a different character, none of the old character is left |
| `EmailSender.WithoutSemicolons` | src/jmh/java/org/apache/poi/benchmark/email/EmailSender.java:141-143 | the string handed to the parser has the length of the resolved list and contains no `;`, so the `length() > 0` guard holds exactly when the resolved list is non-empty |
| `EmailSender.SemicolonBecomesColon` | src/jmh/java/org/apache/poi/benchmark/email/EmailSender.java:33-34 | two lists joined by `;` reach the parser joined by `:`, and the rewrite adds no comma |
| `EmailSender.ResolveField` | src/jmh/java/org/apache/poi/benchmark/email/EmailSender.java:140-147 | a to/cc/bcc setting is skipped exactly when the raw setting is null or empty or its resolved list is empty; otherwise the result is the parser's addresses or its `AddressException` for the rewritten list |
| `EmailSender.AttachmentsFor` | src/jmh/java/org/apache/poi/benchmark/email/EmailSender.java:64-74 | one descriptor per file, in order, with the file's absolute path, disposition `attachment`, description "The generated report" and the file's name |
| `EmailSender.AttachReports` | src/jmh/java/org/apache/poi/benchmark/email/EmailSender.java:64-74 | the loop appends exactly `AttachmentsFor(files)` to the attachments and changes nothing but the content |
| `EmailSender.ApplySmtp` | src/jmh/java/org/apache/poi/benchmark/email/EmailSender.java:99-126 | host always set; port set iff it is not -1; authentication set iff user and password are both non-null and non-empty; bounce set iff non-null and non-empty; debug and SSL-on-connect copied; otherwise the old values stay |
| `EmailSender.SetSmtpConfig` | src/jmh/java/org/apache/poi/benchmark/email/EmailSender.java:99-126 | the message's transport settings become `ApplySmtp` of the old ones; its frame allows no other part of the message to change |
| `EmailSender.ApplyEmailConfig` | src/jmh/java/org/apache/poi/benchmark/email/EmailSender.java:133-180 | the first parse failure in to, cc, bcc order is the error; with none and no used setting, the error is the no-recipient message; it succeeds iff no parse fails and one setting is used; on error, from and subject are untouched; on success, used settings hold the parsed lists, unused ones keep their old value, from is set iff non-null, and subject = prefix (or "" when null) + subject (printed as `null` when null) |
| `EmailSender.SetEmailConfig` | src/jmh/java/org/apache/poi/benchmark/email/EmailSender.java:133-180 | the method, with its `hadAddress` flag and early returns, ends with the error and envelope that `ApplyEmailConfig` gives |
| `EmailSender.NoRecipientMessage` | src/jmh/java/org/apache/poi/benchmark/email/EmailSender.java:172 | the no-recipient message starts with its fixed head followed by the subject and ends with the sender followed by a closing quote, each printed as `null` when absent |
| `EmailSender.FullSubject` | src/jmh/java/org/apache/poi/benchmark/email/EmailSender.java:179 | the subject starts with the prefix when there is one, is just the configured subject otherwise, ends with the configured subject (`null` when absent), and is exactly as long as the two together |
| `EmailSender.NoRecipientMessageMentions` | src/jmh/java/org/apache/poi/benchmark/email/EmailSender.java:171-173 | the no-recipient message contains the subject and the sender, each printed as `null` when absent |
| `EmailSender.Describe` | src/jmh/java/org/apache/poi/benchmark/email/EmailSender.java:186-192 | the line for one exception: the fixed friendly text for an authentication failure, else its `toString()` when its message is non-null, else its simple class name |
| `EmailSender.GetExceptionText` | src/jmh/java/org/apache/poi/benchmark/email/EmailSender.java:182-200 | the text starts with the exception's own line, and is exactly that line iff the exception has no cause |
| `EmailSender.CauseChain` | src/jmh/java/org/apache/poi/benchmark/email/EmailSender.java:195-197 | the chain starts with the exception, each entry is the cause of the one before, and the last has no cause |
| `EmailSender.ExceptionTextJoinsCauses` | src/jmh/java/org/apache/poi/benchmark/email/EmailSender.java:182-200 | the exception text is the cause lines, outermost first, joined by `"\n"` |
| `EmailSender.ExceptionTextEndsWithRootCause` | src/jmh/java/org/apache/poi/benchmark/email/EmailSender.java:194-197 | the text ends with the line of the innermost cause |
| `EmailSender.ExceptionTextLines` | src/jmh/java/org/apache/poi/benchmark/email/EmailSender.java:194-197 | when no line contains a newline itself, splitting the text gives back exactly one line per exception of the chain, in order |
| `EmailSender.AuthenticationFailureText` | src/jmh/java/org/apache/poi/benchmark/email/EmailSender.java:186-187 | an authentication failure's text starts with the fixed friendly text and does not depend on its own message, `toString()` or class name |
| `EmailSender.Compose` | src/jmh/java/org/apache/poi/benchmark/email/EmailSender.java:60-88 | the composed message has the working-directory resolver base, `AttachmentsFor(files)`, the transport `ApplySmtp` gives, the recipients, sender and subject `ApplyEmailConfig` gives on a fresh message, and is not sent; each used to/cc/bcc setting holds the parser's list for it on success and each unused one is empty; it succeeds iff no parse fails and one setting is used; on success the text body is the fixed text and the HTML part is the given HTML iff it is non-null and non-empty, else the fixed text wrapped by `setMsg`; on failure no from, subject or body is set |
| `EmailSender.Delivery` | src/jmh/java/org/apache/poi/benchmark/email/EmailSender.java:60-93 | the message is `Compose`'s; it is sent iff the outcome is success iff composition succeeded and the transport did not fail; a parse failure becomes an `IOException` "AddressException: " + exception text with the exception as cause; the no-recipient error passes unchanged; a transport failure becomes "Sending the email caused an exception: " + exception text |
| `EmailSender.Deliver` | src/jmh/java/org/apache/poi/benchmark/email/EmailSender.java:60-93 | the try block creates a fresh message object and ends with the outcome and message state that `Delivery` gives |
| `EmailSender.SendAttachmentEmailSpec` | src/jmh/java/org/apache/poi/benchmark/email/EmailSender.java:46-93 | a null server configuration fails first, then a null email configuration, then a null or empty attachment list, each with its own message and no message object; a message exists iff all three checks pass, and then the run is exactly `Delivery` of the inputs; success needs the checks to pass and a transport without failure |
| `EmailSender.SendAttachmentEmail` | src/jmh/java/org/apache/poi/benchmark/email/EmailSender.java:46-94 | the method returns the outcome of `SendAttachmentEmailSpec`; it returns no message object iff the checks failed, otherwise a fresh one whose state is the specified message |

## Left out

- Transport and MIME: what `send()` does on the wire is not modelled. The transport's result is a parameter: success, or the `EmailException` that `send` throws.
- Address syntax: `InternetAddress.parse` is a parameter of type `string -> ParseResult`, so nothing is assumed about the address grammar.
- Library setter checks: Commons Email's setters may throw on their own, and the model's setters only store values. The missing cases are:
  - `setSmtpPort` rejects ports below 1;
  - `setFrom` parses the sender address;
  - `setBounceAddress` parses the bounce address;
  - `setTo`, `setCc` and `setBcc` reject an empty list;
  - `attach` may throw `EmailException`.
- Data-source resolver (line 62): `new File(".").toURI().toURL()` is given as the string `workingDirUrl`. A `MalformedURLException` it could raise is not modelled.
- Configuration accessors: `EmailConfig` and `MailserverConfig` come from a library that is not part of this model. Their accessors, including `getToAsEmail` and the other resolved lists, are given values.
- JVM text: `Throwable.toString()` and `getClass().getSimpleName()` depend on the JVM and on the exception class. They are given strings stored on each exception.
- Commented-out code: the commented-out logger and constants (lines 25, 28, 31) are dead code.
- `Email` object layout: Commons Email keeps one field per setting. The model groups them into three value records that each setter replaces. Aliasing between those fields cannot arise, so nothing is lost.
- Method structure: the attachment loop (`AttachReports`) and the `try` block (`Deliver`) are separate methods in the model. They are inline in `sendAttachmentEmail`, and the behaviour is unchanged.
