/**
 * The few pieces of java.lang that the email sender relies on: references that
 * may be null, the text string concatenation produces for a null string,
 * `String.isEmpty`, `String.replace(char, char)`, and `Throwable` with its
 * finite chain of causes.
 */
module JavaLang {

  /** A Java reference that may be null. */
  datatype Option<+T> = None | Some(value: T)

  /** `s != null && !s.isEmpty()`, the presence guard used throughout the sender. */
  predicate HasText(s: Option<string>) {
    s.Some? && |s.value| > 0
  }

  /** The text Java's `+` on strings produces for a possibly null string. */
  function Str(s: Option<string>): string {
    match s
    case None => "null"
    case Some(v) => v
  }

  /**
   * `s.replace(oldChar, newChar)`: a new string of the same length in which
   * every occurrence of `oldChar` is `newChar` and every other character is kept.
   */
  function Replace(s: string, oldChar: char, newChar: char): (r: string)
    ensures |r| == |s|
    ensures forall i :: 0 <= i < |s| ==> r[i] == if s[i] == oldChar then newChar else s[i]
  {
    if s == [] then []
    else [if s[0] == oldChar then newChar else s[0]] + Replace(s[1..], oldChar, newChar)
  }

  /** After a replacement with a different character, no occurrence of the old one is left. */
  lemma ReplaceRemovesAll(s: string, oldChar: char, newChar: char)
    requires oldChar != newChar
    ensures oldChar !in Replace(s, oldChar, newChar)
  {
    var r := Replace(s, oldChar, newChar);
    forall i | 0 <= i < |r| ensures r[i] != oldChar {
    }
  }

  /** The kinds of exception the sender tells apart. */
  datatype ExceptionKind =
    | AuthenticationFailed  // javax.mail.AuthenticationFailedException
    | AddressError          // javax.mail.internet.AddressException
    | EmailError            // org.apache.commons.mail.EmailException
    | OtherError

  /**
   * A thrown exception. `rendered` is what its `toString()` returns and
   * `simpleName` what `getClass().getSimpleName()` returns; both depend on the
   * JVM and the exception class, so they are carried as given text.
   */
  datatype Throwable = Throwable(
    kind: ExceptionKind,
    message: Option<string>,
    rendered: string,
    simpleName: string,
    cause: Option<Throwable>)
}
