/** The string tests the request handlers apply: `String.prototype.trim() === ''`, the name
    pattern `^[a-zA-Z\s]+$` and the e-mail pattern
    `^[a-zA-Z0-9._%+-]+@[a-zA-Z0-9.-]+\.[a-zA-Z]{2,}$`. */
module Text {

  /** ECMAScript WhiteSpace and LineTerminator code points: what `trim` removes and `\s` matches. */
  predicate IsSpace(c: char)
  {
    || c == '\t' || c == '\n' || c == '\U{000B}' || c == '\U{000C}' || c == '\r' || c == ' '
    || c == '\U{00A0}' || c == '\U{1680}' || ('\U{2000}' <= c <= '\U{200A}')
    || c == '\U{2028}' || c == '\U{2029}' || c == '\U{202F}' || c == '\U{205F}'
    || c == '\U{3000}' || c == '\U{FEFF}'
  }

  predicate IsAsciiLetter(c: char)
  {
    ('a' <= c <= 'z') || ('A' <= c <= 'Z')
  }

  predicate IsAsciiDigit(c: char)
  {
    '0' <= c <= '9'
  }

  /** `s.trim() === ''`: nothing is left once leading and trailing white space is removed. */
  predicate IsBlank(s: string)
  {
    forall i | 0 <= i < |s| :: IsSpace(s[i])
  }

  /** `/^[a-zA-Z\s]+$/.test(s)` */
  predicate IsPersonName(s: string)
  {
    |s| > 0 && forall i | 0 <= i < |s| :: IsAsciiLetter(s[i]) || IsSpace(s[i])
  }

  /** The character class `[a-zA-Z0-9._%+-]` of the part before `@`. */
  predicate IsLocalChar(c: char)
  {
    IsAsciiLetter(c) || IsAsciiDigit(c) || c == '.' || c == '_' || c == '%' || c == '+' || c == '-'
  }

  /** The character class `[a-zA-Z0-9.-]` of the domain part. */
  predicate IsDomainChar(c: char)
  {
    IsAsciiLetter(c) || IsAsciiDigit(c) || c == '.' || c == '-'
  }

  /** One way the e-mail pattern can match: `s[..at]` is the local part, `s[at]` the `@`,
      `s[at+1..dot]` the domain, `s[dot]` the literal dot, `s[dot+1..]` the top-level label. */
  predicate EmailSplit(s: string, at: int, dot: int)
  {
    && 0 < at && at + 1 < dot && dot + 2 < |s|
    && (forall i | 0 <= i < at :: IsLocalChar(s[i]))
    && s[at] == '@'
    && (forall i | at < i < dot :: IsDomainChar(s[i]))
    && s[dot] == '.'
    && (forall i | dot < i < |s| :: IsAsciiLetter(s[i]))
  }

  /** `emailRegex.test(s)`: some split of `s` matches every part of the pattern. */
  predicate IsEmailAddress(s: string)
  {
    exists at: int, dot: int | 0 <= at < |s| && 0 <= dot < |s| :: EmailSplit(s, at, dot)
  }
}
