/** The part of commons-lang's StringUtils the session uses: isBlank and isNotBlank. */
module StringUtils {
  import opened Wrappers

  /** Java's Character.isWhitespace: the Unicode space, line and paragraph separators
      except the three no-break spaces (U+00A0, U+2007, U+202F), and the controls
      U+0009 to U+000D and U+001C to U+001F. */
  predicate IsWhitespace(c: char)
    ensures c in " \t\n\r" ==> IsWhitespace(c)
    ensures IsWhitespace(c) ==> c !in "\U{A0}\U{2007}\U{202F}" && c <= '\U{3000}'
  {
    || ('\U{9}' <= c <= '\U{D}')
    || ('\U{1C}' <= c <= '\U{1F}')
    || c == ' '
    || c == '\U{1680}'
    || ('\U{2000}' <= c <= '\U{2006}')
    || ('\U{2008}' <= c <= '\U{200A}')
    || c == '\U{2028}'
    || c == '\U{2029}'
    || c == '\U{205F}'
    || c == '\U{3000}'
  }

  /** The loop inside isBlank: every character, read from the front, is whitespace. */
  function AllWhitespace(s: string): (b: bool)
    ensures b <==> forall i :: 0 <= i < |s| ==> IsWhitespace(s[i])
  {
    |s| == 0 || (IsWhitespace(s[0]) && AllWhitespace(s[1..]))
  }

  /** StringUtils.isBlank: the string is null, empty or whitespace only.
      isNotBlank is its negation and is written `!IsBlank(s)` throughout. */
  function IsBlank(s: Option<string>): (b: bool)
    ensures !b <==> s.Some? && exists i :: 0 <= i < |s.value| && !IsWhitespace(s.value[i])
  {
    match s
    case None => true
    case Some(t) => AllWhitespace(t)
  }
}
