/** The few string operations that the modelled code relies on. */
module Text {

  /** Unicode White_Space, as `char::is_whitespace` has it. */
  predicate IsWhitespace(c: char) {
    || '\U{9}' <= c <= '\U{D}' || c == ' ' || c == '\U{85}' || c == '\U{A0}' || c == '\U{1680}'
    || '\U{2000}' <= c <= '\U{200A}' || c == '\U{2028}' || c == '\U{2029}' || c == '\U{202F}'
    || c == '\U{205F}' || c == '\U{3000}'
  }

  /** `s.trim().is_empty()`. */
  predicate IsBlank(s: string) {
    forall c | c in s :: IsWhitespace(c)
  }

  function Join(parts: seq<string>, separator: string): string {
    if parts == [] then ""
    else if |parts| == 1 then parts[0]
    else parts[0] + separator + Join(parts[1..], separator)
  }

  /** The 25 code points that Unicode lists as White_Space. */
  lemma WhitespaceCodePoints(c: char)
    ensures IsWhitespace(c) <==> c in {
      '\U{0009}', '\U{000A}', '\U{000B}', '\U{000C}', '\U{000D}', '\U{0020}', '\U{0085}', '\U{00A0}', '\U{1680}',
      '\U{2000}', '\U{2001}', '\U{2002}', '\U{2003}', '\U{2004}', '\U{2005}', '\U{2006}', '\U{2007}', '\U{2008}',
      '\U{2009}', '\U{200A}', '\U{2028}', '\U{2029}', '\U{202F}', '\U{205F}', '\U{3000}'}
  {
  }

  /** Joining two lists puts one separator between their texts. */
  lemma {:induction false} JoinOfTwo(parts: seq<string>, more: seq<string>, separator: string)
    requires parts != [] && more != []
    ensures Join(parts + more, separator) == Join(parts, separator) + separator + Join(more, separator)
    ensures Join([parts[0]], separator) == parts[0]
  {
    if |parts| == 1 {
      assert (parts + more)[1..] == more;
    } else {
      JoinOfTwo(parts[1..], more, separator);
      assert (parts + more)[1..] == parts[1..] + more;
    }
  }
}
