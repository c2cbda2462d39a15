/**
 * String handling of the chat client: JavaScript's `String.prototype.trim`, used
 * to guard and clean the submitted input (App.tsx:119, 124), and the derivation of
 * a session title from the first message (App.tsx:82).
 */
module Text {

  /**
   * The characters ECMAScript's `trim` removes: WhiteSpace (tab, vertical tab,
   * form feed, space, no-break space, byte order mark and the Unicode space
   * separators) and LineTerminator (line feed, carriage return, line and
   * paragraph separators).
   */
  predicate IsWhitespace(c: char)
  {
    || c == '\U{0009}' || c == '\U{000B}' || c == '\U{000C}' || c == '\U{0020}'
    || c == '\U{00A0}' || c == '\U{FEFF}' || c == '\U{1680}'
    || ('\U{2000}' <= c <= '\U{200A}')
    || c == '\U{202F}' || c == '\U{205F}' || c == '\U{3000}'
    || c == '\U{000A}' || c == '\U{000D}' || c == '\U{2028}' || c == '\U{2029}'
  }

  /** The number of whitespace characters at the start of `s`. */
  function LeadingSpace(s: string): (n: nat)
    ensures n <= |s|
    ensures forall k :: 0 <= k < n ==> IsWhitespace(s[k])
    ensures n < |s| ==> !IsWhitespace(s[n])
  {
    if s == [] || !IsWhitespace(s[0]) then 0 else 1 + LeadingSpace(s[1..])
  }

  /** The number of whitespace characters at the end of `s`. */
  function TrailingSpace(s: string): (n: nat)
    ensures n <= |s|
    ensures forall k :: |s| - n <= k < |s| ==> IsWhitespace(s[k])
    ensures n < |s| ==> !IsWhitespace(s[|s| - 1 - n])
  {
    if s == [] || !IsWhitespace(s[|s| - 1]) then 0 else 1 + TrailingSpace(s[..|s| - 1])
  }

  /**
   * `s.trim()`: `s` without its leading and trailing whitespace. The result is
   * the piece of `s` that starts after the leading whitespace, everything cut
   * off on either side is whitespace, and a non-empty result neither starts nor
   * ends with whitespace. It is empty exactly when `s` is all whitespace.
   */
  function Trim(s: string): (r: string)
    ensures LeadingSpace(s) + |r| <= |s|
    ensures r == s[LeadingSpace(s)..LeadingSpace(s) + |r|]
    ensures forall k :: LeadingSpace(s) + |r| <= k < |s| ==> IsWhitespace(s[k])
    ensures r != "" ==> !IsWhitespace(r[0]) && !IsWhitespace(r[|r| - 1])
    ensures r == "" <==> forall k :: 0 <= k < |s| ==> IsWhitespace(s[k])
  {
    var i := LeadingSpace(s);
    if i == |s| then "" else s[i..|s| - TrailingSpace(s)]
  }

  /** Trimming twice is trimming once. */
  lemma TrimIdempotent(s: string)
    ensures Trim(Trim(s)) == Trim(s)
  {
    var t := Trim(s);
    if t != "" {
      assert LeadingSpace(t) == 0;
      assert TrailingSpace(t) == 0;
    }
  }

  /** How many characters of the first message a title keeps. */
  const TitleLength: nat := 30

  /** The marker appended to a title that was cut short. */
  const Ellipsis: string := "..."

  /**
   * The title of a session whose first message has `content`: the first 30
   * characters of the content, followed by "..." exactly when the content was
   * longer than that. A title is at most 33 characters long, starts with as much
   * of the content as it keeps, and is the content itself when that fits.
   */
  function DeriveTitle(content: string): (title: string)
    ensures |title| <= TitleLength + |Ellipsis|
    ensures |content| <= TitleLength ==> title == content
    ensures |content| > TitleLength <==> |title| > TitleLength
    ensures |content| > TitleLength ==>
      |title| == TitleLength + |Ellipsis| && title[..TitleLength] == content[..TitleLength] && title[TitleLength..] == Ellipsis
    ensures title == "" <==> content == ""
  {
    var kept := if |content| <= TitleLength then content else content[..TitleLength];
    kept + (if |content| > TitleLength then Ellipsis else "")
  }

  /** A derived title is its own title: deriving again from it changes nothing. */
  lemma DeriveTitleIdempotent(content: string)
    ensures DeriveTitle(DeriveTitle(content)) == DeriveTitle(content)
  {
    var t := DeriveTitle(content);
    if |content| > TitleLength {
      assert t == t[..TitleLength] + t[TitleLength..];
    }
  }
}
