/** `truncateText` of the formatting helpers. JavaScript strings are
    sequences of UTF-16 code units: `length` counts units and `substring`
    cuts between units, so a character outside the Basic Multilingual Plane
    counts twice and a cut may fall between its two halves. */
module Format {
  import opened Http

  /** One UTF-16 code unit. */
  type CodeUnit = x: int | 0 <= x < 0x1_0000

  /** A JavaScript string value. */
  type JsString = seq<CodeUnit>

  const DEFAULT_MAX_LENGTH := 50
  /** "..." */
  const ELLIPSIS: JsString := [0x2E, 0x2E, 0x2E]

  /** A character outside the Basic Multilingual Plane. */
  predicate Astral(c: char) {
    c as int >= 0x1_0000
  }

  /** The code units of one character: itself, or a surrogate pair. */
  function EncodeChar(c: char): (u: JsString)
    ensures |u| == if Astral(c) then 2 else 1
    ensures Astral(c) ==> 0xD800 <= u[0] < 0xDC00 && 0xDC00 <= u[1] < 0xE000
    ensures !Astral(c) ==> u[0] == c as int
  {
    if Astral(c) then
      var v := c as int - 0x1_0000;
      [0xD800 + v / 0x400, 0xDC00 + v % 0x400]
    else
      [c as int]
  }

  /** The JavaScript string holding the text `s`. */
  function Utf16(s: string): (u: JsString)
    ensures |u| >= |s|
  {
    if s == [] then [] else EncodeChar(s[0]) + Utf16(s[1..])
  }

  /** Text within the Basic Multilingual Plane has one unit per character;
      text made only of astral characters has two. */
  lemma {:induction false} Utf16Length(s: string)
    ensures (forall i :: 0 <= i < |s| ==> !Astral(s[i])) ==> |Utf16(s)| == |s|
    ensures (forall i :: 0 <= i < |s| ==> Astral(s[i])) ==> |Utf16(s)| == 2 * |s|
  {
    if s != [] {
      Utf16Length(s[1..]);
      assert forall i :: 0 <= i < |s[1..]| ==> s[1..][i] == s[i + 1];
    }
  }

  /** `text.substring(0, n)`: a negative end counts as 0 and an end past the
      text as its length. */
  function Prefix(text: JsString, n: int): (p: JsString)
    ensures |p| == if n < 0 then 0 else if n > |text| then |text| else n
    ensures p <= text
  {
    if n < 0 then [] else if n > |text| then text else text[..n]
  }

  /** `truncateText(text, maxLength = 50)`. An absent text (`null`) is
      returned as is, and so is the empty text whatever the limit; an absent
      `maxLength` takes the default. Lengths are in code units. */
  function TruncateText(text: Option<JsString>, maxLength: Option<int>): (r: Option<JsString>)
    ensures text.None? ==> r.None?
    ensures text.Some? ==> r.Some?
    ensures text.Some? && (text.value == [] || |text.value| <= maxLength.GetOr(DEFAULT_MAX_LENGTH)) ==> r == text
    ensures text.Some? && text.value != [] && |text.value| > maxLength.GetOr(DEFAULT_MAX_LENGTH) ==>
      var n := maxLength.GetOr(DEFAULT_MAX_LENGTH);
      && |r.value| == (if n < 0 then 0 else n) + |ELLIPSIS|
      && r.value[..|r.value| - |ELLIPSIS|] <= text.value
      && r.value[|r.value| - |ELLIPSIS|..] == ELLIPSIS
  {
    var n := maxLength.GetOr(DEFAULT_MAX_LENGTH);
    match text
    case None => None
    case Some(s) =>
      if s == [] || |s| <= n then text
      else Some(Prefix(s, n) + ELLIPSIS)
  }

  /** Whatever the limit, the result starts with the first
      `min(length, maxLength)` code units of the text, and it is never
      longer than the text plus the ellipsis. */
  lemma TruncateKeepsPrefix(text: JsString, maxLength: Option<int>)
    ensures var r := TruncateText(Some(text), maxLength).value;
      var n := maxLength.GetOr(DEFAULT_MAX_LENGTH);
      && Prefix(text, n) <= r
      && |r| <= |text| + |ELLIPSIS|
  {
    var r := TruncateText(Some(text), maxLength).value;
    var n := maxLength.GetOr(DEFAULT_MAX_LENGTH);
    if text != [] && |text| > n {
      assert r == Prefix(text, n) + ELLIPSIS;
    }
  }

  /** With the default limit a longer text keeps its first 50 code units
      and gains the ellipsis, 53 units in all. */
  lemma DefaultTruncation(text: JsString)
    requires |text| > DEFAULT_MAX_LENGTH
    ensures TruncateText(Some(text), None) == Some(text[..DEFAULT_MAX_LENGTH] + ELLIPSIS)
    ensures |TruncateText(Some(text), None).value| == 53
  {
  }

  /** Thirty emoji are sixty code units, so the default limit cuts them to
      their first twenty-five plus the ellipsis although there are fewer than
      fifty characters. */
  lemma EmojiCountTwice()
    ensures var s := seq(30, _ => '\U{1F600}');
      && |Utf16(s)| == 60
      && TruncateText(Some(Utf16(s)), None) == Some(Utf16(s)[..50] + ELLIPSIS)
  {
    var s := seq(30, _ => '\U{1F600}');
    Utf16Length(s);
  }

  /** A limit that falls inside a surrogate pair keeps a lone high surrogate. */
  lemma CutSplitsPair()
    ensures TruncateText(Some(Utf16("\U{1F600}")), Some(1)) == Some([0xD83D] + ELLIPSIS)
  {
    var s := "\U{1F600}";
    assert s[0] == '\U{1F600}' && s[1..] == [];
    assert EncodeChar(s[0]) == [0xD83D, 0xDE00];
    assert Utf16(s) == [0xD83D, 0xDE00];
    assert Prefix(Utf16(s), 1) == [0xD83D];
  }
}
