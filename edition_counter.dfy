/**
 * The edition counter of the v1.0 script (the file edition.txt) and the
 * masthead line drawn at the top of every page.
 */
module EditionCounter {
  import opened Wrappers
  import opened Decimal

  /** The ASCII whitespace that Python's int() skips around a number. */
  predicate IsSpace(c: char) {
    c == ' ' || c == '\t' || c == '\n' || c == '\r' || c as int == 11 || c as int == 12
  }

  function StripLeft(s: string): string
    decreases |s|
  {
    if |s| > 0 && IsSpace(s[0]) then StripLeft(s[1..]) else s
  }

  function StripRight(s: string): string
    decreases |s|
  {
    if |s| > 0 && IsSpace(s[|s| - 1]) then StripRight(s[..|s| - 1]) else s
  }

  /** A non-empty run of digits; leading zeros are allowed, as int('007') == 7. */
  function ParseDigits(s: string): Option<nat> {
    if 1 <= |s| && AllDigits(s) then Some(Value(s)) else None
  }

  /** Python's int(text): surrounding whitespace, an optional sign, then decimal digits; None where int() raises. */
  function ParseInt(text: string): (r: Option<int>)
    ensures r.Some? ==> exists k :: 0 <= k < |text| && IsDigit(text[k])
  {
    var left := StripLeft(text);
    var t := StripRight(left);
    StripLeftSuffix(text);
    StripRightPrefix(left);
    assert |t| >= 1 ==> text[|text| - |left|] == t[0];
    assert |t| >= 2 ==> text[|text| - |left| + 1] == t[1];
    if |t| >= 1 && (t[0] == '-' || t[0] == '+') then
      match ParseDigits(t[1..])
      case Some(n) => Some(if t[0] == '-' then -(n as int) else n as int)
      case None => None
    else
      match ParseDigits(t)
      case Some(n) => Some(n)
      case None => None
  }

  /** Python's str(i): what int() reads back as i. */
  function IntToString(i: int): (r: string)
    ensures |r| > 0 && !IsSpace(r[0]) && !IsSpace(r[|r| - 1])
    ensures ParseInt(r) == Some(i)
  {
    var r := if i < 0 then "-" + NatToString(-i) else NatToString(i);
    assert !IsSpace(r[0]) && !IsSpace(r[|r| - 1]);
    assert i < 0 ==> r[1..] == NatToString(-i);
    r
  }

  /** Stripping leading whitespace leaves a suffix of the text. */
  lemma {:induction false} StripLeftSuffix(s: string)
    ensures |StripLeft(s)| <= |s| && StripLeft(s) == s[|s| - |StripLeft(s)|..]
    decreases |s|
  {
    if |s| > 0 && IsSpace(s[0]) {
      StripLeftSuffix(s[1..]);
    }
  }

  /** Stripping trailing whitespace leaves a prefix of the text. */
  lemma {:induction false} StripRightPrefix(s: string)
    ensures |StripRight(s)| <= |s| && StripRight(s) == s[..|StripRight(s)|]
    decreases |s|
  {
    if |s| > 0 && IsSpace(s[|s| - 1]) {
      StripRightPrefix(s[..|s| - 1]);
    }
  }

  /**
   * A hand-edited edition.txt usually ends with a newline; int() ignores it,
   * so the counter still reads the number that was written.
   */
  lemma TrailingNewlineIgnored(i: int)
    ensures ParseInt(IntToString(i) + "\n") == Some(i)
  {
    var r := IntToString(i);
    var s := r + "\n";
    assert StripLeft(s) == s by {
      assert s[0] == r[0];
    }
    assert StripRight(s) == r by {
      assert s[..|s| - 1] == r;
      assert StripRight(r) == r;
    }
    assert StripRight(StripLeft(r)) == r by {
      assert StripLeft(r) == r;
    }
  }

  /** The file edition.txt. */
  class EditionFile {
    var text: string

    constructor (text: string)
      ensures this.text == text
    {
      this.text := text;
    }

    /**
     * Opening lines of the v1.0 script: read the text as currentEdition and
     * write back str(int(currentEdition) + 1). When int() raises, the script
     * stops with the file untouched (None).
     */
    method Advance() returns (current: Option<string>)
      modifies this
      ensures ParseInt(old(text)).None? ==> current.None? && text == old(text)
      ensures ParseInt(old(text)).Some? ==>
        current == Some(old(text)) && text == IntToString(ParseInt(old(text)).value + 1)
      ensures current.Some? ==> ParseInt(text) == Some(ParseInt(old(text)).value + 1)
    {
      var currentEdition := text;
      var n := ParseInt(currentEdition);
      if n.None? {
        return None;
      }
      var nextEdition := n.value + 1;
      text := IntToString(nextEdition);
      current := Some(currentEdition);
    }
  }

  const Separator: string := "   |   "
  const Tagline: string := "Do not go gentle into that good night"

  /**
   * The centred masthead line: it opens with the long date, shows the edition
   * text right after the first separator and "Edition ", and closes with the
   * separator and the tagline.
   */
  function Masthead(longDate: string, edition: string): (r: string)
    ensures |r| == |longDate| + |edition| + 2 * |Separator| + |"Edition "| + |Tagline|
    ensures r[..|longDate|] == longDate
    ensures r[|longDate|..|longDate| + |Separator| + |"Edition "|] == Separator + "Edition "
    ensures var at := |longDate| + |Separator| + |"Edition "|; r[at..at + |edition|] == edition
    ensures r[|r| - |Separator| - |Tagline|..] == Separator + Tagline
  {
    longDate + (Separator + ("Edition " + (edition + (Separator + Tagline))))
  }

  /** On the same day, two mastheads are equal only when they show the same edition. */
  lemma MastheadShowsOneEdition(longDate: string, a: string, b: string)
    requires Masthead(longDate, a) == Masthead(longDate, b)
    ensures a == b
  {
    var at := |longDate| + |Separator| + |"Edition "|;
    assert |a| == |b|;
    assert a == Masthead(longDate, a)[at..at + |a|];
  }
}
