/**
 * Calendar dates and the two numeric renderings the script uses: the
 * article date "%-d/%-m/%y" and the output file stamp "%d_%m_%Y", each with
 * a reader that recovers the fields it shows.
 */
module Dates {
  import opened Wrappers
  import opened Decimal

  datatype Date = Date(day: nat, month: nat, year: nat)

  /** The range of Python's datetime.date (days per month are not checked). */
  predicate ValidDate(d: Date) {
    1 <= d.day <= 31 && 1 <= d.month <= 12 && 1 <= d.year <= 9999
  }

  type CalendarDate = d: Date | ValidDate(d) witness Date(1, 1, 1)

  /** strftime('%-d/%-m/%y'): day and month without padding, the year modulo 100 on two digits. */
  function ShortDate(d: CalendarDate): (r: string)
    ensures 6 <= |r| <= 8
    ensures r[|r| - 3] == '/' && AllDigits(r[|r| - 2..]) && Value(r[|r| - 2..]) == d.year % 100
  {
    assert Pow10(2) == 100;
    LengthBound(d.day, 2);
    LengthBound(d.month, 2);
    var yy := ZeroPad(d.year % 100, 2);
    var r := NatToString(d.day) + "/" + (NatToString(d.month) + "/" + yy);
    assert r[|r| - 2..] == yy;
    r
  }

  /** Position of the first `c` in `s`, or |s| when there is none. */
  function IndexOf(s: string, c: char): (i: nat)
    ensures i <= |s|
    ensures forall j :: 0 <= j < i ==> s[j] != c
    ensures i < |s| ==> s[i] == c
  {
    if s == [] then 0 else if s[0] == c then 0 else 1 + IndexOf(s[1..], c)
  }

  /**
   * Reads "D/M/YY": day and month as digit runs without a superfluous leading
   * zero, the year as exactly two digits; yields (day, month, two-digit year).
   */
  function ParseShortDate(s: string): Option<(nat, nat, nat)> {
    var i := IndexOf(s, '/');
    if i == |s| then None
    else
      var rest := s[i + 1..];
      var j := IndexOf(rest, '/');
      if j == |rest| then None
      else
        var yy := rest[j + 1..];
        match (ParseCanonical(s[..i]), ParseCanonical(rest[..j]))
        case (Some(day), Some(month)) =>
          if |yy| == 2 && AllDigits(yy) then Some((day, month, Value(yy))) else None
        case _ => None
  }

  /** In a digit run followed by a non-digit `c`, the first `c` sits right after the run. */
  lemma IndexAfterDigits(a: string, c: char, rest: string)
    requires AllDigits(a) && !IsDigit(c)
    ensures IndexOf(a + [c] + rest, c) == |a|
    ensures (a + [c] + rest)[..|a|] == a && (a + [c] + rest)[|a| + 1..] == rest
  {
    var s := a + [c] + rest;
    assert forall j :: 0 <= j < |a| ==> s[j] == a[j];
    assert s[|a|] == c;
  }

  /** Any two canonical digit runs and a two-digit year, joined by slashes, read back as their values. */
  lemma ParseJoined(a: string, b: string, c: string)
    requires ParseCanonical(a).Some? && ParseCanonical(b).Some? && |c| == 2 && AllDigits(c)
    ensures ParseShortDate(a + "/" + (b + "/" + c))
         == Some((ParseCanonical(a).value, ParseCanonical(b).value, Value(c)))
  {
    assert a + "/" + (b + "/" + c) == a + ['/'] + (b + ['/'] + c);
    IndexAfterDigits(a, '/', b + ['/'] + c);
    IndexAfterDigits(b, '/', c);
  }

  /** The article date renders day, month and two-digit year so that they read back unchanged. */
  lemma ShortDateRoundTrip(d: CalendarDate)
    ensures ParseShortDate(ShortDate(d)) == Some((d.day, d.month, d.year % 100))
  {
    var a, b, c := NatToString(d.day), NatToString(d.month), ZeroPad(d.year % 100, 2);
    NatToStringCanonical(d.day);
    NatToStringCanonical(d.month);
    assert |c| == 2 && AllDigits(c) && Value(c) == d.year % 100 by {
      assert Pow10(2) == 100;
    }
    ParseJoined(a, b, c);
  }

  /** 1 April 2023 renders as "1/4/23". */
  lemma ShortDateExample()
    ensures ShortDate(Date(1, 4, 2023)) == "1/4/23"
  {
    assert NatToString(23) == "23";
    assert ZeroPad(23, 2) == "23";
  }

  const PdfExtension: string := ".pdf"

  /** strftime('%d_%m_%Y') + '.pdf': the output file name for a given day. */
  function FileName(d: CalendarDate): (r: string)
    ensures |r| == 14 && r[2] == '_' && r[5] == '_' && r[10..] == PdfExtension
    ensures AllDigits(r[..2]) && Value(r[..2]) == d.day
    ensures AllDigits(r[3..5]) && Value(r[3..5]) == d.month
    ensures AllDigits(r[6..10]) && Value(r[6..10]) == d.year
  {
    assert Pow10(2) == 100 && Pow10(4) == 10000;
    var dd := ZeroPad(d.day, 2);
    var mm := ZeroPad(d.month, 2);
    var yyyy := ZeroPad(d.year, 4);
    var r := dd + "_" + (mm + "_" + (yyyy + PdfExtension));
    assert r[..2] == dd && r[3..5] == mm && r[6..10] == yyyy && r[10..] == PdfExtension;
    r
  }

  /** Reads "DD_MM_YYYY.pdf" back into the date it names, when it names one. */
  function ParseFileName(s: string): Option<CalendarDate> {
    if |s| == 14 && s[2] == '_' && s[5] == '_' && s[10..] == PdfExtension
       && AllDigits(s[..2]) && AllDigits(s[3..5]) && AllDigits(s[6..10])
    then
      var d := Date(Value(s[..2]), Value(s[3..5]), Value(s[6..10]));
      if ValidDate(d) then Some(d) else None
    else None
  }

  /** Two-, two- and four-digit fields joined by underscores before ".pdf" read back as the date they spell. */
  lemma ParseStamp(dd: string, mm: string, yyyy: string)
    requires |dd| == 2 && |mm| == 2 && |yyyy| == 4 && AllDigits(dd) && AllDigits(mm) && AllDigits(yyyy)
    requires ValidDate(Date(Value(dd), Value(mm), Value(yyyy)))
    ensures |dd + "_" + (mm + "_" + (yyyy + PdfExtension))| == 14
    ensures ParseFileName(dd + "_" + (mm + "_" + (yyyy + PdfExtension))) == Some(Date(Value(dd), Value(mm), Value(yyyy)))
  {
    var s := dd + "_" + (mm + "_" + (yyyy + PdfExtension));
    assert |s| == 14 && s[2] == '_' && s[5] == '_' && s[10..] == PdfExtension
        && s[..2] == dd && s[3..5] == mm && s[6..10] == yyyy by {
      var r1 := mm + "_" + (yyyy + PdfExtension);
      var r2 := yyyy + PdfExtension;
      assert s[3..] == r1;
      assert r1[3..] == r2;
      assert s[3..5] == r1[..2];
      assert s[6..10] == r2[..4];
      assert s[10..] == r2[4..];
    }
  }

  /** The file name has fixed-width fields and names exactly the day it was made for. */
  lemma FileNameRoundTrip(d: CalendarDate)
    ensures |FileName(d)| == 14
    ensures ParseFileName(FileName(d)) == Some(d)
  {
    assert Pow10(2) == 100 && Pow10(4) == 10000;
    ParseStamp(ZeroPad(d.day, 2), ZeroPad(d.month, 2), ZeroPad(d.year, 4));
  }
}
