/**
 * `is_resolution`: a string `WIDTHxHEIGHT` (either case of `x`) whose two
 * halves read as positive integers the way Python's `int()` reads them.
 */
module Resolution {
  import opened Wrappers
  import opened Text

  // ---- str.lower() and str.strip() ----

  function LowerChar(c: char): char {
    if 'A' <= c <= 'Z' then (c as int + 32) as char else c
  }

  /** `s.lower()` on ASCII letters; other characters are kept. */
  function Lower(s: string): string {
    seq(|s|, i requires 0 <= i < |s| => LowerChar(s[i]))
  }

  /**
   * The characters `int()` skips around a numeral: the C-locale blanks among
   * ASCII characters, and every non-ASCII character `str.isspace()` accepts.
   * The ASCII separators U+001C..U+001F, which `str.isspace()` accepts, are
   * not among them.
   */
  predicate IsSpace(c: char) {
    c == ' ' || '\t' <= c <= '\r' || c == '\U{85}' || c == '\U{a0}' ||
    c == '\U{1680}' || '\U{2000}' <= c <= '\U{200a}' || c == '\U{2028}' || c == '\U{2029}' ||
    c == '\U{202f}' || c == '\U{205f}' || c == '\U{3000}'
  }

  function StripLeft(s: string): string {
    if s != [] && IsSpace(s[0]) then StripLeft(s[1..]) else s
  }

  function StripRight(s: string): string {
    if s != [] && IsSpace(s[|s| - 1]) then StripRight(s[..|s| - 1]) else s
  }

  /** The blanks `int()` skips, removed from both ends. */
  function Strip(s: string): string {
    StripRight(StripLeft(s))
  }

  // ---- int() in base 10 ----

  /** Digits, with single underscores allowed between two digits. */
  predicate GroupedDigits(s: string) {
    |s| > 0 && IsDigit(s[0]) && IsDigit(s[|s| - 1]) &&
    (forall i :: 0 <= i < |s| ==> IsDigit(s[i]) || s[i] == '_') &&
    (forall i :: 0 <= i < |s| - 1 ==> !(s[i] == '_' && s[i + 1] == '_'))
  }

  function RemoveUnderscores(s: string): (r: string)
    requires forall i :: 0 <= i < |s| ==> IsDigit(s[i]) || s[i] == '_'
    ensures AllDigits(r)
  {
    if s == [] then []
    else if s[|s| - 1] == '_' then RemoveUnderscores(s[..|s| - 1])
    else RemoveUnderscores(s[..|s| - 1]) + [s[|s| - 1]]
  }

  /**
   * `int(s)`: surrounding blanks (`IsSpace`) are ignored, an optional sign, then
   * digit groups; `None` where Python raises `ValueError`.
   */
  function ParseInt(s: string): Option<int> {
    var t := Strip(s);
    var negative := |t| > 0 && t[0] == '-';
    var body := if |t| > 0 && (t[0] == '-' || t[0] == '+') then t[1..] else t;
    if !GroupedDigits(body) then None
    else
      var n: int := ValueOf(RemoveUnderscores(body));
      Some(if negative then -n else n)
  }

  /** `is_resolution(in_res)`: exactly one `x` after lower-casing, both halves positive integers. */
  predicate IsResolution(s: string) {
    var parts := Split(Lower(s), 'x');
    |parts| == 2 &&
    var w := ParseInt(parts[0]);
    var h := ParseInt(parts[1]);
    w.Some? && h.Some? && w.value > 0 && h.value > 0
  }

  // ---- properties ----

  /** Lower-casing leaves digit strings alone. */
  lemma LowerDigits(s: string)
    requires AllDigits(s)
    ensures Lower(s) == s
  {
  }

  lemma LowerAppend(a: string, b: string)
    ensures Lower(a + b) == Lower(a) + Lower(b)
  {
  }

  /** Stripping leaves a string alone that starts and ends with a non-space. */
  lemma StripNothing(s: string)
    requires s != [] && !IsSpace(s[0]) && !IsSpace(s[|s| - 1])
    ensures Strip(s) == s
  {
  }

  lemma {:induction false} NoUnderscores(s: string)
    requires AllDigits(s)
    ensures RemoveUnderscores(s) == s
  {
    if s != [] {
      NoUnderscores(s[..|s| - 1]);
    }
  }

  /** `int()` reads an unsigned digit string as its value. */
  lemma ParseDigits(s: string)
    requires |s| > 0 && AllDigits(s)
    ensures ParseInt(s) == Some(ValueOf(s))
  {
    assert IsDigit(s[0]) && IsDigit(s[|s| - 1]);
    StripNothing(s);
    NoUnderscores(s);
  }

  /** `int(str(n)) == n`, and `int("-" + str(n)) == -n`. */
  lemma ParseShowNat(n: nat)
    ensures ParseInt(ShowNat(n)) == Some(n)
    ensures ParseInt("-" + ShowNat(n)) == Some(-(n as int))
  {
    var s := ShowNat(n);
    ShowNatValue(n);
    ParseDigits(s);
    var m := "-" + s;
    assert IsDigit(s[|s| - 1]);
    assert m[|m| - 1] == s[|s| - 1];
    StripNothing(m);
    assert m[1..] == s;
    NoUnderscores(s);
  }

  /** Two `x`-free halves around one `x` split back into those halves. */
  lemma SplitAtX(a: string, b: string)
    requires 'x' !in a && 'x' !in b
    ensures Split(a + "x" + b, 'x') == [a, b]
  {
    SplitPiece(a, b, 'x');
    SplitPiece(b, "", 'x');
  }

  /** A string is accepted once its lower-cased halves are known to read as positive numbers. */
  lemma Accept(s: string, a: string, b: string, w: int, h: int)
    requires Split(Lower(s), 'x') == [a, b]
    requires ParseInt(a) == Some(w) && ParseInt(b) == Some(h) && w > 0 && h > 0
    ensures IsResolution(s)
  {
  }

  /** A digit string has no `x` and is its own lower-case form. */
  lemma DigitsPlain(a: string)
    requires AllDigits(a)
    ensures 'x' !in a && Lower(a) == a
  {
    assert !IsDigit('x');
    LowerDigits(a);
  }

  /** Two digit strings of positive value around an `x` make a resolution, leading zeros or not. */
  lemma DigitsAccepted(a: string, b: string)
    requires |a| > 0 && AllDigits(a) && ValueOf(a) > 0
    requires |b| > 0 && AllDigits(b) && ValueOf(b) > 0
    ensures IsResolution(a + "x" + b)
  {
    var s := a + "x" + b;
    DigitsPlain(a);
    DigitsPlain(b);
    assert Lower(s) == s by {
      LowerAppend(a + "x", b);
      LowerAppend(a, "x");
    }
    SplitAtX(a, b);
    ParseDigits(a);
    ParseDigits(b);
    Accept(s, a, b, ValueOf(a), ValueOf(b));
  }

  /** Every pair of positive sizes, written `WxH`, is a resolution. */
  lemma ResolutionRoundTrip(w: nat, h: nat)
    requires w > 0 && h > 0
    ensures IsResolution(ShowNat(w) + "x" + ShowNat(h))
  {
    ShowNatValue(w);
    ShowNatValue(h);
    DigitsAccepted(ShowNat(w), ShowNat(h));
  }

  /** An accepted string has exactly one `x` or `X`. */
  lemma ResolutionOneSeparator(s: string)
    requires IsResolution(s)
    ensures Count(Lower(s), 'x') == 1
  {
    SplitCount(Lower(s), 'x');
  }

  /** An accepted string is its two halves around the separator, both read as positive numbers. */
  lemma ResolutionHalves(s: string)
    requires IsResolution(s)
    ensures var parts := Split(Lower(s), 'x');
      Lower(s) == parts[0] + "x" + parts[1] &&
      ParseInt(parts[0]).Some? && ParseInt(parts[0]).value > 0 &&
      ParseInt(parts[1]).Some? && ParseInt(parts[1]).value > 0
  {
    var parts := Split(Lower(s), 'x');
    SplitJoin(Lower(s), 'x');
    assert Join(parts[1..], 'x') == parts[1];
  }

  /** A first half that reads as zero or less rejects the string. */
  lemma RejectFirst(s: string, a: string, b: string, w: int)
    requires Split(Lower(s), 'x') == [a, b] && ParseInt(a) == Some(w) && w <= 0
    ensures !IsResolution(s)
  {
  }

  // The cases the project's tests list, one lemma each.

  lemma Accepts123x234()
    ensures IsResolution("123x234")
  {
    assert AllDigits("123") && AllDigits("234");
    assert ValueOf("123") == 123 by {
      assert "123"[..2] == "12" && "12"[..1] == "1" && "1"[..0] == "";
    }
    assert ValueOf("234") == 234 by {
      assert "234"[..2] == "23" && "23"[..1] == "2" && "2"[..0] == "";
    }
    DigitsAccepted("123", "234");
    assert "123" + "x" + "234" == "123x234";
  }

  lemma RejectsNoSeparator()
    ensures !IsResolution("") && !IsResolution("1") && !IsResolution("foo")
  {
    assert Lower("") == "";
    assert Lower("1") == "1";
    SplitPiece("1", "", 'x');
    assert Lower("foo") == "foo";
    SplitPiece("foo", "", 'x');
  }

  lemma RejectsZero()
    ensures !IsResolution("0x1")
  {
    assert Lower("0x1") == "0x1";
    SplitAtX("0", "1");
    assert "0" + "x" + "1" == "0x1";
    ParseDigits("0");
    RejectFirst("0x1", "0", "1", 0);
  }

  lemma RejectsTwoSeparators()
    ensures !IsResolution("1x1x1")
  {
    assert Lower("1x1x1") == "1x1x1";
    SplitCount("1x1x1", 'x');
  }

  lemma RejectsNegative()
    ensures !IsResolution("-1x19")
  {
    assert Lower("-1x19") == "-1x19";
    SplitAtX("-1", "19");
    assert "-1" + "x" + "19" == "-1x19";
    ParseShowNat(1);
    assert ShowNat(1) == "1";
    assert "-" + "1" == "-1";
    RejectFirst("-1x19", "-1", "19", -1);
  }

  /** `int()` does not skip the ASCII separator U+001C, so a half framed by it does not read as a number. */
  lemma RejectsSeparatorBlank()
    ensures ParseInt("\U{1c}1") == None
    ensures !IsResolution("\U{1c}1x1")
  {
    var a := "\U{1c}1";
    assert !IsSpace(a[0]) && !IsSpace(a[1]);
    StripNothing(a);
    assert !IsDigit(a[0]);
    assert Lower("\U{1c}1x1") == "\U{1c}1x1";
    SplitAtX(a, "1");
    assert a + "x" + "1" == "\U{1c}1x1";
  }

  lemma ParseBlankedOne()
    ensures ParseInt(" 1") == Some(1)
  {
    assert StripLeft(" 1") == "1" by { assert " 1"[1..] == "1"; }
    assert Strip(" 1") == "1";
    ParseDigits("1");
  }

  /** `int()` reads a plus sign followed by digits, once blanks are stripped, as the digits' value. */
  lemma ParsePlus(s: string, d: string)
    requires Strip(s) == "+" + d && |d| > 0 && AllDigits(d)
    ensures ParseInt(s) == Some(ValueOf(d))
  {
    assert ("+" + d)[1..] == d;
    assert IsDigit(d[0]) && IsDigit(d[|d| - 1]);
    NoUnderscores(d);
  }

  lemma ParsePlusTwo()
    ensures ParseInt("+2 ") == Some(2)
  {
    assert !IsSpace('+');
    assert StripLeft("+2 ") == "+2 ";
    assert StripRight("+2 ") == "+2" by {
      assert "+2 "[..2] == "+2";
      assert !IsSpace('2');
    }
    assert "+2" == "+" + "2";
    ParsePlus("+2 ", "2");
  }

  /** `int()` reads digit groups, without sign or blanks, as the value of their digits. */
  lemma ParseGrouped(s: string, d: string)
    requires GroupedDigits(s) && RemoveUnderscores(s) == d
    ensures ParseInt(s) == Some(ValueOf(d))
  {
    assert IsDigit(s[0]) && IsDigit(s[|s| - 1]);
    StripNothing(s);
  }

  lemma ParseGroupedTen()
    ensures ParseInt("1_0") == Some(10)
  {
    GroupedTen();
    TenValue();
    ParseGrouped("1_0", "10");
  }

  lemma GroupedTen()
    ensures GroupedDigits("1_0") && RemoveUnderscores("1_0") == "10"
  {
    assert "1_0"[..2] == "1_" && "1_"[..1] == "1" && "1"[..0] == "";
  }

  lemma TenValue()
    ensures ValueOf("10") == 10
  {
    assert "10"[..1] == "1" && "1"[..0] == "";
  }

  /** `int()` also takes surrounding blanks and a plus sign, and `X` counts as the separator. */
  lemma AcceptsBlanksAndSign()
    ensures IsResolution(" 1X+2 ")
  {
    assert Lower(" 1X+2 ") == " 1x+2 ";
    SplitAtX(" 1", "+2 ");
    assert " 1" + "x" + "+2 " == " 1x+2 ";
    ParseBlankedOne();
    ParsePlusTwo();
    Accept(" 1X+2 ", " 1", "+2 ", 1, 2);
  }

  /** `int()` also takes underscores between digits. */
  lemma AcceptsDigitGroups()
    ensures IsResolution("1_0x5")
  {
    GroupedSpelled();
    SplitAtX("1_0", "5");
    ParseGroupedTen();
    ParseFive();
    Accept("1_0x5", "1_0", "5", 10, 5);
  }

  lemma ParseFive()
    ensures ParseInt("5") == Some(5)
  {
    ParseDigits("5");
    assert ValueOf("5") == 5 by { assert "5"[..0] == ""; }
  }

  lemma GroupedSpelled()
    ensures Lower("1_0x5") == "1_0x5" && "1_0" + "x" + "5" == "1_0x5"
  {
    var s := "1_0x5";
    assert LowerChar(s[0]) == s[0] && LowerChar(s[1]) == s[1] && LowerChar(s[2]) == s[2];
    assert LowerChar(s[3]) == s[3] && LowerChar(s[4]) == s[4];
  }
}
