/**
 * String facts the recipe checks and the naming scheme rest on: the
 * filesystem-safe name pattern, decimal rendering (`str(n)`, `f"{n:02d}"`),
 * `str.split`/`str.join` with a one-character separator, and Python's
 * ordering of strings (what `sorted` uses on names of one directory).
 */
module Text {

  /** A member of the character class `[a-zA-Z0-9-]`. */
  predicate IsSafeChar(c: char) {
    ('a' <= c <= 'z') || ('A' <= c <= 'Z') || ('0' <= c <= '9') || c == '-'
  }

  predicate AllSafe(s: string) {
    forall i :: 0 <= i < |s| ==> IsSafeChar(s[i])
  }

  /**
   * `re.match(r"^[a-zA-Z0-9-]+$", s)` succeeds. Python's `$` matches at the
   * end of the string and also just before a newline that ends it, so one
   * trailing newline is let through.
   */
  predicate SafeName(s: string) {
    (|s| > 0 && AllSafe(s)) || (|s| > 1 && s[|s| - 1] == '\n' && AllSafe(s[..|s| - 1]))
  }

  /** Safe names never contain the path separator nor a dot; only the anchor quirk admits a newline. */
  lemma SafeNameChars(s: string, c: char)
    requires SafeName(s) && c in s
    ensures IsSafeChar(c) || c == '\n'
    ensures c != '/' && c != '.'
    ensures c == '\n' ==> s[|s| - 1] == c && c !in s[..|s| - 1]
  {
    var i :| 0 <= i < |s| && s[i] == c;
    if !AllSafe(s) {
      assert i < |s| - 1 ==> s[..|s| - 1][i] == c;
    }
    if c == '\n' {
      assert !AllSafe(s) by { assert !IsSafeChar(s[i]); }
      var init := s[..|s| - 1];
      forall j | 0 <= j < |init|
        ensures init[j] != '\n'
      {
        assert IsSafeChar(init[j]);
      }
    }
  }

  /** The pattern accepts a name followed by one newline, and not two. */
  lemma TrailingNewlineAccepted()
    ensures SafeName("mp4\n") && !AllSafe("mp4\n")
    ensures !SafeName("mp4\n\n") && !SafeName("") && !SafeName("\n") && !SafeName("B@D!")
  {
    assert "mp4\n"[..3] == "mp4";
    assert !IsSafeChar("mp4\n\n"[3]);
    assert "mp4\n\n"[..4][3] == '\n';
    assert !IsSafeChar("\n"[0]);
    assert !IsSafeChar("B@D!"[1]);
    assert "B@D!"[..3][1] == '@';
  }

  // ---- decimal digits ----

  predicate IsDigit(c: char) {
    '0' <= c <= '9'
  }

  predicate AllDigits(s: string) {
    forall i :: 0 <= i < |s| ==> IsDigit(s[i])
  }

  function DigitChar(d: nat): char
    requires d < 10
  {
    ('0' as int + d) as char
  }

  function DigitValue(c: char): nat
    requires IsDigit(c)
  {
    c as int - '0' as int
  }

  /** The number a string of decimal digits denotes (leading zeros allowed). */
  function ValueOf(s: string): nat
    requires AllDigits(s)
  {
    if s == [] then 0 else ValueOf(s[..|s| - 1]) * 10 + DigitValue(s[|s| - 1])
  }

  /** `str(n)` for a natural number. */
  function ShowNat(n: nat): string
  {
    if n < 10 then [DigitChar(n)] else ShowNat(n / 10) + [DigitChar(n % 10)]
  }

  /** `f"{n:02d}"`: at least two digits, zero-padded on the left. */
  function Pad2(n: nat): string
  {
    if n < 10 then "0" + ShowNat(n) else ShowNat(n)
  }

  /** `str(n)` is a non-empty digit string that reads back as `n`. */
  lemma {:induction false} ShowNatValue(n: nat)
    ensures |ShowNat(n)| > 0 && AllDigits(ShowNat(n)) && ValueOf(ShowNat(n)) == n
  {
    if n >= 10 {
      ShowNatValue(n / 10);
      var s := ShowNat(n);
      assert s[..|s| - 1] == ShowNat(n / 10);
    }
  }

  /** A leading zero does not change the value of a digit string. */
  lemma {:induction false} LeadingZero(s: string)
    requires AllDigits(s)
    ensures AllDigits("0" + s) && ValueOf("0" + s) == ValueOf(s)
  {
    if s != [] {
      LeadingZero(s[..|s| - 1]);
      assert ("0" + s)[..|s|] == "0" + s[..|s| - 1];
    }
  }

  /** `f"{n:02d}"` has at least two digits and reads back as `n`. */
  lemma Pad2Value(n: nat)
    ensures |Pad2(n)| >= 2 && AllDigits(Pad2(n)) && ValueOf(Pad2(n)) == n
  {
    ShowNatValue(n);
    if n < 10 {
      LeadingZero(ShowNat(n));
    } else {
      assert ShowNat(n) == ShowNat(n / 10) + [DigitChar(n % 10)];
      ShowNatValue(n / 10);
    }
  }

  /** Distinct indices get distinct zero-padded renderings. */
  lemma Pad2Injective(m: nat, n: nat)
    requires Pad2(m) == Pad2(n)
    ensures m == n
  {
    Pad2Value(m);
    Pad2Value(n);
  }

  /** Position of the last `c` in `s`, or -1. */
  function LastIndex(s: string, c: char): int
  {
    if s == [] then -1 else if s[|s| - 1] == c then |s| - 1 else LastIndex(s[..|s| - 1], c)
  }

  /** Digits contain no dash, so the last dash of `a + "-" + d` is the one after `a`. */
  lemma {:induction false} LastDashBeforeDigits(a: string, d: string)
    requires AllDigits(d)
    ensures LastIndex(a + "-" + d, '-') == |a|
  {
    if d != [] {
      LastDashBeforeDigits(a, d[..|d| - 1]);
      assert (a + "-" + d)[..|a + "-" + d| - 1] == a + "-" + d[..|d| - 1];
    } else {
      assert a + "-" + d == a + "-";
    }
  }

  /**
   * In `a + "-" + d` with `d` all digits the last dash separates `a` from `d`,
   * so the split is unique.
   */
  lemma DashDigitsUnique(a: string, d: string, b: string, e: string)
    requires AllDigits(d) && AllDigits(e)
    requires a + "-" + d == b + "-" + e
    ensures a == b && d == e
  {
    var s := a + "-" + d;
    var t := b + "-" + e;
    LastDashBeforeDigits(a, d);
    LastDashBeforeDigits(b, e);
    assert a == s[..|a|] == t[..|b|] == b;
    assert d == s[|a| + 1..] == t[|b| + 1..] == e;
  }

  // ---- split and join on one character ----

  function Count(s: string, c: char): nat
  {
    if s == [] then 0 else (if s[0] == c then 1 else 0) + Count(s[1..], c)
  }

  /** `s.split(sep)`: the pieces between separators, always at least one. */
  function Split(s: string, sep: char): (parts: seq<string>)
    ensures |parts| >= 1
  {
    if s == [] then [""]
    else
      var rest := Split(s[1..], sep);
      if s[0] == sep then [""] + rest else [[s[0]] + rest[0]] + rest[1..]
  }

  /** `sep.join(parts)`. */
  function Join(parts: seq<string>, sep: char): string
  {
    if parts == [] then ""
    else if |parts| == 1 then parts[0]
    else parts[0] + [sep] + Join(parts[1..], sep)
  }

  /** There is one more piece than there are separators. */
  lemma {:induction false} SplitCount(s: string, sep: char)
    ensures |Split(s, sep)| == Count(s, sep) + 1
  {
    if s != [] {
      SplitCount(s[1..], sep);
    }
  }

  /** Joining the pieces of a split gives the string back. */
  lemma {:induction false} SplitJoin(s: string, sep: char)
    ensures Join(Split(s, sep), sep) == s
  {
    if s != [] {
      SplitJoin(s[1..], sep);
      var rest := Split(s[1..], sep);
      if s[0] != sep && |rest| > 1 {
        assert Join(rest, sep) == rest[0] + [sep] + Join(rest[1..], sep);
        assert ([[s[0]] + rest[0]] + rest[1..])[1..] == rest[1..];
      }
    }
  }

  /** A piece free of the separator, followed by it, splits off as the first piece. */
  lemma {:induction false} SplitPiece(p: string, t: string, sep: char)
    requires sep !in p
    ensures Split(p + [sep] + t, sep) == [p] + Split(t, sep)
    ensures Split(p, sep) == [p]
  {
    if p == [] {
      assert p + [sep] + t == [sep] + t;
      assert ([sep] + t)[1..] == t;
    } else {
      SplitPiece(p[1..], t, sep);
      assert (p + [sep] + t)[1..] == p[1..] + [sep] + t;
      assert [p[0]] + p[1..] == p;
    }
  }

  /** Splitting a join of separator-free pieces gives the pieces back. */
  lemma {:induction false} JoinSplit(parts: seq<string>, sep: char)
    requires |parts| >= 1
    requires forall i :: 0 <= i < |parts| ==> sep !in parts[i]
    ensures Split(Join(parts, sep), sep) == parts
  {
    if |parts| == 1 {
      SplitPiece(parts[0], "", sep);
    } else {
      JoinSplit(parts[1..], sep);
      SplitPiece(parts[0], Join(parts[1..], sep), sep);
    }
  }

  // ---- Python's ordering of strings ----

  /** `a < b` on Python strings: lexicographic by code point, a proper prefix first. */
  predicate StrLess(a: string, b: string)
  {
    if a == [] then b != []
    else if b == [] then false
    else if a[0] != b[0] then a[0] < b[0]
    else StrLess(a[1..], b[1..])
  }

  lemma {:induction false} StrLessIrreflexive(a: string)
    ensures !StrLess(a, a)
  {
    if a != [] {
      StrLessIrreflexive(a[1..]);
    }
  }

  lemma {:induction false} StrLessTransitive(a: string, b: string, c: string)
    requires StrLess(a, b) && StrLess(b, c)
    ensures StrLess(a, c)
  {
    if a != [] && b != [] && c != [] && a[0] == b[0] && b[0] == c[0] {
      StrLessTransitive(a[1..], b[1..], c[1..]);
    }
  }

  lemma {:induction false} StrLessTotal(a: string, b: string)
    ensures a == b || StrLess(a, b) || StrLess(b, a)
  {
    if a != [] && b != [] && a[0] == b[0] {
      StrLessTotal(a[1..], b[1..]);
      if a[1..] == b[1..] {
        assert a == [a[0]] + a[1..] && b == [b[0]] + b[1..];
      }
    }
  }

  lemma StrLessAsymmetric(a: string, b: string)
    requires StrLess(a, b)
    ensures !StrLess(b, a)
  {
    if StrLess(b, a) {
      StrLessTransitive(a, b, a);
      StrLessIrreflexive(a);
    }
  }

  /** Every non-empty finite set of names has a least one: `sorted` has a first element. */
  lemma {:induction false} MinExists(s: set<string>)
    requires s != {}
    ensures exists m :: m in s && forall t :: t in s && t != m ==> StrLess(m, t)
    decreases s
  {
    var x :| x in s;
    var rest := s - {x};
    if rest != {} {
      MinExists(rest);
      var m :| m in rest && forall t :: t in rest && t != m ==> StrLess(m, t);
      StrLessTotal(x, m);
      if StrLess(x, m) {
        LeastBelow(s, x, m);
      } else {
        LeastAbove(s, x, m);
      }
    } else {
      assert s == {x};
    }
  }

  /** A name below the least of the others is the least of all. */
  lemma LeastBelow(s: set<string>, x: string, m: string)
    requires x in s && StrLess(x, m)
    requires forall t :: t in s && t != x && t != m ==> StrLess(m, t)
    ensures forall t :: t in s && t != x ==> StrLess(x, t)
  {
    forall t | t in s && t != x
      ensures StrLess(x, t)
    {
      if t != m {
        StrLessTransitive(x, m, t);
      }
    }
  }

  /** A name above the least of the others leaves that one the least of all. */
  lemma LeastAbove(s: set<string>, x: string, m: string)
    requires m in s && StrLess(m, x)
    requires forall t :: t in s && t != x && t != m ==> StrLess(m, t)
    ensures forall t :: t in s && t != m ==> StrLess(m, t)
  {
  }
}
