/**
 * The handful of Python string operations the core relies on, stated over
 * `seq<char>`: `str.strip`, `str.rstrip(c)`, `str.split(sep)`, `sep.join`,
 * `str(n)` for a natural number, and `str.upper` on ASCII letters.
 */
module Text {
  import opened Wrappers

  /** Python truthiness of an optional string: None and "" are false. */
  predicate Truthy(o: Option<string>) {
    o.Some? && o.value != ""
  }

  /** `o or default` for an optional string. */
  function StrOr(o: Option<string>, default: string): (r: string)
    ensures Truthy(o) ==> r == o.value
    ensures !Truthy(o) ==> r == default
  {
    if Truthy(o) then o.value else default
  }

  /** `s if s else None` for a form field. */
  function EmptyToNone(s: string): (r: Option<string>)
    ensures r.None? <==> s == ""
    ensures r.Some? ==> r.value == s
  {
    if s == "" then None else Some(s)
  }

  /** The characters for which Python's `str.isspace()` holds, i.e. what
      `str.strip()` with no argument removes. */
  predicate IsSpace(c: char) {
    || ('\U{9}' <= c <= '\U{D}')
    || ('\U{1C}' <= c <= '\U{1F}')
    || c == ' '
    || c == '\U{85}'
    || c == '\U{A0}'
    || c == '\U{1680}'
    || ('\U{2000}' <= c <= '\U{200A}')
    || c == '\U{2028}'
    || c == '\U{2029}'
    || c == '\U{202F}'
    || c == '\U{205F}'
    || c == '\U{3000}'
  }

  /** Every character is whitespace (this includes the empty string). */
  predicate IsBlank(s: string) {
    forall i :: 0 <= i < |s| ==> IsSpace(s[i])
  }

  /** `s.lstrip()` */
  function LStrip(s: string): (r: string)
    ensures |r| <= |s|
  {
    if s == [] || !IsSpace(s[0]) then s else LStrip(s[1..])
  }

  /** What `lstrip()` keeps is a suffix that does not start with whitespace,
      and what it drops is all whitespace. */
  lemma {:induction false} LStripSpec(s: string)
    ensures var r := LStrip(s);
            && r == s[|s| - |r|..]
            && (r == [] || !IsSpace(r[0]))
            && IsBlank(s[..|s| - |r|])
    decreases |s|
  {
    if s != [] && IsSpace(s[0]) {
      var r := LStrip(s[1..]);
      LStripSpec(s[1..]);
      assert s[1..][..|s| - 1 - |r|] == s[1..|s| - |r|];
    }
  }

  /** `s.rstrip()` */
  function RStrip(s: string): (r: string)
    ensures |r| <= |s|
  {
    if s == [] || !IsSpace(s[|s| - 1]) then s else RStrip(s[..|s| - 1])
  }

  /** What `rstrip()` keeps is a prefix that does not end with whitespace,
      and what it drops is all whitespace. */
  lemma {:induction false} RStripSpec(s: string)
    ensures var r := RStrip(s);
            && r == s[..|r|]
            && (r == [] || !IsSpace(r[|r| - 1]))
            && IsBlank(s[|r|..])
    decreases |s|
  {
    if s != [] && IsSpace(s[|s| - 1]) {
      var r := RStrip(s[..|s| - 1]);
      RStripSpec(s[..|s| - 1]);
      assert s[|r|..] == s[..|s| - 1][|r|..] + [s[|s| - 1]];
    }
  }

  /** `s.strip()` */
  function Strip(s: string): (r: string)
  {
    RStrip(LStrip(s))
  }

  /** What `strip()` keeps is a slice of its input, with no whitespace at
      either end, and everything it drops is whitespace. */
  lemma StripSpec(s: string)
    ensures exists i, j :: 0 <= i <= j <= |s| && Strip(s) == s[i..j]
                           && IsBlank(s[..i]) && IsBlank(s[j..])
    ensures Strip(s) == [] || (!IsSpace(Strip(s)[0]) && !IsSpace(Strip(s)[|Strip(s)| - 1]))
  {
    var l := LStrip(s);
    var r := RStrip(l);
    LStripSpec(s);
    RStripSpec(l);
    var i := |s| - |l|;
    var j := i + |r|;
    assert r == s[i..j];
    assert s[j..] == l[|r|..];
  }

  /** A string strips to nothing exactly when it is all whitespace: Python's
      `if x.strip()` keeps a piece iff it has a non-whitespace character. */
  lemma {:induction false} StripEmptyIffBlank(s: string)
    ensures Strip(s) == [] <==> IsBlank(s)
  {
    var l := LStrip(s);
    LStripSpec(s);
    RStripSpec(l);
    if !IsBlank(s) {
      var k :| 0 <= k < |s| && !IsSpace(s[k]);
      assert k >= |s| - |l|;
      assert l[k - (|s| - |l|)] == s[k];
    }
  }

  /** Stripping twice changes nothing, and a non-empty stripped string is a
      stripped word. */
  lemma StripIdempotent(s: string)
    ensures Strip(Strip(s)) == Strip(s)
    ensures Strip(s) == [] || IsStrippedWord(Strip(s))
  {
    var t := Strip(s);
    StripSpec(s);
    if t != [] {
      StrippedWordFixed(t);
    }
  }

  lemma StrippedWordFixed(s: string)
    requires IsStrippedWord(s)
    ensures Strip(s) == s
  {
    assert LStrip(s) == s;
    assert RStrip(s) == s;
  }

  /** A non-empty string with no whitespace at either end: what `strip()`
      leaves unchanged (see StripIdempotent). */
  predicate IsStrippedWord(s: string) {
    s != [] && !IsSpace(s[0]) && !IsSpace(s[|s| - 1])
  }

  /** A prefix that starts and ends with non-whitespace survives `strip()`. */
  lemma StripKeepsPrefix(s: string, p: string)
    requires IsStrippedWord(p) && |p| <= |s| && s[..|p|] == p
    ensures |p| <= |Strip(s)| && Strip(s)[..|p|] == p
  {
    assert s[0] == p[0];
    assert LStrip(s) == s;
    RStripSpec(s);
    var r := RStrip(s);
    assert r[..|p|] == s[..|p|];
  }

  /** `s.rstrip(c)`: drop every trailing `c`. */
  function RStripChar(s: string, c: char): (r: string)
    ensures |r| <= |s| && r == s[..|r|]
    ensures r == [] || r[|r| - 1] != c
    ensures forall i :: |r| <= i < |s| ==> s[i] == c
  {
    if s == [] || s[|s| - 1] != c then s
    else RStripChar(s[..|s| - 1], c)
  }

  /** `s.split(sep)` for a one-character separator: the pieces between the
      occurrences of `sep`, always at least one piece (`"".split(",") == [""]`). */
  function Split(s: string, sep: char): (parts: seq<string>)
    ensures |parts| >= 1
    decreases |s|
  {
    if s == [] then [""]
    else if s[0] == sep then [""] + Split(s[1..], sep)
    else
      var rest := Split(s[1..], sep);
      [[s[0]] + rest[0]] + rest[1..]
  }

  /** `sep.join(parts)` */
  function Join(parts: seq<string>, sep: string): string
  {
    if |parts| == 0 then ""
    else if |parts| == 1 then parts[0]
    else parts[0] + sep + Join(parts[1..], sep)
  }

  /** Splitting loses nothing: joining the pieces back with the separator
      gives the input. */
  lemma {:induction false} JoinSplit(s: string, sep: char)
    ensures Join(Split(s, sep), [sep]) == s
    decreases |s|
  {
    if s == [] {
    } else if s[0] == sep {
      JoinSplit(s[1..], sep);
      assert Split(s, sep) == [""] + Split(s[1..], sep);
    } else {
      var rest := Split(s[1..], sep);
      JoinSplit(s[1..], sep);
      var parts := [[s[0]] + rest[0]] + rest[1..];
      assert parts[1..] == rest[1..];
      if |rest| == 1 {
        assert Join(parts, [sep]) == [s[0]] + rest[0];
      } else {
        assert Join(rest, [sep]) == rest[0] + [sep] + Join(rest[1..], [sep]);
        assert Join(parts, [sep]) == [s[0]] + rest[0] + [sep] + Join(rest[1..], [sep]);
      }
      assert s == [s[0]] + s[1..];
    }
  }

  /** No piece contains the separator. */
  lemma {:induction false} SplitPiecesHaveNoSep(s: string, sep: char)
    ensures forall k :: 0 <= k < |Split(s, sep)| ==> sep !in Split(s, sep)[k]
    decreases |s|
  {
    if s != [] {
      SplitPiecesHaveNoSep(s[1..], sep);
    }
  }

  /** There is one more piece than there are separators. */
  lemma {:induction false} SplitCount(s: string, sep: char)
    ensures |Split(s, sep)| == CountChar(s, sep) + 1
    decreases |s|
  {
    if s != [] {
      SplitCount(s[1..], sep);
    }
  }

  function CountChar(s: string, c: char): nat
  {
    if s == [] then 0 else (if s[0] == c then 1 else 0) + CountChar(s[1..], c)
  }

  /** `[p.strip() for p in parts]` */
  function StripAll(parts: seq<string>): (r: seq<string>)
    ensures |r| == |parts|
    ensures forall k :: 0 <= k < |r| ==> r[k] == Strip(parts[k])
  {
    if parts == [] then [] else [Strip(parts[0])] + StripAll(parts[1..])
  }

  /** `[p.strip() for p in parts if p.strip()]` */
  function StripNonBlank(parts: seq<string>): seq<string>
  {
    if parts == [] then []
    else if Strip(parts[0]) == [] then StripNonBlank(parts[1..])
    else [Strip(parts[0])] + StripNonBlank(parts[1..])
  }

  /** What survives is stripped and non-empty. */
  lemma {:induction false} StripNonBlankWords(parts: seq<string>)
    ensures |StripNonBlank(parts)| <= |parts|
    ensures forall k :: 0 <= k < |StripNonBlank(parts)| ==> IsStrippedWord(StripNonBlank(parts)[k])
  {
    if parts != [] {
      StripNonBlankWords(parts[1..]);
      StripIdempotent(parts[0]);
      var r := StripNonBlank(parts);
      var t := StripNonBlank(parts[1..]);
      var h := Strip(parts[0]);
      if h == [] {
        assert r == t;
      } else {
        assert r == [h] + t;
        forall k | 0 <= k < |r| ensures IsStrippedWord(r[k]) {
          if k > 0 { assert r[k] == t[k - 1]; }
        }
      }
    }
  }

  /** Every survivor is the stripped form of one of the pieces. */
  lemma {:induction false} StripNonBlankFrom(parts: seq<string>)
    ensures forall k :: 0 <= k < |StripNonBlank(parts)| ==> StripNonBlank(parts)[k] in StripAll(parts)
  {
    if parts != [] {
      StripNonBlankFrom(parts[1..]);
      var r := StripNonBlank(parts);
      var t := StripNonBlank(parts[1..]);
      assert StripAll(parts) == [Strip(parts[0])] + StripAll(parts[1..]);
      forall k | 0 <= k < |r|
        ensures r[k] in StripAll(parts)
      {
        if Strip(parts[0]) == [] {
          assert r[k] == t[k];
        } else if k > 0 {
          assert r[k] == t[k - 1];
        }
      }
    }
  }

  /** Every piece with a non-whitespace character survives. */
  lemma {:induction false} StripNonBlankKeeps(parts: seq<string>)
    ensures forall m :: 0 <= m < |parts| && !IsBlank(parts[m]) ==> Strip(parts[m]) in StripNonBlank(parts)
  {
    if parts != [] {
      StripNonBlankKeeps(parts[1..]);
      StripEmptyIffBlank(parts[0]);
      forall m | 0 <= m < |parts| && !IsBlank(parts[m])
        ensures Strip(parts[m]) in StripNonBlank(parts)
      {
        if m > 0 {
          assert parts[m] == parts[1..][m - 1];
        }
      }
    }
  }

  /** Splitting on `sep`, stripping each piece and dropping the blank ones:
      `[p.strip() for p in s.split(sep) if p.strip()]`. */
  function SplitStripNonBlank(s: string, sep: char): seq<string>
  {
    StripNonBlank(Split(s, sep))
  }

  /** Every item is a stripped, non-empty word without the separator, and
      there are never more items than pieces. */
  lemma SplitStripNonBlankSpec(s: string, sep: char)
    ensures forall k :: 0 <= k < |SplitStripNonBlank(s, sep)| ==>
              IsStrippedWord(SplitStripNonBlank(s, sep)[k]) && sep !in SplitStripNonBlank(s, sep)[k]
    ensures |SplitStripNonBlank(s, sep)| <= CountChar(s, sep) + 1
  {
    var parts := Split(s, sep);
    var r := StripNonBlank(parts);
    StripNonBlankWords(parts);
    StripNonBlankFrom(parts);
    SplitPiecesHaveNoSep(s, sep);
    SplitCount(s, sep);
    forall k | 0 <= k < |r|
      ensures sep !in r[k]
    {
      assert r[k] in StripAll(parts);
      var m :| 0 <= m < |StripAll(parts)| && StripAll(parts)[m] == r[k];
      assert sep !in parts[m];
      StripKeepsOnly(parts[m], sep);
    }
  }

  /** `[p for p in parts if p]` */
  function DropEmpty(parts: seq<string>): (r: seq<string>)
    ensures |r| <= |parts|
  {
    if parts == [] then []
    else if parts[0] == [] then DropEmpty(parts[1..])
    else [parts[0]] + DropEmpty(parts[1..])
  }

  /** Stripping with the blank pieces dropped is stripping everything and
      then dropping the empty results. */
  lemma {:induction false} StripNonBlankIsDropEmpty(parts: seq<string>)
    ensures StripNonBlank(parts) == DropEmpty(StripAll(parts))
  {
    if parts != [] {
      StripNonBlankIsDropEmpty(parts[1..]);
      assert StripAll(parts) == [Strip(parts[0])] + StripAll(parts[1..]);
      assert StripAll(parts)[1..] == StripAll(parts[1..]);
    }
  }

  /** Leading whitespace makes no difference to `strip()`. */
  lemma StripAfterSpace(c: char, s: string)
    requires IsSpace(c)
    ensures Strip([c] + s) == Strip(s)
  {
    assert ([c] + s)[1..] == s;
  }

  /** Splitting at the first separator: the text before it is the first piece. */
  lemma {:induction false} SplitAtFirst(a: string, sep: char, b: string)
    requires sep !in a
    ensures Split(a + [sep] + b, sep) == [a] + Split(b, sep)
    decreases |a|
  {
    if a == [] {
      assert a + [sep] + b == [sep] + b;
      assert ([sep] + b)[1..] == b;
    } else {
      SplitAtFirst(a[1..], sep, b);
      assert (a + [sep] + b)[1..] == a[1..] + [sep] + b;
      assert a == [a[0]] + a[1..];
    }
  }

  /** A string without the separator is one piece. */
  lemma {:induction false} SplitWithoutSep(a: string, sep: char)
    requires sep !in a
    ensures Split(a, sep) == [a]
    decreases |a|
  {
    if a != [] {
      SplitWithoutSep(a[1..], sep);
      assert a == [a[0]] + a[1..];
    }
  }

  /** A character absent from a string is absent from its stripped form. */
  lemma StripKeepsOnly(s: string, c: char)
    requires c !in s
    ensures c !in Strip(s)
  {
    StripSpec(s);
  }

  // ---------------------------------------------------------------------
  // Natural numbers as decimal text (`str(n)`, `f"{n}"`)

  function DigitChar(d: nat): char
    requires d < 10
  {
    "0123456789"[d]
  }

  predicate IsDigit(c: char) { '0' <= c <= '9' }

  function DigitValue(c: char): nat
    requires IsDigit(c)
  {
    (c as int - '0' as int) as nat
  }

  /** Every character is a decimal digit. */
  predicate AllDigits(s: string) {
    forall i :: 0 <= i < |s| ==> IsDigit(s[i])
  }

  /** `str(n)` for `n >= 0`. */
  function NatToString(n: nat): (s: string)
    ensures s != []
  {
    if n < 10 then [DigitChar(n)] else NatToString(n / 10) + [DigitChar(n % 10)]
  }

  /** `str(n)` writes only digits. */
  lemma {:induction false} NatToStringDigits(n: nat)
    ensures AllDigits(NatToString(n))
  {
    if n >= 10 {
      NatToStringDigits(n / 10);
    }
  }

  /** `int(s)` for a non-empty string of decimal digits. */
  function ParseNat(s: string): nat
    requires s != [] && AllDigits(s)
  {
    if |s| == 1 then DigitValue(s[0])
    else ParseNat(s[..|s| - 1]) * 10 + DigitValue(s[|s| - 1])
  }

  /** Decimal rendering is injective: reading the digits back gives the
      number (so the counts and ordinals rendered by the tools are exact). */
  lemma {:induction false} ParseNatToString(n: nat)
    ensures AllDigits(NatToString(n)) && ParseNat(NatToString(n)) == n
  {
    NatToStringDigits(n);
    if n >= 10 {
      var s := NatToString(n);
      assert s[..|s| - 1] == NatToString(n / 10);
      ParseNatToString(n / 10);
    }
  }

  lemma NatToStringInjective(a: nat, b: nat)
    ensures NatToString(a) == NatToString(b) <==> a == b
  {
    ParseNatToString(a);
    ParseNatToString(b);
  }

  lemma CharAfter(a: string, c: char, x: string)
    ensures (a + [c] + x)[|a|] == c
  {
  }

  /** Two digit strings each followed by the same non-digit split back at
      that character. */
  lemma DigitsSplitAt(a: string, c: char, x: string, b: string, y: string)
    requires AllDigits(a) && AllDigits(b) && !IsDigit(c) && a + [c] + x == b + [c] + y
    ensures a == b && x == y
  {
    var l := a + [c] + x;
    if |a| < |b| {
      CharAfter(a, c, x);
      assert false;
    } else if |b| < |a| {
      CharAfter(b, c, y);
      assert false;
    }
    assert a == l[..|a|] && b == l[..|b|];
    assert x == l[|a| + 1..] && y == l[|b| + 1..];
  }

  /** Leading zeros do not change the value read. */
  lemma {:induction false} ParseNatLeadingZero(s: string)
    requires s != [] && AllDigits(s)
    ensures AllDigits("0" + s)
    ensures ParseNat("0" + s) == ParseNat(s)
  {
    if |s| > 1 {
      assert ("0" + s)[..|"0" + s| - 1] == "0" + s[..|s| - 1];
      ParseNatLeadingZero(s[..|s| - 1]);
    }
  }

  /** Zero-pad the decimal text of `n` to at least `width` characters
      (`f"{n:0{width}d}"`). */
  function PadNat(n: nat, width: nat): (s: string)
    ensures |s| >= width && s != []
    decreases width
  {
    var t := NatToString(n);
    if |t| >= width then t else "0" + PadNat(n, width - 1)
  }

  lemma {:induction false} ParsePadNat(n: nat, width: nat)
    ensures AllDigits(PadNat(n, width)) && ParseNat(PadNat(n, width)) == n
    decreases width
  {
    var t := NatToString(n);
    if |t| >= width {
      ParseNatToString(n);
    } else {
      ParsePadNat(n, width - 1);
      ParseNatLeadingZero(PadNat(n, width - 1));
    }
  }

  /** A number with at most `width` digits pads to exactly `width` characters. */
  lemma {:induction false} PadNatLength(n: nat, width: nat)
    requires |NatToString(n)| <= width
    ensures |PadNat(n, width)| == width
    decreases width
  {
    if |NatToString(n)| < width {
      PadNatLength(n, width - 1);
    }
  }

  lemma {:induction false} NatToStringLength(n: nat, k: nat)
    requires n < Pow10(k) && k >= 1
    ensures |NatToString(n)| <= k
  {
    if n >= 10 {
      NatToStringLength(n / 10, k - 1);
    }
  }

  /** A number of at least 10^k has more than k digits. */
  lemma {:induction false} NatToStringLongEnough(n: nat, k: nat)
    requires n >= Pow10(k)
    ensures |NatToString(n)| > k
  {
    if k > 0 {
      assert n >= 10;
      NatToStringLongEnough(n / 10, k - 1);
    }
  }

  function Pow10(k: nat): (p: nat)
    ensures p >= 1
  {
    if k == 0 then 1 else 10 * Pow10(k - 1)
  }

  predicate StartsWith(s: string, prefix: string) {
    |prefix| <= |s| && s[..|prefix|] == prefix
  }

  // ---------------------------------------------------------------------
  // Text built by `for i, x in enumerate(xs, 1): result += ...`

  /** The blocks `entry(1, xs[0])`, `entry(2, xs[1])`, ... one after another. */
  function Enumerate<T>(xs: seq<T>, entry: (nat, T) -> string): string
  {
    if xs == [] then "" else Enumerate(xs[..|xs| - 1], entry) + entry(|xs|, xs[|xs| - 1])
  }

  /** One more pass of the loop appends one more block. */
  lemma EnumerateSnoc<T>(xs: seq<T>, i: nat, entry: (nat, T) -> string)
    requires i < |xs|
    ensures Enumerate(xs[..i + 1], entry) == Enumerate(xs[..i], entry) + entry(i + 1, xs[i])
  {
    assert xs[..i + 1][..i] == xs[..i];
  }

  lemma AppendAssoc(a: string, b: string, c: string)
    ensures (a + b) + c == a + (b + c)
  {
  }

  lemma AppendKeepsPrefix(p: string, s: string, t: string)
    requires p <= s
    ensures p <= s + t
  {
    assert (s + t)[..|p|] == s[..|p|];
  }

  /** The blocks of the first `j` items begin the text of all of them. */
  lemma {:induction false} EnumeratePrefix<T>(xs: seq<T>, j: nat, entry: (nat, T) -> string)
    requires j <= |xs|
    ensures Enumerate(xs[..j], entry) <= Enumerate(xs, entry)
    decreases |xs|
  {
    if j < |xs| {
      var n := |xs|;
      EnumeratePrefix(xs[..n - 1], j, entry);
      assert xs[..n - 1][..j] == xs[..j];
      AppendKeepsPrefix(Enumerate(xs[..j], entry), Enumerate(xs[..n - 1], entry), entry(n, xs[n - 1]));
    } else {
      assert xs[..j] == xs;
    }
  }

  /** The block of item `k` (numbered `k + 1`) follows the blocks of the
      items before it: the blocks appear in input order. */
  lemma EnumerateAt<T>(xs: seq<T>, k: nat, entry: (nat, T) -> string)
    requires k < |xs|
    ensures Enumerate(xs[..k], entry) + entry(k + 1, xs[k]) <= Enumerate(xs, entry)
  {
    EnumerateSnoc(xs, k, entry);
    EnumeratePrefix(xs, k + 1, entry);
  }
}
