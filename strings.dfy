/**
 * The JavaScript string operations the core relies on, over `seq<char>`:
 * `\s` / `trim()` whitespace, `toLowerCase()` on ASCII letters, `includes`,
 * `startsWith`, `split` with a string separator, the `filter(Boolean)` that
 * drops empty strings, and the decimal rendering of a natural number.
 */
module Strings {

  /** The characters JavaScript's `\s` matches and `trim()` removes (WhiteSpace and LineTerminator). */
  predicate IsSpace(c: char) {
    var n := c as int;
    n == 0x09 || n == 0x0A || n == 0x0B || n == 0x0C || n == 0x0D || n == 0x20 ||
    n == 0xA0 || n == 0x1680 || (0x2000 <= n <= 0x200A) || n == 0x2028 || n == 0x2029 ||
    n == 0x202F || n == 0x205F || n == 0x3000 || n == 0xFEFF
  }

  /** The characters a regular-expression `.` does not match (LineTerminator). */
  predicate IsLineTerminator(c: char) {
    var n := c as int;
    n == 0x0A || n == 0x0D || n == 0x2028 || n == 0x2029
  }

  predicate NoSpace(s: string) {
    forall i :: 0 <= i < |s| ==> !IsSpace(s[i])
  }

  predicate AllSpace(s: string) {
    forall i :: 0 <= i < |s| ==> IsSpace(s[i])
  }

  predicate IsUpper(c: char) { 'A' <= c <= 'Z' }

  /** `toLowerCase()` on one character; only the ASCII letters are mapped. */
  function LowerChar(c: char): (r: char)
    ensures IsUpper(c) ==> r as int == c as int + 32
    ensures !IsUpper(c) ==> r == c
  {
    if IsUpper(c) then (c as int + 32) as char else c
  }

  function ToLower(s: string): (r: string)
    ensures |r| == |s|
    ensures forall i :: 0 <= i < |s| ==> r[i] == LowerChar(s[i])
  {
    seq(|s|, i requires 0 <= i < |s| => LowerChar(s[i]))
  }

  /** Lower-casing a lower-cased string changes nothing. */
  lemma ToLowerIdempotent(s: string)
    ensures ToLower(ToLower(s)) == ToLower(s)
  {
    assert forall i :: 0 <= i < |s| ==> LowerChar(LowerChar(s[i])) == LowerChar(s[i]);
  }

  /** Lower-casing neither creates nor removes whitespace. */
  lemma LowerCharSpace(c: char)
    ensures IsSpace(LowerChar(c)) <==> IsSpace(c)
  {
  }

  /** `s.startsWith(p)`. */
  predicate StartsWith(s: string, p: string) {
    |p| <= |s| && s[..|p|] == p
  }

  /** `s.includes(sub)`: `sub` occurs somewhere in `s`. */
  predicate Contains(s: string, sub: string)
    decreases |s|
  {
    StartsWith(s, sub) || (|s| > 0 && Contains(s[1..], sub))
  }

  /** `Contains` holds exactly when some window of `s` equals `sub`. */
  lemma {:induction false} ContainsAt(s: string, sub: string)
    ensures Contains(s, sub) <==> exists i :: 0 <= i <= |s| - |sub| && s[i..][..|sub|] == sub
    decreases |s|
  {
    if StartsWith(s, sub) {
      assert s[0..][..|sub|] == sub;
    } else if |s| > 0 {
      ContainsAt(s[1..], sub);
      if Contains(s[1..], sub) {
        var i :| 0 <= i <= |s[1..]| - |sub| && s[1..][i..][..|sub|] == sub;
        assert s[i + 1..] == s[1..][i..];
      } else {
        forall i | 0 <= i <= |s| - |sub| ensures s[i..][..|sub|] != sub {
          if i > 0 {
            assert s[i..] == s[1..][i - 1..];
          } else {
            assert s[0..] == s;
          }
        }
      }
    }
  }

  /** Text that occurs in a string occurs in any string that contains it. */
  lemma {:induction false} ContainsInAppend(a: string, b: string, sub: string)
    requires Contains(b, sub)
    ensures Contains(a + b, sub)
    decreases |a|
  {
    if |a| > 0 {
      assert (a + b)[1..] == a[1..] + b;
      ContainsInAppend(a[1..], b, sub);
    } else {
      assert a + b == b;
    }
  }

  /** A string in which the first character of `sub` never occurs does not contain `sub`. */
  lemma {:induction false} NoLeadCharNotContained(s: string, sub: string)
    requires |sub| > 0
    requires forall i :: 0 <= i < |s| ==> s[i] != sub[0]
    ensures !Contains(s, sub)
    decreases |s|
  {
    assert !StartsWith(s, sub) by {
      if |sub| <= |s| {
        assert s[..|sub|][0] == s[0];
      }
    }
    if |s| > 0 {
      NoLeadCharNotContained(s[1..], sub);
    }
  }

  /** Leading whitespace removed (`trimStart`). */
  function TrimStart(s: string): (r: string)
    ensures |r| <= |s| && r == s[|s| - |r|..]
    ensures r == [] || !IsSpace(r[0])
    ensures AllSpace(s[..|s| - |r|])
    decreases |s|
  {
    if |s| > 0 && IsSpace(s[0]) then
      var r := TrimStart(s[1..]);
      assert s[1..][..|s[1..]| - |r|] == s[1..|s| - |r|];
      var cut := s[..|s| - |r|];
      assert cut == [s[0]] + s[1..|s| - |r|];
      assert AllSpace(cut) by {
        forall i | 0 <= i < |cut| ensures IsSpace(cut[i]) {
          if i > 0 {
            assert cut[i] == s[1..|s| - |r|][i - 1];
          }
        }
      }
      r
    else s
  }

  /** Trailing whitespace removed (`trimEnd`). */
  function TrimEnd(s: string): (r: string)
    ensures |r| <= |s| && r == s[..|r|]
    ensures r == [] || !IsSpace(r[|r| - 1])
    ensures AllSpace(s[|r|..])
    decreases |s|
  {
    if |s| > 0 && IsSpace(s[|s| - 1]) then
      var r := TrimEnd(s[..|s| - 1]);
      assert s[..|s| - 1][|r|..] == s[|r|..|s| - 1];
      var cut := s[|r|..];
      assert cut == s[|r|..|s| - 1] + [s[|s| - 1]];
      assert AllSpace(cut) by {
        forall i | 0 <= i < |cut| ensures IsSpace(cut[i]) {
          if i < |cut| - 1 {
            assert cut[i] == s[|r|..|s| - 1][i];
          }
        }
      }
      r
    else s
  }

  /** `trim()`: whitespace removed at both ends. */
  function Trim(s: string): (r: string)
    ensures |r| <= |s|
    ensures r == [] || (!IsSpace(r[0]) && !IsSpace(r[|r| - 1]))
  {
    var t := TrimStart(s);
    var r := TrimEnd(t);
    assert r != [] ==> r[0] == t[0];
    r
  }

  /** A trimmed string is empty exactly when the input was nothing but whitespace. */
  lemma {:induction false} TrimEmptyIff(s: string)
    ensures Trim(s) == [] <==> AllSpace(s)
  {
    var t := TrimStart(s);
    if t == [] {
      assert s[..|s|] == s;
    } else {
      assert !IsSpace(t[0]);
      var k := |s| - |t|;
      assert s[k] == t[0];
      assert t[0] == t[0..][0];
    }
  }

  /** A string with no whitespace at either end is its own trim. */
  lemma NoSpaceAtEndsTrim(s: string)
    requires s == [] || (!IsSpace(s[0]) && !IsSpace(s[|s| - 1]))
    ensures TrimStart(s) == s && TrimEnd(s) == s && Trim(s) == s
  {
  }

  /** Trimming twice is trimming once. */
  lemma TrimIdempotent(s: string)
    ensures Trim(Trim(s)) == Trim(s)
  {
    var r := Trim(s);
    if r != [] {
      assert TrimStart(r) == r;
      assert TrimEnd(r) == r;
    }
  }

  /** "a\n\n\nb".split("\n\n"): the pieces between the leftmost non-overlapping occurrences of `sep`. */
  function Split(s: string, sep: string): (pieces: seq<string>)
    requires |sep| > 0
    ensures |pieces| > 0
    decreases |s|
  {
    SplitFrom(s, sep, 0)
  }

  /** Split `s`, the current piece having begun `k` characters ago (so `s[..k]` is accumulated). */
  function SplitFrom(s: string, sep: string, k: nat): (pieces: seq<string>)
    requires |sep| > 0 && k <= |s|
    ensures |pieces| > 0
    decreases |s|, |s| - k
  {
    if k == |s| then [s]
    else if StartsWith(s[k..], sep) then [s[..k]] + SplitFrom(s[k + |sep|..], sep, 0)
    else SplitFrom(s, sep, k + 1)
  }

  /** `pieces.join(sep)`. */
  function Join(pieces: seq<string>, sep: string): (r: string)
    ensures pieces == [] ==> r == ""
    ensures |pieces| > 0 ==> StartsWith(r, pieces[0])
    decreases |pieces|
  {
    if |pieces| == 0 then ""
    else if |pieces| == 1 then pieces[0]
    else pieces[0] + sep + Join(pieces[1..], sep)
  }

  /** `pieces.join('')` grows by exactly the piece appended. */
  lemma {:induction false} JoinNothingAppend(pieces: seq<string>, last: string)
    ensures Join(pieces + [last], "") == Join(pieces, "") + last
    decreases |pieces|
  {
    if |pieces| == 1 {
      assert pieces + [last] == [pieces[0], last];
    } else if |pieces| > 1 {
      assert (pieces + [last])[1..] == pieces[1..] + [last];
      JoinNothingAppend(pieces[1..], last);
    } else {
      assert pieces + [last] == [last];
    }
  }

  /** `s.replace(from, to)` with a one-character pattern: the first occurrence only. */
  function ReplaceFirst(s: string, from: char, to: char): (r: string)
    ensures |r| == |s|
    decreases |s|
  {
    if |s| == 0 then ""
    else if s[0] == from then [to] + s[1..]
    else [s[0]] + ReplaceFirst(s[1..], from, to)
  }

  /** The first occurrence is the one after a prefix free of the pattern. */
  lemma {:induction false} ReplaceFirstAfter(a: string, from: char, to: char, b: string)
    requires forall i :: 0 <= i < |a| ==> a[i] != from
    ensures ReplaceFirst(a + [from] + b, from, to) == a + [to] + b
    decreases |a|
  {
    if |a| > 0 {
      assert (a + [from] + b)[1..] == a[1..] + [from] + b;
      ReplaceFirstAfter(a[1..], from, to, b);
    } else {
      assert a + [from] + b == [from] + b;
    }
  }

  /** Joining the pieces with the separator gives back the original string. */
  lemma {:induction false} SplitJoin(s: string, sep: string)
    requires |sep| > 0
    ensures Join(Split(s, sep), sep) == s
  {
    SplitFromJoin(s, sep, 0);
  }

  lemma {:induction false} SplitFromJoin(s: string, sep: string, k: nat)
    requires |sep| > 0 && k <= |s|
    ensures Join(SplitFrom(s, sep, k), sep) == s
    decreases |s|, |s| - k
  {
    if k == |s| {
    } else if StartsWith(s[k..], sep) {
      var rest := s[k + |sep|..];
      SplitFromJoin(rest, sep, 0);
      var tail := SplitFrom(rest, sep, 0);
      assert [s[..k]] + tail == SplitFrom(s, sep, k);
      calc {
        Join([s[..k]] + tail, sep);
        s[..k] + sep + Join(tail, sep);
        s[..k] + sep + rest;
        { assert s[k..][..|sep|] == sep; assert s[k..k + |sep|] == sep; }
        s;
      }
    } else {
      SplitFromJoin(s, sep, k + 1);
    }
  }

  /** No piece of a split contains the separator. */
  lemma {:induction false} SplitPiecesFree(s: string, sep: string)
    requires |sep| > 0
    ensures forall p :: p in Split(s, sep) ==> !Contains(p, sep)
  {
    SplitFromFree(s, sep, 0);
  }

  lemma {:induction false} SplitFromFree(s: string, sep: string, k: nat)
    requires |sep| > 0 && k <= |s|
    requires forall j :: 0 <= j < k ==> !StartsWith(s[j..], sep)
    ensures forall p :: p in SplitFrom(s, sep, k) ==> !Contains(p, sep)
    decreases |s|, |s| - k
  {
    if k == |s| {
      NoOccurrenceNoContains(s, sep, k);
      assert s[..k] == s;
    } else if StartsWith(s[k..], sep) {
      NoOccurrenceNoContains(s, sep, k);
      SplitFromFree(s[k + |sep|..], sep, 0);
    } else {
      SplitFromFree(s, sep, k + 1);
    }
  }

  /** If `sep` starts at no position of `s[..k]`, no prefix of `s` of length `k` contains it. */
  lemma {:induction false} NoOccurrenceNoContains(s: string, sep: string, k: nat)
    requires |sep| > 0 && k <= |s|
    requires forall j :: 0 <= j < k ==> !StartsWith(s[j..], sep)
    ensures !Contains(s[..k], sep)
    decreases k
  {
    var p := s[..k];
    if k > 0 {
      assert s[0..] == s;
      assert p[1..] == s[1..][..k - 1];
      forall j | 0 <= j < k - 1 ensures !StartsWith(s[1..][j..], sep) {
        assert s[1..][j..] == s[j + 1..];
      }
      NoOccurrenceNoContains(s[1..], sep, k - 1);
    }
  }

  /** Positions at which `sep` does not start are passed over without cutting. */
  lemma {:induction false} SplitFromAdvance(s: string, sep: string, k: nat, m: nat)
    requires |sep| > 0 && k <= m <= |s|
    requires forall j :: k <= j < m ==> !StartsWith(s[j..], sep)
    ensures SplitFrom(s, sep, k) == SplitFrom(s, sep, m)
    decreases m - k
  {
    if k < m {
      SplitFromAdvance(s, sep, k + 1, m);
    }
  }

  /** A piece in which `sep` starts nowhere, followed by `sep`, is the first piece of the split. */
  lemma SplitAfterPiece(p: string, sep: string, rest: string)
    requires |sep| > 0
    requires forall j :: 0 <= j < |p| ==> !StartsWith((p + sep + rest)[j..], sep)
    ensures Split(p + sep + rest, sep) == [p] + Split(rest, sep)
  {
    var s := p + sep + rest;
    SplitFromAdvance(s, sep, 0, |p|);
    assert s[|p|..][..|sep|] == sep;
    assert s[..|p|] == p;
    assert s[|p| + |sep|..] == rest;
  }

  /** A string in which `sep` starts nowhere splits into itself alone. */
  lemma SplitWhole(p: string, sep: string)
    requires |sep| > 0
    requires forall j :: 0 <= j < |p| ==> !StartsWith(p[j..], sep)
    ensures Split(p, sep) == [p]
  {
    SplitFromAdvance(p, sep, 0, |p|);
  }

  /** For a one-character separator, `sep` starts at exactly the positions holding that character. */
  lemma StartsWithChar(s: string, c: char)
    ensures StartsWith(s, [c]) <==> |s| > 0 && s[0] == c
  {
    if |s| > 0 {
      assert s[..1] == [s[0]];
    }
  }

  /** A text does not start with a pattern it differs from at some position the two share. */
  lemma StartsWithDiffers(s: string, p: string, i: nat)
    requires i < |p| && i < |s| && s[i] != p[i]
    ensures !StartsWith(s, p)
  {
    assert |p| <= |s| ==> s[..|p|][i] == s[i];
  }

  /** `array.filter(Boolean)` on strings: the empty strings are dropped, order is kept. */
  function NonEmpty(pieces: seq<string>): (r: seq<string>)
    ensures forall p :: p in r ==> p != "" && p in pieces
    ensures |r| <= |pieces|
  {
    if |pieces| == 0 then []
    else if pieces[0] == "" then NonEmpty(pieces[1..])
    else [pieces[0]] + NonEmpty(pieces[1..])
  }

  /**
   * `filter(Boolean)` keeps the order: `NonEmpty(pieces)` is what remains of
   * `pieces` when the empty strings are deleted, so it distributes over `+`.
   */
  lemma {:induction false} NonEmptyAppend(a: seq<string>, b: seq<string>)
    ensures NonEmpty(a + b) == NonEmpty(a) + NonEmpty(b)
    decreases |a|
  {
    if |a| > 0 {
      assert (a + b)[1..] == a[1..] + b;
      NonEmptyAppend(a[1..], b);
    } else {
      assert a + b == b;
    }
  }

  /** The digit character for a value below ten. */
  function DigitChar(d: nat): (c: char)
    requires d < 10
    ensures '0' <= c <= '9' && c as int - '0' as int == d
  {
    ('0' as int + d) as char
  }

  predicate IsDigit(c: char) { '0' <= c <= '9' }

  predicate AllDigits(s: string) {
    forall i :: 0 <= i < |s| ==> IsDigit(s[i])
  }

  /** The value of a string of decimal digits. */
  function DigitsValue(s: string): (v: nat)
    requires AllDigits(s)
    decreases |s|
  {
    if |s| == 0 then 0
    else DigitsValue(s[..|s| - 1]) * 10 + (s[|s| - 1] as int - '0' as int)
  }

  /** `n.toString()` for a natural number: its decimal digits, without leading zeros. */
  function NatToString(n: nat): (r: string)
    ensures |r| > 0 && AllDigits(r)
    ensures r[0] == '0' ==> n == 0
    decreases n
  {
    if n < 10 then [DigitChar(n)] else NatToString(n / 10) + [DigitChar(n % 10)]
  }

  /** Reading the digits back gives the number: `NatToString` is injective. */
  lemma {:induction false} NatToStringValue(n: nat)
    ensures DigitsValue(NatToString(n)) == n
    decreases n
  {
    if n >= 10 {
      NatToStringValue(n / 10);
      var s := NatToString(n);
      assert s[..|s| - 1] == NatToString(n / 10);
    }
  }

  /** Zero-padded to width two: the `HH`, `MM` and `SS` fields of an ISO timestamp. */
  function Pad2(n: nat): (r: string)
    requires n < 100
    ensures |r| == 2 && AllDigits(r)
    ensures DigitsValue(r) == n
  {
    var r := [DigitChar(n / 10), DigitChar(n % 10)];
    assert r[..1] == [DigitChar(n / 10)] && [DigitChar(n / 10)][..0] == [];
    assert DigitsValue(r[..1]) == n / 10;
    assert DigitsValue(r) == n / 10 * 10 + n % 10;
    r
  }

  /** Zero-padded to width three: the milliseconds field of an ISO timestamp. */
  function Pad3(n: nat): (r: string)
    requires n < 1000
    ensures |r| == 3 && AllDigits(r)
    ensures DigitsValue(r) == n
  {
    var r := [DigitChar(n / 100), DigitChar(n / 10 % 10), DigitChar(n % 10)];
    assert r[..2] == [DigitChar(n / 100), DigitChar(n / 10 % 10)];
    assert r[..2][..1] == [DigitChar(n / 100)] && [DigitChar(n / 100)][..0] == [];
    assert DigitsValue(r[..2][..1]) == n / 100;
    assert DigitsValue(r[..2]) == n / 100 * 10 + n / 10 % 10 == n / 10;
    assert DigitsValue(r) == n / 10 * 10 + n % 10;
    r
  }

  /** Zero-padded to width four: the year of an ISO date between 0 and 9999. */
  function Pad4(n: nat): (r: string)
    requires n < 10000
    ensures |r| == 4 && AllDigits(r)
    ensures DigitsValue(r) == n
  {
    var r := [DigitChar(n / 1000), DigitChar(n / 100 % 10), DigitChar(n / 10 % 10), DigitChar(n % 10)];
    assert r[..3] == [DigitChar(n / 1000), DigitChar(n / 100 % 10), DigitChar(n / 10 % 10)];
    assert r[..3][..2] == [DigitChar(n / 1000), DigitChar(n / 100 % 10)];
    assert r[..3][..2][..1] == [DigitChar(n / 1000)] && [DigitChar(n / 1000)][..0] == [];
    assert DigitsValue(r[..3][..2][..1]) == n / 1000;
    assert DigitsValue(r[..3][..2]) == n / 1000 * 10 + n / 100 % 10 == n / 100;
    assert DigitsValue(r[..3]) == n / 100 * 10 + n / 10 % 10 == n / 10;
    assert DigitsValue(r) == n / 10 * 10 + n % 10;
    r
  }
}
