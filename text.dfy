/**
 * String helpers standing in for the parts of Go's `strings` and `strconv`
 * packages that the core uses. Case mapping is ASCII only.
 */
module Text {
  import opened Wrappers

  predicate IsUpperAscii(c: char) { 'A' <= c <= 'Z' }
  predicate IsLowerAscii(c: char) { 'a' <= c <= 'z' }
  predicate IsDigit(c: char) { '0' <= c <= '9' }
  predicate IsLetter(c: char) { IsUpperAscii(c) || IsLowerAscii(c) }

  function UpperChar(c: char): (r: char)
    ensures IsLowerAscii(c) ==> IsUpperAscii(r)
    ensures !IsLowerAscii(c) ==> r == c
  {
    if IsLowerAscii(c) then (c as int - 32) as char else c
  }

  function LowerChar(c: char): (r: char)
    ensures IsUpperAscii(c) ==> IsLowerAscii(r)
    ensures !IsUpperAscii(c) ==> r == c
  {
    if IsUpperAscii(c) then (c as int + 32) as char else c
  }

  /** strings.ToLower, restricted to ASCII letters. */
  function ToLower(s: string): (r: string)
    ensures |r| == |s|
    ensures forall i :: 0 <= i < |s| ==> r[i] == LowerChar(s[i])
  {
    seq(|s|, i requires 0 <= i < |s| => LowerChar(s[i]))
  }

  /** strings.ToUpper, restricted to ASCII letters. */
  function ToUpper(s: string): (r: string)
    ensures |r| == |s|
    ensures forall i :: 0 <= i < |s| ==> r[i] == UpperChar(s[i])
  {
    seq(|s|, i requires 0 <= i < |s| => UpperChar(s[i]))
  }

  /** Lower-casing twice is lower-casing once. */
  lemma ToLowerIdempotent(s: string)
    ensures ToLower(ToLower(s)) == ToLower(s)
  {
    assert forall i :: 0 <= i < |s| ==> LowerChar(LowerChar(s[i])) == LowerChar(s[i]);
  }

  predicate HasPrefix(s: string, p: string) {
    |p| <= |s| && s[..|p|] == p
  }

  /** strings.Split with a one-character separator: never empty, empty pieces kept. */
  function Split(s: string, c: char): (r: seq<string>)
    ensures |r| >= 1
    ensures forall k :: 0 <= k < |r| ==> c !in r[k]
    decreases |s|
  {
    if |s| == 0 then [""]
    else
      var rest := Split(s[1..], c);
      if s[0] == c then [""] + rest
      else [[s[0]] + rest[0]] + rest[1..]
  }

  /** A string without the separator splits into itself. */
  lemma {:induction false} SplitWithoutSeparator(s: string, c: char)
    requires c !in s
    ensures Split(s, c) == [s]
    decreases |s|
  {
    if |s| > 0 {
      assert c !in s[1..] by {
        assert forall i :: 0 <= i < |s[1..]| ==> s[1..][i] == s[i + 1];
      }
      SplitWithoutSeparator(s[1..], c);
      assert [s[0]] + s[1..] == s;
    }
  }

  /** Splitting at the first separator: the piece before it, then the pieces of the rest. */
  lemma {:induction false} SplitAtFirst(a: string, c: char, b: string)
    requires c !in a
    ensures Split(a + [c] + b, c) == [a] + Split(b, c)
    decreases |a|
  {
    var s := a + [c] + b;
    if |a| == 0 {
      assert s == [c] + b;
      assert s[1..] == b;
    } else {
      assert s[1..] == a[1..] + [c] + b;
      assert c !in a[1..] by {
        assert forall i :: 0 <= i < |a[1..]| ==> a[1..][i] == a[i + 1];
      }
      SplitAtFirst(a[1..], c, b);
      assert [a[0]] + a[1..] == a;
    }
  }

  /** The first piece of a split is the prefix up to the first separator, or the whole string. */
  lemma {:induction false} SplitHead(s: string, c: char)
    ensures HasPrefix(s, Split(s, c)[0])
    ensures |Split(s, c)[0]| == |s| || s[|Split(s, c)[0]|] == c
    decreases |s|
  {
    if |s| > 0 && s[0] != c {
      SplitHead(s[1..], c);
      var h := Split(s[1..], c)[0];
      assert Split(s, c)[0] == [s[0]] + h;
      assert s[1..][..|h|] == h;
      assert s[..|h| + 1] == [s[0]] + s[1..][..|h|];
      if |h| < |s[1..]| {
        assert s[|h| + 1] == s[1..][|h|];
      }
    }
  }

  /** strings.Join. */
  function Join(parts: seq<string>, sep: string): string
    decreases |parts|
  {
    if |parts| == 0 then ""
    else if |parts| == 1 then parts[0]
    else parts[0] + sep + Join(parts[1..], sep)
  }

  /** Every occurrence of `c` replaced by `d`. */
  function Replace(s: string, c: char, d: char): (r: string)
    ensures |r| == |s|
    ensures forall i :: 0 <= i < |s| ==> r[i] == if s[i] == c then d else s[i]
  {
    seq(|s|, i requires 0 <= i < |s| => if s[i] == c then d else s[i])
  }

  /** Replacing in a non-empty string: the first character, then the rest. */
  lemma ReplaceCons(s: string, c: char, d: char)
    requires |s| > 0
    ensures Replace(s, c, d) == [if s[0] == c then d else s[0]] + Replace(s[1..], c, d)
  {
    var r := [if s[0] == c then d else s[0]] + Replace(s[1..], c, d);
    forall i | 0 <= i < |s| ensures Replace(s, c, d)[i] == r[i] {
      if i > 0 {
        assert r[i] == Replace(s[1..], c, d)[i - 1];
      }
    }
  }

  /** An empty first part contributes only the separator. */
  lemma JoinEmptyHead(rest: seq<string>, sep: string)
    requires |rest| >= 1
    ensures Join([""] + rest, sep) == sep + Join(rest, sep)
  {
    assert ([""] + rest)[1..] == rest;
  }

  /** A character put in front of the first part comes first in the join. */
  lemma JoinConsHead(x: char, rest: seq<string>, sep: string)
    requires |rest| >= 1
    ensures Join([[x] + rest[0]] + rest[1..], sep) == [x] + Join(rest, sep)
  {
    var r := [[x] + rest[0]] + rest[1..];
    if |rest| > 1 {
      assert r[1..] == rest[1..];
      assert Join(r, sep) == ([x] + rest[0]) + sep + Join(rest[1..], sep);
    }
  }

  /** Joining the pieces of a split on `c` with `d` replaces each `c` by `d`. */
  lemma {:induction false} JoinSplitReplace(s: string, c: char, d: char)
    ensures Join(Split(s, c), [d]) == Replace(s, c, d)
    decreases |s|
  {
    if |s| > 0 {
      var rest := Split(s[1..], c);
      JoinSplitReplace(s[1..], c, d);
      ReplaceCons(s, c, d);
      if s[0] == c {
        JoinEmptyHead(rest, [d]);
      } else {
        JoinConsHead(s[0], rest, [d]);
      }
    }
  }

  /** Joining the pieces of a split with the separator gives back the input. */
  lemma JoinSplit(s: string, c: char)
    ensures Join(Split(s, c), [c]) == s
  {
    JoinSplitReplace(s, c, c);
    assert Replace(s, c, c) == s;
  }

  /** Lower-casing every part of a join, separator included, is lower-casing the join. */
  lemma {:induction false} ToLowerJoin(parts: seq<string>, sep: string)
    ensures ToLower(Join(parts, sep)) == Join(seq(|parts|, i requires 0 <= i < |parts| => ToLower(parts[i])), ToLower(sep))
    decreases |parts|
  {
    var low := seq(|parts|, i requires 0 <= i < |parts| => ToLower(parts[i]));
    if |parts| >= 2 {
      ToLowerJoin(parts[1..], sep);
      assert low[1..] == seq(|parts[1..]|, i requires 0 <= i < |parts[1..]| => ToLower(parts[1..][i]));
      ToLowerConcat(parts[0] + sep, Join(parts[1..], sep));
      ToLowerConcat(parts[0], sep);
    }
  }

  lemma ToLowerConcat(a: string, b: string)
    ensures ToLower(a + b) == ToLower(a) + ToLower(b)
  {
  }

  /** unicode.IsSpace: the Unicode White_Space characters. */
  predicate IsSpace(c: char) {
    c == '\t' || c == '\n' || c == '\U{0B}' || c == '\U{0C}' || c == '\r' || c == ' '
    || c == '\U{85}' || c == '\U{A0}' || c == '\U{1680}'
    || ('\U{2000}' <= c <= '\U{200A}') || c == '\U{2028}' || c == '\U{2029}'
    || c == '\U{202F}' || c == '\U{205F}' || c == '\U{3000}'
  }

  function TrimLeft(s: string): (r: string)
    ensures |r| <= |s| && r == s[|s| - |r|..]
    ensures r == [] || !IsSpace(r[0])
    ensures forall i :: 0 <= i < |s| - |r| ==> IsSpace(s[i])
  {
    if |s| > 0 && IsSpace(s[0]) then TrimLeft(s[1..]) else s
  }

  function TrimRight(s: string): (r: string)
    ensures |r| <= |s| && r == s[..|r|]
    ensures r == [] || !IsSpace(r[|r| - 1])
    ensures forall i :: |r| <= i < |s| ==> IsSpace(s[i])
  {
    if |s| > 0 && IsSpace(s[|s| - 1]) then TrimRight(s[..|s| - 1]) else s
  }

  /** strings.TrimSpace: drops leading and trailing white space. */
  function TrimSpace(s: string): (r: string)
    ensures |r| <= |s|
    ensures r == [] || (!IsSpace(r[0]) && !IsSpace(r[|r| - 1]))
  {
    TrimRight(TrimLeft(s))
  }

  /** What TrimSpace keeps is one contiguous piece of its input. */
  lemma TrimSpaceSlice(s: string)
    ensures exists i, j :: 0 <= i <= j <= |s| && TrimSpace(s) == s[i..j]
  {
    var l := TrimLeft(s);
    var r := TrimRight(l);
    SliceOfSlice(s, l, r);
    var i := |s| - |l|;
    assert TrimSpace(s) == s[i..i + |r|];
  }

  /** A prefix of a suffix is a slice. */
  lemma SliceOfSlice(s: string, l: string, r: string)
    requires |l| <= |s| && l == s[|s| - |l|..]
    requires |r| <= |l| && r == l[..|r|]
    ensures r == s[|s| - |l|..|s| - |l| + |r|]
  {
    var i := |s| - |l|;
    forall k | 0 <= k < |r| ensures r[k] == s[i + k] {
      assert r[k] == l[k];
    }
  }

  /** A string with no white space at either end is its own trim. */
  lemma TrimSpaceUnchanged(s: string)
    requires |s| > 0 && !IsSpace(s[0]) && !IsSpace(s[|s| - 1])
    ensures TrimSpace(s) == s
  {
    assert TrimLeft(s) == s;
    assert TrimRight(s) == s;
  }

  /** Index of the first occurrence of `c`, if any. */
  function IndexOf(s: string, c: char): (r: Option<nat>)
    ensures r.None? <==> c !in s
    ensures r.Some? ==> r.value < |s| && s[r.value] == c && c !in s[..r.value]
  {
    if |s| == 0 then None
    else if s[0] == c then Some(0)
    else match IndexOf(s[1..], c)
      case None => None
      case Some(k) => assert s[..k + 1] == [s[0]] + s[1..][..k]; Some(k + 1)
  }

  /** A position holding `c` with no `c` before it is what IndexOf returns. */
  lemma {:induction false} IndexOfFirst(s: string, c: char, q: nat)
    requires q < |s| && s[q] == c && c !in s[..q]
    ensures IndexOf(s, c) == Some(q)
    decreases q
  {
    if q > 0 {
      assert s[0] in s[..q];
      assert s[1..][..q - 1] == s[1..q];
      assert forall x :: x in s[1..q] ==> x in s[..q];
      IndexOfFirst(s[1..], c, q - 1);
    }
  }

  /** Index of the last occurrence of `c`, if any. */
  function LastIndexOf(s: string, c: char): (r: Option<nat>)
    ensures r.None? <==> c !in s
    ensures r.Some? ==> r.value < |s| && s[r.value] == c && c !in s[r.value + 1..]
  {
    if |s| == 0 then None
    else if s[|s| - 1] == c then Some(|s| - 1)
    else
      var k := LastIndexOf(s[..|s| - 1], c);
      assert forall x :: x in s[..|s| - 1] ==> x in s;
      if k.Some? then assert s[k.value + 1..] == s[..|s| - 1][k.value + 1..] + [s[|s| - 1]]; k
      else assert s == s[..|s| - 1] + [s[|s| - 1]]; k
  }

  /** A position holding c with no c after it is the last one. */
  lemma LastIndexOfLast(s: string, c: char, q: nat)
    requires q < |s| && s[q] == c && c !in s[q + 1..]
    ensures LastIndexOf(s, c) == Some(q)
  {
    assert s[q] in s;
    var v := LastIndexOf(s, c).value;
    var t := s[q + 1..];
    var u := s[v + 1..];
    assert forall j :: q < j < |s| ==> s[j] == t[j - q - 1];
    assert forall j :: v < j < |s| ==> s[j] == u[j - v - 1];
  }

  /** A character in neither part is not in their concatenation. */
  lemma NotInConcat(x: string, y: string, c: char)
    requires c !in x && c !in y
    ensures c !in x + y
  {
    assert forall k :: 0 <= k < |x + y| ==> (x + y)[k] == (if k < |x| then x[k] else y[k - |x|]);
  }

  /** 10 to the power n. */
  function TenTo(n: nat): (r: nat)
    ensures r >= 1
  {
    if n == 0 then 1 else 10 * TenTo(n - 1)
  }

  function DigitChar(d: nat): (c: char)
    requires d < 10
    ensures IsDigit(c)
    ensures (c == '0') <==> (d == 0)
  {
    ('0' as int + d) as char
  }

  /** strconv.Itoa for a non-negative value: decimal digits, no leading zero. */
  function Decimal(n: nat): (r: string)
    ensures |r| >= 1
    ensures forall i :: 0 <= i < |r| ==> IsDigit(r[i])
    ensures n >= 10 ==> r[0] != '0'
  {
    if n < 10 then [DigitChar(n)] else Decimal(n / 10) + [DigitChar(n % 10)]
  }

  /** A number in [10^(d-1), 10^d) has exactly d decimal digits, the first non-zero. */
  lemma {:induction false} DecimalLength(n: nat, d: nat)
    requires d >= 1 && TenTo(d - 1) <= n < TenTo(d)
    ensures |Decimal(n)| == d
    ensures Decimal(n)[0] != '0'
  {
    if d == 1 {
      assert TenTo(1) == 10;
      assert n >= 1;
    } else {
      assert TenTo(d) == 10 * TenTo(d - 1);
      assert TenTo(d - 1) == 10 * TenTo(d - 2);
      assert n >= 10;
      DecimalLength(n / 10, d - 1);
    }
  }
}
