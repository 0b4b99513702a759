/**
 * The JavaScript string operations the webhook relies on, over strings of
 * Unicode scalar values: `trim`, `split` on a one-character separator,
 * `replace` of one character by another, `includes`, `startsWith`,
 * `endsWith`, the UTF-16 `length`, and the way a template literal or an
 * `||` default renders a nullable value.
 */
module JsString {
  import opened Options

  /** The characters `String.prototype.trim` removes: ECMAScript WhiteSpace and LineTerminator. */
  predicate IsSpace(c: char) {
    var n := c as int;
    n == 0x09 || n == 0x0A || n == 0x0B || n == 0x0C || n == 0x0D || n == 0x20
    || n == 0xA0 || n == 0x1680 || (0x2000 <= n <= 0x200A)
    || n == 0x2028 || n == 0x2029 || n == 0x202F || n == 0x205F
    || n == 0x3000 || n == 0xFEFF
  }

  predicate AllSpace(s: string) {
    forall i :: 0 <= i < |s| ==> IsSpace(s[i])
  }

  /** Neither end of `s` is whitespace. */
  predicate IsTrimmed(s: string) {
    s == [] || (!IsSpace(s[0]) && !IsSpace(s[|s| - 1]))
  }

  /** `s.trimStart()`: a suffix of `s` that does not start with whitespace. */
  function TrimStart(s: string): (r: string)
    ensures |r| <= |s| && r == s[|s| - |r|..]
    ensures r == [] || !IsSpace(r[0])
  {
    if s != [] && IsSpace(s[0]) then TrimStart(s[1..]) else s
  }

  /** `s.trimEnd()`: a prefix of `s` that does not end with whitespace. */
  function TrimEnd(s: string): (r: string)
    ensures |r| <= |s| && r == s[..|r|]
    ensures r == [] || !IsSpace(r[|r| - 1])
  {
    if s != [] && IsSpace(s[|s| - 1]) then TrimEnd(s[..|s| - 1]) else s
  }

  /** What `TrimStart` removes is whitespace. */
  lemma {:induction false} TrimStartSpaces(s: string)
    ensures AllSpace(s[..|s| - |TrimStart(s)|])
    decreases |s|
  {
    if s != [] && IsSpace(s[0]) {
      var tail := s[1..];
      TrimStartSpaces(tail);
      var k := |tail| - |TrimStart(tail)|;
      var gone := s[..|s| - |TrimStart(s)|];
      assert |gone| == k + 1;
      forall i | 0 <= i < |gone| ensures IsSpace(gone[i]) {
        if i > 0 { assert gone[i] == tail[..k][i - 1]; }
      }
    }
  }

  /** What `TrimEnd` removes is whitespace. */
  lemma {:induction false} TrimEndSpaces(s: string)
    ensures AllSpace(s[|TrimEnd(s)|..])
    decreases |s|
  {
    if s != [] && IsSpace(s[|s| - 1]) {
      var init := s[..|s| - 1];
      TrimEndSpaces(init);
      var k := |TrimEnd(init)|;
      var gone := s[k..];
      forall i | 0 <= i < |gone| ensures IsSpace(gone[i]) {
        if i < |gone| - 1 { assert gone[i] == init[k..][i]; }
      }
    }
  }

  /** `s.trim()`: what is left of `s` after removing whitespace at both ends. */
  function Trim(s: string): (r: string)
    ensures |r| <= |s| && IsTrimmed(r)
  {
    var t := TrimStart(s);
    var r := TrimEnd(t);
    if r == [] then r
    else
      assert r[0] == t[0];
      r
  }

  /** `Trim(s)` is an infix of `s` whose borders are all whitespace. */
  lemma TrimIsInfix(s: string)
    ensures exists a, b :: 0 <= a <= b <= |s| && Trim(s) == s[a..b] && AllSpace(s[..a]) && AllSpace(s[b..])
  {
    var t := TrimStart(s);
    var r := TrimEnd(t);
    TrimStartSpaces(s);
    TrimEndSpaces(t);
    var a := |s| - |t|;
    assert r == s[a..a + |r|];
    assert s[a + |r|..] == t[|r|..];
  }

  lemma {:induction false} TrimStartAt(s: string, a: nat)
    requires a <= |s| && AllSpace(s[..a]) && (a == |s| || !IsSpace(s[a]))
    ensures TrimStart(s) == s[a..]
    decreases a
  {
    if a > 0 {
      var tail := s[1..];
      assert IsSpace(s[0]) by { assert s[..a][0] == s[0]; }
      var pre := tail[..a - 1];
      assert AllSpace(pre) by {
        forall i | 0 <= i < |pre| ensures IsSpace(pre[i]) {
          assert pre[i] == s[..a][i + 1];
        }
      }
      assert a - 1 == |tail| || !IsSpace(tail[a - 1]) by {
        if a < |s| { assert tail[a - 1] == s[a]; }
      }
      TrimStartAt(tail, a - 1);
      assert tail[a - 1..] == s[a..];
    }
  }

  lemma {:induction false} TrimEndAt(s: string, b: nat)
    requires b <= |s| && AllSpace(s[b..]) && (b == 0 || !IsSpace(s[b - 1]))
    ensures TrimEnd(s) == s[..b]
    decreases |s| - b
  {
    if b < |s| {
      assert s[b..][|s| - 1 - b] == s[|s| - 1];
      var s' := s[..|s| - 1];
      assert s'[b..] == s[b..|s| - 1];
      assert s'[..b] == s[..b];
      TrimEndAt(s', b);
    } else {
      assert s[..b] == s;
    }
  }

  /** Trim is determined by its contract: any trimmed infix with whitespace borders is the trim. */
  lemma TrimUnique(s: string, a: nat, b: nat)
    requires a <= b <= |s| && AllSpace(s[..a]) && AllSpace(s[b..]) && IsTrimmed(s[a..b])
    ensures Trim(s) == s[a..b]
  {
    if a < b {
      assert s[a] == s[a..b][0];
      TrimStartAt(s, a);
      TrimEndInner(s, a, b);
    } else {
      AllSpaceJoin(s, a, b);
      assert s[..|s|] == s;
      TrimStartAt(s, |s|);
    }
  }

  lemma TrimEndInner(s: string, a: nat, b: nat)
    requires a < b <= |s| && AllSpace(s[b..]) && !IsSpace(s[b - 1])
    ensures TrimEnd(s[a..]) == s[a..b]
  {
    var t := s[a..];
    assert t[b - a..] == s[b..];
    assert t[b - a - 1] == s[b - 1];
    TrimEndAt(t, b - a);
    assert t[..b - a] == s[a..b];
  }

  lemma AllSpaceJoin(s: string, a: nat, b: nat)
    requires a == b <= |s| && AllSpace(s[..a]) && AllSpace(s[b..])
    ensures AllSpace(s)
  {
    forall i | 0 <= i < |s| ensures IsSpace(s[i]) {
      if i < a { assert s[..a][i] == s[i]; } else { assert s[b..][i - b] == s[i]; }
    }
  }

  /** Trimming is idempotent. */
  lemma TrimTrimmed(s: string)
    requires IsTrimmed(s)
    ensures Trim(s) == s
  {
    assert s[..0] == [] && s[|s|..] == [] && s[0..|s|] == s;
    TrimUnique(s, 0, |s|);
  }

  /** Every character of `Trim(s)` comes from `s`. */
  lemma TrimChars(s: string, c: char)
    requires c in Trim(s)
    ensures c in s
  {
    var t := TrimStart(s);
    var r := TrimEnd(t);
    assert Trim(s) == r;
    var i :| 0 <= i < |r| && r[i] == c;
    assert t[i] == c;
    assert s[|s| - |t| + i] == c;
  }

  /** The pieces between separators, joined back together. */
  function Join(pieces: seq<string>, sep: char): string
    requires |pieces| >= 1
  {
    if |pieces| == 1 then pieces[0] else pieces[0] + [sep] + Join(pieces[1..], sep)
  }

  /** `s.split(sep)` for a one-character separator. */
  function Split(s: string, sep: char): (r: seq<string>)
    ensures |r| >= 1
    decreases |s|
  {
    if s == [] then [[]]
    else
      var rest := Split(s[1..], sep);
      if s[0] == sep then [[]] + rest
      else [[s[0]] + rest[0]] + rest[1..]
  }

  /** The pieces hold no separator, and joining them with the separator gives back the text. */
  lemma {:induction false} SplitPieces(s: string, sep: char)
    ensures forall i :: 0 <= i < |Split(s, sep)| ==> sep !in Split(s, sep)[i]
    ensures Join(Split(s, sep), sep) == s
    decreases |s|
  {
    if s != [] {
      var rest := Split(s[1..], sep);
      SplitPieces(s[1..], sep);
      var r := Split(s, sep);
      if s[0] == sep {
        assert r == [[]] + rest;
        assert r[1..] == rest;
        assert s == [sep] + s[1..];
        forall i | 0 <= i < |r| ensures sep !in r[i] {
          if i > 0 { assert r[i] == rest[i - 1]; }
        }
      } else {
        assert r == [[s[0]] + rest[0]] + rest[1..];
        assert r[1..] == rest[1..];
        assert s == [s[0]] + s[1..];
        forall i | 0 <= i < |r| ensures sep !in r[i] {
          if i > 0 { assert r[i] == rest[i]; }
        }
        if |rest| > 1 {
          assert Join(rest, sep) == rest[0] + [sep] + Join(rest[1..], sep);
        }
      }
    }
  }

  lemma {:induction false} SplitSeparated(p: string, sep: char, t: string)
    requires sep !in p
    ensures Split(p + [sep] + t, sep) == [p] + Split(t, sep)
    decreases |p|
  {
    if p == [] {
      assert ([] + [sep] + t)[1..] == t;
    } else {
      SplitSeparated(p[1..], sep, t);
      assert (p + [sep] + t)[1..] == p[1..] + [sep] + t;
      assert [p[0]] + p[1..] == p;
    }
  }

  /** Splitting on a separator that the parts do not hold undoes `Join`. */
  lemma {:induction false} SplitJoin(pieces: seq<string>, sep: char)
    requires |pieces| >= 1
    requires forall i :: 0 <= i < |pieces| ==> sep !in pieces[i]
    ensures Split(Join(pieces, sep), sep) == pieces
  {
    if |pieces| > 1 {
      SplitJoin(pieces[1..], sep);
      SplitSeparated(pieces[0], sep, Join(pieces[1..], sep));
      assert [pieces[0]] + pieces[1..] == pieces;
    } else {
      var p := pieces[0];
      assert Split(p, sep) == [p] by {
        assert p + [sep] + [] == p + [sep];
        assert p == p + [];
        SplitNoSeparator(p, sep);
      }
    }
  }

  lemma {:induction false} SplitNoSeparator(p: string, sep: char)
    requires sep !in p
    ensures Split(p, sep) == [p]
    decreases |p|
  {
    if p != [] {
      SplitNoSeparator(p[1..], sep);
      assert [p[0]] + p[1..] == p;
    }
  }

  /** Joining two lists of pieces puts one separator between the two joins. */
  lemma {:induction false} JoinAppend(p: seq<string>, q: seq<string>, sep: char)
    requires |p| >= 1 && |q| >= 1
    ensures Join(p + q, sep) == Join(p, sep) + [sep] + Join(q, sep)
    decreases |p|
  {
    var pq := p + q;
    assert pq[0] == p[0];
    if |p| == 1 {
      assert pq[1..] == q;
    } else {
      assert pq[1..] == p[1..] + q;
      JoinAppend(p[1..], q, sep);
    }
  }

  /** One more separator in the text gives the pieces of both sides, side by side. */
  lemma {:induction false} SplitAround(a: string, sep: char, b: string)
    ensures Split(a + [sep] + b, sep) == Split(a, sep) + Split(b, sep)
  {
    var p, q := Split(a, sep), Split(b, sep);
    var pq := p + q;
    SplitPieces(a, sep);
    SplitPieces(b, sep);
    JoinAppend(p, q, sep);
    assert Join(pq, sep) == a + [sep] + b;
    forall i | 0 <= i < |pq| ensures sep !in pq[i] {
      if i < |p| { assert pq[i] == p[i]; } else { assert pq[i] == q[i - |p|]; }
    }
    SplitJoin(pq, sep);
  }

  /** `s.replace(/from/g, to)` for single characters. */
  function ReplaceAll(s: string, from: char, to: char): (r: string)
    ensures |r| == |s|
    ensures forall i :: 0 <= i < |s| ==> r[i] == (if s[i] == from then to else s[i])
  {
    if s == [] then [] else [if s[0] == from then to else s[0]] + ReplaceAll(s[1..], from, to)
  }

  /** After replacing `from` by a different character, no `from` is left. */
  lemma ReplaceAllRemoves(s: string, from: char, to: char)
    requires from != to
    ensures from !in ReplaceAll(s, from, to)
  {
    var r := ReplaceAll(s, from, to);
    forall i | 0 <= i < |r| ensures r[i] != from {
      assert r[i] == (if s[i] == from then to else s[i]);
    }
  }

  lemma ReplaceAllAppend(a: string, b: string, from: char, to: char)
    ensures ReplaceAll(a + b, from, to) == ReplaceAll(a, from, to) + ReplaceAll(b, from, to)
  {
    var l, r := ReplaceAll(a + b, from, to), ReplaceAll(a, from, to) + ReplaceAll(b, from, to);
    assert |l| == |r|;
    forall i | 0 <= i < |l| ensures l[i] == r[i] {
      if i < |a| { assert (a + b)[i] == a[i]; } else { assert (a + b)[i] == b[i - |a|]; }
    }
  }

  predicate StartsWith(s: string, prefix: string) {
    |prefix| <= |s| && s[..|prefix|] == prefix
  }

  predicate EndsWith(s: string, suffix: string) {
    |suffix| <= |s| && s[|s| - |suffix|..] == suffix
  }

  /** `s.includes(k)`: whether `k` is a prefix of `s` or of one of its tails. */
  function Includes(s: string, k: string): bool
    decreases |s|
  {
    if StartsWith(s, k) then true
    else if s == [] then false
    else Includes(s[1..], k)
  }

  /** `Includes` holds exactly when `k` occurs in `s` at some position. */
  lemma IncludesMeaning(s: string, k: string)
    ensures Includes(s, k) <==> exists i, j :: 0 <= i <= j <= |s| && s[i..j] == k
  {
    if Includes(s, k) {
      IncludesWitness(s, k);
    } else {
      forall i, j | 0 <= i <= j <= |s| ensures s[i..j] != k {
        if s[i..j] == k { IncludesAt(s, k, i, j); }
      }
    }
  }

  /** An occurrence of `k` at any position makes `Includes` hold. */
  lemma {:induction false} IncludesAt(s: string, k: string, i: nat, j: nat)
    requires i <= j <= |s| && s[i..j] == k
    ensures Includes(s, k)
    decreases i
  {
    if i == 0 {
      assert s[..|k|] == k;
    } else if !StartsWith(s, k) {
      SliceOfTail(s, i, j);
      IncludesAt(s[1..], k, i - 1, j - 1);
    }
  }

  /** When `Includes` holds, `k` occurs at some position. */
  lemma {:induction false} IncludesWitness(s: string, k: string)
    requires Includes(s, k)
    ensures exists i, j :: 0 <= i <= j <= |s| && s[i..j] == k
    decreases |s|
  {
    if StartsWith(s, k) {
      assert s[0..|k|] == k;
    } else {
      IncludesWitness(s[1..], k);
      var i, j :| 0 <= i <= j <= |s| - 1 && s[1..][i..j] == k;
      assert s[i + 1..j + 1] == k;
    }
  }

  lemma SliceOfTail(s: string, i: nat, j: nat)
    requires 0 < i <= j <= |s|
    ensures s[1..][i - 1..j - 1] == s[i..j]
  {
  }

  /** The number of UTF-16 code units of one character. */
  function CodeUnits(c: char): nat {
    if c as int < 0x10000 then 1 else 2
  }

  /** JavaScript's `s.length`, which counts UTF-16 code units. */
  function Utf16Length(s: string): (n: nat)
    ensures |s| <= n <= 2 * |s|
  {
    if s == [] then 0 else CodeUnits(s[0]) + Utf16Length(s[1..])
  }

  /** A string has JavaScript length 1 exactly when it is one character of the Basic Multilingual Plane. */
  lemma {:induction false} Utf16LengthOne(s: string)
    ensures Utf16Length(s) == 1 <==> |s| == 1 && s[0] as int < 0x10000
  {
    if |s| >= 1 {
      var n := Utf16Length(s[1..]);
      assert |s[1..]| <= n;
    }
  }

  /** A nullable string as a template literal `${v}` renders it. */
  function Show(v: Option<string>): string {
    match v
    case Some(s) => s
    case None => "null"
  }

  /** `v || fallback` on a nullable string: null and the empty string both fall back. */
  function OrElse(v: Option<string>, fallback: string): string {
    if v.Some? && v.value != [] then v.value else fallback
  }
}
