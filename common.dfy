/** Shared helpers: the numeric utilities the canvas imports from its shared
    utility module, JavaScript's `%` and decimal number formatting, and a few
    facts about sequences used as ordered key lists. */
module Common {

  datatype Option<T> = None | Some(value: T)

  function Min(a: real, b: real): real { if a <= b then a else b }

  function Max(a: real, b: real): real { if a >= b then a else b }

  function Abs(x: real): real { if x < 0.0 then -x else x }

  function AbsInt(x: int): int { if x < 0 then -x else x }

  /** `lerp(a, b, t)` from the shared utilities, taken to be a + (b - a) * t. */
  function Lerp(a: real, b: real, t: real): (r: real)
    ensures 0.0 <= t <= 1.0 ==> Min(a, b) <= r <= Max(a, b)
    ensures t == 0.0 ==> r == a
    ensures t == 1.0 ==> r == b
  {
    var r := a + (b - a) * t;
    assert 0.0 <= t <= 1.0 ==> Min(a, b) <= r <= Max(a, b) by {
      if 0.0 <= t <= 1.0 {
        if a <= b {
          MulNonNeg(b - a, t);
          MulNonNeg(b - a, 1.0 - t);
        } else {
          MulNonNeg(a - b, t);
          MulNonNeg(a - b, 1.0 - t);
        }
      }
    }
    r
  }

  lemma MulNonNeg(x: real, y: real)
    requires x >= 0.0 && y >= 0.0
    ensures x * y >= 0.0
  {
  }

  /** `clamp(v, lo, hi)` from the shared utilities, taken to be min(max(v, lo), hi). */
  function Clamp(v: real, lo: real, hi: real): (r: real)
    ensures lo <= hi ==> lo <= r <= hi
    ensures lo <= v <= hi ==> r == v
  {
    Min(Max(v, lo), hi)
  }

  lemma ClampMonotone(v: real, w: real, lo: real, hi: real)
    requires v <= w
    ensures Clamp(v, lo, hi) <= Clamp(w, lo, hi)
  {
  }

  /** JavaScript's `a % b` on integers: the remainder takes the sign of the dividend. */
  function JsRem(a: int, b: int): (r: int)
    requires b > 0
    ensures AbsInt(r) < b
    ensures a >= 0 ==> r == a % b
    ensures r != 0 ==> (r < 0 <==> a < 0)
  {
    if a >= 0 then a % b else -((-a) % b)
  }

  /** The decimal digit character of `d`. */
  function DigitChar(d: int): (c: char)
    requires 0 <= d < 10
    ensures '0' <= c <= '9'
    ensures c as int - '0' as int == d
  {
    (48 + d) as char
  }

  /** `${n}` for a non-negative integer: its decimal digits, most significant first. */
  function NatToString(n: nat): (s: string)
    ensures |s| >= 1
    ensures n >= 10 ==> |s| >= 2
    ensures forall i :: 0 <= i < |s| ==> '0' <= s[i] <= '9'
    decreases n
  {
    if n < 10 then [DigitChar(n)] else NatToString(n / 10) + [DigitChar(n % 10)]
  }

  /** `${n}` for an integer: a leading '-' for negative values. */
  function IntToString(n: int): (s: string)
    ensures |s| >= 1
    ensures s[0] == '-' <==> n < 0
    ensures n >= 0 ==> '0' <= s[0] <= '9'
    ensures forall i :: 0 < i < |s| ==> '0' <= s[i] <= '9'
    ensures 0 <= n < 10 ==> s == [DigitChar(n)]
  {
    if n < 0 then "-" + NatToString(-n) else NatToString(n)
  }

  lemma {:induction false} NatToStringInjective(a: nat, b: nat)
    requires NatToString(a) == NatToString(b)
    ensures a == b
    decreases a
  {
    var s := NatToString(a);
    if a < 10 && b < 10 {
      assert DigitChar(a) == s[0] == DigitChar(b);
    } else if a >= 10 && b >= 10 {
      var t := NatToString(b);
      assert s == NatToString(a / 10) + [DigitChar(a % 10)];
      assert t == NatToString(b / 10) + [DigitChar(b % 10)];
      assert DigitChar(a % 10) == s[|s| - 1] == t[|t| - 1] == DigitChar(b % 10);
      assert NatToString(a / 10) == s[..|s| - 1] == t[..|t| - 1] == NatToString(b / 10);
      NatToStringInjective(a / 10, b / 10);
    }
  }

  /** Distinct integers print differently. */
  lemma IntToStringInjective(a: int, b: int)
    requires IntToString(a) == IntToString(b)
    ensures a == b
  {
    var s := IntToString(a);
    if a < 0 && b < 0 {
      assert NatToString(-a) == s[1..] == NatToString(-b);
      NatToStringInjective(-a, -b);
    } else if a >= 0 && b >= 0 {
      NatToStringInjective(a, b);
    }
  }

  lemma IntToStringHasNo(n: int, c: char)
    requires c != '-' && !('0' <= c <= '9')
    ensures c !in IntToString(n)
  {
  }

  /** If a sequence is cut at its first `sep` on both sides of an equation,
      the pieces agree. */
  lemma SplitAtSeparator<T>(a: seq<T>, b: seq<T>, a': seq<T>, b': seq<T>, sep: T)
    requires sep !in a && sep !in a'
    requires a + [sep] + b == a' + [sep] + b'
    ensures a == a' && b == b'
  {
    var s := a + [sep] + b;
    assert s[|a|] == sep;
    assert s[|a'|] == sep;
    assert forall i :: 0 <= i < |a| ==> s[i] == a[i];
    assert forall i :: 0 <= i < |a'| ==> s[i] == a'[i];
    assert |a| == |a'|;
    assert a == s[..|a|] == a';
    assert b == s[|a| + 1..] == b';
  }

  ghost predicate Distinct<T>(s: seq<T>) {
    forall i, j :: 0 <= i < j < |s| ==> s[i] != s[j]
  }

  /** The tail of a duplicate-free sequence is duplicate-free and lacks the head. */
  lemma DistinctTail<T>(s: seq<T>)
    requires Distinct(s) && s != []
    ensures Distinct(s[1..]) && s[0] !in s[1..]
  {
    var t := s[1..];
    forall i, j | 0 <= i < j < |t| ensures t[i] != t[j] {
      assert t[i] == s[i + 1] && t[j] == s[j + 1];
    }
    forall i | 0 <= i < |t| ensures t[i] != s[0] {
      assert t[i] == s[i + 1];
    }
  }

  /** `s` without any occurrence of `x`, the rest in their original order. */
  function Remove<T(==,!new)>(s: seq<T>, x: T): (r: seq<T>)
    ensures x !in r
    ensures forall y :: y in r <==> y in s && y != x
    ensures |r| <= |s|
    ensures x !in s ==> r == s
  {
    if s == [] then [] else if s[0] == x then Remove(s[1..], x) else [s[0]] + Remove(s[1..], x)
  }

  lemma {:induction false} RemoveDistinct<T(!new)>(s: seq<T>, x: T)
    requires Distinct(s)
    ensures Distinct(Remove(s, x))
    ensures x in s ==> |Remove(s, x)| == |s| - 1
  {
    if s != [] {
      assert Distinct(s[1..]);
      RemoveDistinct(s[1..], x);
      if s[0] == x {
        assert x !in s[1..];
      } else {
        var r := Remove(s[1..], x);
        assert s[0] !in r;
        assert Distinct([s[0]] + r) by {
          forall i, j | 0 <= i < j < |[s[0]] + r| ensures ([s[0]] + r)[i] != ([s[0]] + r)[j] {
            if i == 0 { assert ([s[0]] + r)[j] == r[j - 1]; assert r[j - 1] in r; }
          }
        }
      }
    }
  }

  /** `pos` is a strictly increasing map of the positions of `r` into `s`
      that picks out equal elements: `r` is a subsequence of `s`. */
  ghost predicate Embeds<T>(pos: seq<nat>, s: seq<T>, r: seq<T>)
  {
    && |pos| == |r|
    && (forall i :: 0 <= i < |pos| ==> pos[i] < |s| && s[pos[i]] == r[i])
    && (forall i, j :: 0 <= i < j < |pos| ==> pos[i] < pos[j])
  }

  /** Every position moved one further. */
  function Shift(pos: seq<nat>): (q: seq<nat>)
    ensures |q| == |pos| && forall i :: 0 <= i < |q| ==> q[i] == pos[i] + 1
  {
    seq(|pos|, i requires 0 <= i < |pos| => pos[i] + 1)
  }

  /** An embedding into the tail is one into the whole, shifted by one. */
  lemma EmbedsShift<T>(pos: seq<nat>, s: seq<T>, r: seq<T>)
    requires s != [] && Embeds(pos, s[1..], r)
    ensures Embeds(Shift(pos), s, r)
  {
    forall i | 0 <= i < |pos| ensures s[pos[i] + 1] == r[i] {
      assert s[pos[i] + 1] == s[1..][pos[i]];
    }
  }

  /** ... and the head can be put in front. */
  lemma EmbedsCons<T>(pos: seq<nat>, s: seq<T>, r: seq<T>)
    requires s != [] && Embeds(Shift(pos), s, r)
    ensures Embeds([0] + Shift(pos), s, [s[0]] + r)
  {
    var q := [0] + Shift(pos);
    assert forall i :: 1 <= i < |q| ==> q[i] == Shift(pos)[i - 1];
  }

  /** Removing `x` keeps the relative order of everything else: the result is a
      subsequence of `s` (witnessed by the strictly increasing index map `pos`). */
  lemma {:induction false} RemoveKeepsOrder<T(!new)>(s: seq<T>, x: T) returns (pos: seq<nat>)
    ensures Embeds(pos, s, Remove(s, x))
  {
    if s == [] {
      pos := [];
    } else {
      var p := RemoveKeepsOrder(s[1..], x);
      EmbedsShift(p, s, Remove(s[1..], x));
      if s[0] == x {
        pos := Shift(p);
      } else {
        EmbedsCons(p, s, Remove(s[1..], x));
        pos := [0] + Shift(p);
      }
    }
  }

  /** The number of distinct elements of a duplicate-free sequence is its length. */
  lemma {:induction false} DistinctCard<T>(s: seq<T>)
    requires Distinct(s)
    ensures |set x | x in s| == |s|
  {
    if s != [] {
      assert Distinct(s[1..]);
      DistinctCard(s[1..]);
      assert (set x | x in s) == {s[0]} + (set x | x in s[1..]);
      assert s[0] !in s[1..];
    }
  }

  /** The keys of `m` are exactly the elements of `s`. */
  ghost predicate KeysMatch<K(!new), V>(s: seq<K>, m: map<K, V>) {
    forall k :: k in m <==> k in s
  }

  /** `m` cut down to the keys listed in `s`. */
  function Restrict<K(!new), V>(m: map<K, V>, s: seq<K>): (r: map<K, V>)
    ensures forall k :: k in r <==> k in m && k in s
    ensures forall k :: k in r ==> r[k] == m[k]
  {
    map k | k in m && k in s :: m[k]
  }

  /** Deleting a key and setting it again to its value gives the same table. */
  lemma ReinsertSame<K, V>(m: map<K, V>, k: K)
    requires k in m
    ensures (m - {k})[k := m[k]] == m
  {
  }

  /** Dropping the first listed key from the restriction. */
  lemma RestrictTail<K(!new), V>(m: map<K, V>, s: seq<K>)
    requires Distinct(s) && s != []
    ensures Restrict(m, s[1..]) == Restrict(m, s) - {s[0]}
  {
    assert s[0] !in s[1..];
    forall k ensures k in s <==> k == s[0] || k in s[1..] {
      if k in s && k != s[0] {
        var i :| 0 <= i < |s| && s[i] == k;
        assert s[1..][i - 1] == k;
      }
    }
  }

  /** The number of entries equals the number of listed keys. */
  lemma KeysMatchSize<K(!new), V>(s: seq<K>, m: map<K, V>)
    requires Distinct(s) && KeysMatch(s, m)
    ensures |m| == |s|
  {
    DistinctCard(s);
    assert m.Keys == set k | k in s;
  }
}
