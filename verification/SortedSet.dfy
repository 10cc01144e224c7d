/** A Redis sorted set: members with scores, read in ascending order of
    (score, bytes of the member). */
module SortedSet {
  import opened Decimal

  type ZSet = map<string, nat>

  /** a is equal to b or precedes it byte by byte. */
  predicate Lex(a: string, b: string) {
    |a| == 0 || (|b| > 0 && (a[0] < b[0] || (a[0] == b[0] && Lex(a[1..], b[1..]))))
  }

  lemma LexReflexive(a: string)
    ensures Lex(a, a)
  {
  }

  lemma {:induction false} LexTotal(a: string, b: string)
    ensures Lex(a, b) || Lex(b, a)
  {
    if |a| > 0 && |b| > 0 { LexTotal(a[1..], b[1..]); }
  }

  lemma {:induction false} LexAntisymmetric(a: string, b: string)
    requires Lex(a, b) && Lex(b, a)
    ensures a == b
  {
    if |a| > 0 {
      LexAntisymmetric(a[1..], b[1..]);
      assert a == [a[0]] + a[1..] && b == [b[0]] + b[1..];
    }
  }

  lemma {:induction false} LexTransitive(a: string, b: string, c: string)
    requires Lex(a, b) && Lex(b, c)
    ensures Lex(a, c)
  {
    if |a| > 0 && a[0] == b[0] == c[0] { LexTransitive(a[1..], b[1..], c[1..]); }
  }

  /** a and b differ first at place k, where a ends or has the smaller character. */
  predicate DiffersAt(a: string, b: string, k: nat) {
    k < |b| && k <= |a| && a[..k] == b[..k] && (k < |a| ==> a[k] < b[k])
  }

  /** a stands strictly before b: decided by the first place where they differ. */
  ghost predicate Before(a: string, b: string) {
    exists k: nat :: DiffersAt(a, b, k)
  }

  lemma {:induction false} LexIsBefore(a: string, b: string)
    ensures Lex(a, b) <==> a == b || Before(a, b)
  {
    if a == b {
      LexReflexive(a);
    } else if a == [] {
      assert DiffersAt(a, b, 0);
    } else if b != [] && a[0] == b[0] {
      LexIsBefore(a[1..], b[1..]);
      BeforeTail(a, b);
      assert a == [a[0]] + a[1..] && b == [b[0]] + b[1..];
    } else if b != [] && a[0] < b[0] {
      assert DiffersAt(a, b, 0);
    } else {
      assert forall k: nat :: DiffersAt(a, b, k) ==> k == 0 || a[..k][0] == b[..k][0];
    }
  }

  lemma BeforeTail(a: string, b: string)
    requires a != [] && b != [] && a[0] == b[0]
    ensures Before(a, b) <==> Before(a[1..], b[1..])
  {
    if Before(a, b) {
      var k: nat :| DiffersAt(a, b, k);
      assert k > 0;
      assert a[1..][..k - 1] == a[..k][1..] && b[1..][..k - 1] == b[..k][1..];
      assert DiffersAt(a[1..], b[1..], k - 1);
    }
    if Before(a[1..], b[1..]) {
      var k: nat :| DiffersAt(a[1..], b[1..], k);
      assert a[..k + 1] == [a[0]] + a[1..][..k] && b[..k + 1] == [b[0]] + b[1..][..k];
      assert DiffersAt(a, b, k + 1);
    }
  }

  /** The zset order on (score, member) pairs. */
  predicate Leq(sa: nat, a: string, sb: nat, b: string) {
    sa < sb || (sa == sb && Lex(a, b))
  }

  /** Lower score first; at equal scores the member that stands before. */
  lemma LeqIs(sa: nat, a: string, sb: nat, b: string)
    ensures Leq(sa, a, sb, b) <==> sa < sb || (sa == sb && (a == b || Before(a, b)))
  {
    LexIsBefore(a, b);
  }

  lemma LeqAntisymmetric(sa: nat, a: string, sb: nat, b: string)
    requires Leq(sa, a, sb, b) && Leq(sb, b, sa, a)
    ensures a == b
  {
    LexAntisymmetric(a, b);
  }

  predicate IsLeast(z: ZSet, m: string) {
    m in z && forall k :: k in z ==> Leq(z[m], m, z[k], k)
  }

  lemma LeastExists(z: ZSet) returns (m: string)
    requires z != map[]
    ensures IsLeast(z, m)
    decreases |z|
  {
    var k :| k in z;
    var rest := z - {k};
    assert forall j :: j in z ==> j == k || j in rest;
    assert |rest.Keys| < |z.Keys| by { assert rest.Keys == z.Keys - {k}; }
    LexReflexive(k);
    if rest == map[] {
      m := k;
    } else {
      m := LeastExists(rest);
      LexTotal(k, m);
      if Leq(z[k], k, z[m], m) {
        forall j | j in rest ensures Leq(z[k], k, z[j], j) {
          if z[k] == z[m] == z[j] { LexTransitive(k, m, j); }
        }
        m := k;
      }
    }
  }

  lemma LeastUnique(z: ZSet)
    requires z != map[]
    ensures exists m :: m in z && IsLeast(z, m)
    ensures forall a, b :: IsLeast(z, a) && IsLeast(z, b) ==> a == b
  {
    var m := LeastExists(z);
    forall a, b | IsLeast(z, a) && IsLeast(z, b) ensures a == b {
      LeqAntisymmetric(z[a], a, z[b], b);
    }
  }

  function Least(z: ZSet): (m: string)
    requires z != map[]
    ensures IsLeast(z, m)
  {
    LeastUnique(z);
    var m :| m in z && IsLeast(z, m);
    m
  }

  /** ZRANGE key 0 -1. */
  function Range(z: ZSet): (r: seq<string>)
    decreases |z|
  {
    if z == map[] then []
    else
      var m := Least(z);
      assert (z - {m}).Keys == z.Keys - {m};
      [m] + Range(z - {m})
  }

  /** r lists every member of z once, in ascending order. */
  ghost predicate IsRange(z: ZSet, r: seq<string>) {
    && (forall k :: k in z <==> k in r)
    && (forall i, j :: 0 <= i < j < |r| ==> r[i] != r[j] && Leq(z[r[i]], r[i], z[r[j]], r[j]))
  }

  lemma LeastFirst(z: ZSet, m: string, t: seq<string>)
    requires m in z && IsLeast(z, m) && IsRange(z - {m}, t)
    ensures IsRange(z, [m] + t)
  {
    var rest, r := z - {m}, [m] + t;
    forall k ensures k in z <==> k in r {
      assert k in z <==> k == m || k in rest;
    }
    forall i, j | 0 <= i < j < |r| ensures r[i] in z && r[j] in z && r[i] != r[j] && Leq(z[r[i]], r[i], z[r[j]], r[j]) {
      assert r[j] == t[j - 1] && t[j - 1] in rest;
      if i > 0 { assert r[i] == t[i - 1] && t[i - 1] in rest; }
    }
  }

  lemma {:induction false} RangeSorted(z: ZSet)
    ensures IsRange(z, Range(z))
    decreases |z|
  {
    if z != map[] {
      var m := Least(z);
      assert (z - {m}).Keys == z.Keys - {m};
      RangeSorted(z - {m});
      LeastFirst(z, m, Range(z - {m}));
    }
  }

  lemma HeadLeast(z: ZSet, a: seq<string>)
    requires IsRange(z, a) && |a| > 0
    ensures IsLeast(z, a[0])
  {
    LexReflexive(a[0]);
    forall k | k in z ensures Leq(z[a[0]], a[0], z[k], k) {
      var j :| 0 <= j < |a| && a[j] == k;
    }
  }

  lemma TailRange(z: ZSet, a: seq<string>)
    requires IsRange(z, a) && |a| > 0
    ensures IsRange(z - {a[0]}, a[1..])
  {
    var y, t := z - {a[0]}, a[1..];
    forall k ensures k in y <==> k in t {
      if k in y {
        var j :| 0 <= j < |a| && a[j] == k;
        assert t[j - 1] == k;
      }
    }
  }

  lemma RangeEmpty(z: ZSet, a: seq<string>)
    requires IsRange(z, a)
    ensures |a| == 0 <==> z == map[]
  {
    if |a| > 0 { assert a[0] in z; }
  }

  /** The order determines the reply. */
  lemma {:induction false} RangeUnique(z: ZSet, a: seq<string>, b: seq<string>)
    requires IsRange(z, a) && IsRange(z, b)
    ensures a == b
    decreases |a|
  {
    if |a| > 0 && |b| > 0 {
      HeadLeast(z, a);
      HeadLeast(z, b);
      LeqAntisymmetric(z[a[0]], a[0], z[b[0]], b[0]);
      TailRange(z, a);
      TailRange(z, b);
      RangeUnique(z - {a[0]}, a[1..], b[1..]);
      assert a == [a[0]] + a[1..] && b == [b[0]] + b[1..];
    } else {
      RangeEmpty(z, a);
      RangeEmpty(z, b);
    }
  }

  // ------------------------------------------------- indexes over numeric ids

  ghost predicate Writes(z: map<nat, nat>, s: string) {
    exists n :: n in z && ToString(n) == s
  }

  /** t is z with every id written in decimal. */
  ghost predicate IsText(z: map<nat, nat>, t: ZSet) {
    && (forall n :: n in z ==> ToString(n) in t && t[ToString(n)] == z[n])
    && (forall s :: s in t ==> Writes(z, s))
  }

  lemma TextUnique(z: map<nat, nat>, a: ZSet, b: ZSet)
    requires IsText(z, a) && IsText(z, b)
    ensures a == b
  {
    forall s ensures (s in a <==> s in b) && (s in a ==> a[s] == b[s]) {
      if s in a || s in b {
        assert Writes(z, s);
        var n :| n in z && ToString(n) == s;
      }
    }
  }

  lemma TextExists(z: map<nat, nat>)
    ensures exists t :: IsText(z, t)
  {
    forall m: nat, n: nat | ToString(m) == ToString(n) ensures m == n { ToStringInjective(m, n); }
    var t: ZSet := map n | n in z :: ToString(n) := z[n];
    forall s | s in t ensures Writes(z, s) {
      var n :| n in z && ToString(n) == s;
    }
    assert IsText(z, t);
  }

  /** The text form of an index over message ids. */
  ghost function Text(z: map<nat, nat>): (t: ZSet)
    ensures IsText(z, t)
  {
    TextExists(z);
    var t :| IsText(z, t);
    t
  }

  lemma TextAdd(z: map<nat, nat>, id: nat, score: nat)
    ensures Text(z[id := score]) == Text(z)[ToString(id) := score]
  {
    var y, t := z[id := score], Text(z)[ToString(id) := score];
    forall n | n in y ensures ToString(n) in t && t[ToString(n)] == y[n] {
      if n != id && ToString(n) == ToString(id) { ToStringInjective(n, id); }
    }
    forall s | s in t ensures Writes(y, s) {
      if s == ToString(id) {
        assert id in y;
      } else {
        assert Writes(z, s);
        var n :| n in z && ToString(n) == s;
        assert n in y;
      }
    }
    TextUnique(y, Text(y), t);
  }

  lemma TextRemove(z: map<nat, nat>, id: nat)
    ensures Text(z - {id}) == Text(z) - {ToString(id)}
  {
    var y, t := z - {id}, Text(z) - {ToString(id)};
    forall n | n in y ensures ToString(n) in t && t[ToString(n)] == y[n] {
      if ToString(n) == ToString(id) { ToStringInjective(n, id); }
    }
    forall s | s in t ensures Writes(y, s) {
      assert Writes(z, s);
      var n :| n in z && ToString(n) == s;
      assert n in y;
    }
    TextUnique(y, Text(y), t);
  }

  /** r lists every id of z once, ascending by (score, decimal text). */
  ghost predicate IsListing(z: map<nat, nat>, r: seq<nat>) {
    && (forall n :: n in z <==> n in r)
    && (forall i, j :: 0 <= i < j < |r| ==>
          r[i] != r[j] && Leq(z[r[i]], ToString(r[i]), z[r[j]], ToString(r[j])))
  }

  ghost function Texts(r: seq<nat>): seq<string> {
    seq(|r|, i requires 0 <= i < |r| => ToString(r[i]))
  }

  /** Reading back the members of ZRANGE gives a listing of the ids. */
  lemma RangeLists(z: map<nat, nat>, t: seq<string>) returns (r: seq<nat>)
    requires IsRange(Text(z), t)
    ensures IsListing(z, r) && t == Texts(r)
  {
    var d := Text(z);
    forall i | 0 <= i < |t| ensures Writes(z, t[i]) { assert t[i] in d; }
    r := IdsOf(z, t);
    forall n ensures n in z <==> n in r {
      if n in z {
        assert ToString(n) in t;
        var i :| 0 <= i < |t| && t[i] == ToString(n);
        ToStringInjective(r[i], n);
        assert r[i] == n;
      }
    }
    forall i, j | 0 <= i < j < |r|
      ensures r[i] != r[j] && Leq(z[r[i]], ToString(r[i]), z[r[j]], ToString(r[j]))
    {
      assert t[i] != t[j] && Leq(d[t[i]], t[i], d[t[j]], t[j]);
    }
  }

  lemma {:induction false} IdsOf(z: map<nat, nat>, t: seq<string>) returns (r: seq<nat>)
    requires forall i :: 0 <= i < |t| ==> Writes(z, t[i])
    ensures |r| == |t| && forall i :: 0 <= i < |t| ==> r[i] in z && ToString(r[i]) == t[i]
  {
    if t == [] {
      r := [];
    } else {
      assert Writes(z, t[0]);
      var n :| n in z && ToString(n) == t[0];
      var rest := IdsOf(z, t[1..]);
      r := [n] + rest;
    }
  }

  lemma ListingText(z: map<nat, nat>, r: seq<nat>)
    requires IsListing(z, r)
    ensures IsRange(Text(z), Texts(r))
  {
    var d, t := Text(z), Texts(r);
    forall s ensures s in d <==> s in t {
      if s in d {
        assert Writes(z, s);
        var n :| n in z && ToString(n) == s;
        var i :| 0 <= i < |r| && r[i] == n;
        assert t[i] == s;
      }
      if s in t {
        var i :| 0 <= i < |t| && t[i] == s;
        assert r[i] in z;
      }
    }
    forall i, j | 0 <= i < j < |t| ensures t[i] != t[j] && Leq(d[t[i]], t[i], d[t[j]], t[j]) {
      assert r[i] in z && r[j] in z;
      if t[i] == t[j] { ToStringInjective(r[i], r[j]); }
    }
  }

  lemma ListingExists(z: map<nat, nat>)
    ensures exists r :: IsListing(z, r)
  {
    RangeSorted(Text(z));
    var r := RangeLists(z, Range(Text(z)));
  }

  /** The ids of an index, in the order ZRANGE returns their text. */
  ghost function Ids(z: map<nat, nat>): (r: seq<nat>)
    ensures IsListing(z, r)
  {
    ListingExists(z);
    var r :| IsListing(z, r);
    r
  }

  lemma IdsAreRange(z: map<nat, nat>)
    ensures Range(Text(z)) == Texts(Ids(z))
  {
    RangeSorted(Text(z));
    ListingText(z, Ids(z));
    RangeUnique(Text(z), Range(Text(z)), Texts(Ids(z)));
  }
}
