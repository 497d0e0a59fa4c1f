/**
 * Iteration order of Rust's `BTreeMap<String, _>`: keys are visited in
 * ascending order of `String`'s `Ord`, which is lexicographic on the text
 * (byte-wise UTF-8 order coincides with code-point order).
 */
module OrderedMap {

  /** `a < b` for Rust strings. */
  predicate Less(a: string, b: string)
    decreases |a|
  {
    if |a| == 0 then |b| > 0
    else |b| > 0 && (a[0] < b[0] || (a[0] == b[0] && Less(a[1..], b[1..])))
  }

  lemma {:induction false} LessIrreflexive(a: string)
    ensures !Less(a, a)
    decreases |a|
  {
    if |a| > 0 {
      LessIrreflexive(a[1..]);
    }
  }

  lemma {:induction false} LessTransitive(a: string, b: string, c: string)
    requires Less(a, b) && Less(b, c)
    ensures Less(a, c)
    decreases |a|
  {
    if |a| > 0 && a[0] == b[0] && b[0] == c[0] {
      LessTransitive(a[1..], b[1..], c[1..]);
    }
  }

  lemma {:induction false} LessTotal(a: string, b: string)
    ensures a == b || Less(a, b) || Less(b, a)
    decreases |a|
  {
    if |a| > 0 && |b| > 0 && a[0] == b[0] {
      LessTotal(a[1..], b[1..]);
      if a[1..] == b[1..] {
        assert a == [a[0]] + a[1..] && b == [b[0]] + b[1..];
      }
    }
  }

  lemma LessAsymmetric(a: string, b: string)
    ensures !(Less(a, b) && Less(b, a))
  {
    if Less(a, b) && Less(b, a) {
      LessTransitive(a, b, a);
      LessIrreflexive(a);
    }
  }

  /** Strictly ascending: the order in which a `BTreeMap` yields its keys. */
  predicate StrictlySorted(ks: seq<string>) {
    forall i, j :: 0 <= i < j < |ks| ==> Less(ks[i], ks[j])
  }

  /** A strictly ascending listing names each key once. */
  lemma SortedDistinct(ks: seq<string>, i: nat, j: nat)
    requires StrictlySorted(ks) && i < j < |ks|
    ensures ks[i] != ks[j]
  {
    LessIrreflexive(ks[i]);
  }

  predicate IsMin(k: string, s: set<string>) {
    k in s && forall j :: j in s && j != k ==> Less(k, j)
  }

  lemma {:induction false} MinExists(s: set<string>)
    requires s != {}
    ensures exists k :: IsMin(k, s)
    decreases |s|
  {
    var x :| x in s;
    var rest := s - {x};
    if rest == {} {
      assert s == {x};
      assert IsMin(x, s);
    } else {
      MinExists(rest);
      var m :| IsMin(m, rest);
      LessTotal(x, m);
      if Less(x, m) {
        forall j | j in s && j != x ensures Less(x, j) {
          if j != m {
            LessTransitive(x, m, j);
          }
        }
        assert IsMin(x, s);
      } else {
        assert IsMin(m, s);
      }
    }
  }

  /** The least key of a non-empty set. */
  function MinKey(s: set<string>): (k: string)
    requires s != {}
    ensures IsMin(k, s)
  {
    MinExists(s);
    assert forall a, b :: IsMin(a, s) && IsMin(b, s) ==> a == b by {
      forall a, b | IsMin(a, s) && IsMin(b, s) ensures a == b {
        LessAsymmetric(a, b);
      }
    }
    var k :| IsMin(k, s);
    k
  }

  /** The keys of `s` in iteration order. */
  function SortedKeys(s: set<string>): (ks: seq<string>)
    ensures StrictlySorted(ks)
    ensures forall k :: k in ks <==> k in s
    ensures |ks| == |s|
    decreases |s|
  {
    if s == {} then []
    else
      var k := MinKey(s);
      var rest := SortedKeys(s - {k});
      assert forall j :: 0 <= j < |rest| ==> Less(k, rest[j]) by {
        forall j | 0 <= j < |rest| ensures Less(k, rest[j]) {
          assert rest[j] in s - {k};
        }
      }
      [k] + rest
  }

  /** The keys a `for (name, v) in &map` loop visits, in order. */
  function Keys<V>(m: map<string, V>): (ks: seq<string>)
    ensures StrictlySorted(ks)
    ensures forall k :: k in ks <==> k in m
    ensures |ks| == |m|
  {
    SortedKeys(m.Keys)
  }

  /**
   * The visiting order is not incidental: any strictly ascending listing of
   * the same keys is this one, so iterating the same map twice gives the
   * same sequence.
   */
  lemma {:induction false} SortedListingUnique(a: seq<string>, b: seq<string>)
    requires StrictlySorted(a) && StrictlySorted(b)
    requires forall k :: k in a <==> k in b
    ensures a == b
    decreases |a|
  {
    if |a| == 0 {
      HeadListed(b);
    } else {
      assert |b| > 0 by {
        assert a[0] in b;
      }
      if a[0] != b[0] {
        assert b[0] in a;
        var i :| 0 <= i < |a| && a[i] == b[0];
        assert a[0] in b;
        var j :| 0 <= j < |b| && b[j] == a[0];
        assert i > 0 && j > 0;
        assert Less(a[0], a[i]) && Less(b[0], b[j]);
        LessAsymmetric(a[0], b[0]);
      }
      forall k | k in a[1..] ensures k in b[1..] {
        var i :| 1 <= i < |a| && a[i] == k;
        LessIrreflexive(a[0]);
        assert Less(a[0], k);
        assert k in b;
        var j :| 0 <= j < |b| && b[j] == k;
        if j == 0 {
          LessIrreflexive(k);
        }
      }
      forall k | k in b[1..] ensures k in a[1..] {
        var j :| 1 <= j < |b| && b[j] == k;
        assert Less(b[0], k);
        assert k in a;
        var i :| 0 <= i < |a| && a[i] == k;
        if i == 0 {
          LessIrreflexive(k);
        }
      }
      SortedListingUnique(a[1..], b[1..]);
      assert a == [a[0]] + a[1..] && b == [b[0]] + b[1..];
    }
  }

  /** The first element of a non-empty listing is a member of it. */
  lemma HeadListed(s: seq<string>)
    ensures s != [] ==> s[0] in s
  {
  }

  /** Iteration order depends on the key set only. */
  lemma KeysDeterministic<V, W>(m: map<string, V>, n: map<string, W>, order: seq<string>)
    requires m.Keys == n.Keys
    requires StrictlySorted(order) && forall k :: k in order <==> k in m
    ensures Keys(m) == Keys(n) == order
  {
    SortedListingUnique(Keys(m), order);
    SortedListingUnique(Keys(n), order);
  }
}
