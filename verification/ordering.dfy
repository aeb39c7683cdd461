/** The order in which sort.Strings puts strings. */
module Ordering {

  predicate Less(a: string, b: string) {
    b != [] && (a == [] || a[0] < b[0] || (a[0] == b[0] && Less(a[1..], b[1..])))
  }

  /** Byte order: a proper prefix comes first, and otherwise the first difference decides. */
  lemma {:induction false} LessExact(a: string, b: string)
    ensures Less(a, b) <==> exists k: nat :: k <= |a| && k < |b| && a[..k] == b[..k] && (k == |a| || a[k] < b[k])
  {
    if a == [] || b == [] || a[0] != b[0] {
      if b != [] && (a == [] || a[0] < b[0]) {
        assert a[..0] == b[..0];
      }
      if k: nat :| k <= |a| && k < |b| && a[..k] == b[..k] && (k == |a| || a[k] < b[k]) {
        SameHead(a, b, k);
      }
    } else {
      LessExact(a[1..], b[1..]);
      if Less(a, b) {
        var k: nat :| && k <= |a[1..]| && k < |b[1..]| && a[1..][..k] == b[1..][..k]
                      && (k == |a[1..]| || a[1..][k] < b[1..][k]);
        assert a[..k + 1] == [a[0]] + a[1..][..k] && b[..k + 1] == [b[0]] + b[1..][..k];
      }
      if k: nat :| k <= |a| && k < |b| && a[..k] == b[..k] && (k == |a| || a[k] < b[k]) {
        assert k > 0;
        assert a[1..][..k - 1] == a[..k][1..] && b[1..][..k - 1] == b[..k][1..];
      }
    }
  }

  lemma SameHead(a: string, b: string, k: nat)
    ensures 0 < k <= |a| && k <= |b| && a[..k] == b[..k] ==> a[0] == b[0]
  {
    if 0 < k <= |a| && k <= |b| && a[..k] == b[..k] {
      assert a[..k][0] == b[..k][0];
    }
  }

  lemma {:induction false} LessTransitive(a: string, b: string, c: string)
    requires Less(a, b) && Less(b, c)
    ensures Less(a, c)
  {
    if a != [] && a[0] == b[0] == c[0] {
      LessTransitive(a[1..], b[1..], c[1..]);
    }
  }

  lemma {:induction false} LessIrreflexive(a: string)
    ensures !Less(a, a)
  {
    if a == [] {
    } else {
      LessIrreflexive(a[1..]);
    }
  }

  lemma {:induction false} LessTotal(a: string, b: string)
    ensures a == b || Less(a, b) || Less(b, a)
  {
    if a != [] && b != [] && a[0] == b[0] {
      LessTotal(a[1..], b[1..]);
      assert a == [a[0]] + a[1..] && b == [b[0]] + b[1..];
    }
  }

  predicate IsLeast(keys: set<string>, k: string) {
    k in keys && forall x :: x in keys && x != k ==> Less(k, x)
  }

  lemma LeastUnique(keys: set<string>, a: string, b: string)
    requires IsLeast(keys, a) && IsLeast(keys, b)
    ensures a == b
  {
    if a != b {
      LessTransitive(a, b, a);
      LessIrreflexive(a);
    }
  }

  lemma {:induction false} LeastExists(keys: set<string>) returns (k: string)
    requires keys != {}
    ensures IsLeast(keys, k)
    decreases keys
  {
    var x :| x in keys;
    k := x;
    if keys != {x} {
      assert keys == keys - {x} + {x};
      var m := LeastExists(keys - {x});
      LessTotal(x, m);
      if Less(m, x) {
        k := m;
      } else {
        forall y | y in keys && y != x ensures Less(x, y) {
          if y != m {
            LessTransitive(x, m, y);
          }
        }
      }
    }
  }

  /** The keys in increasing order. */
  ghost function Sorted(keys: set<string>): seq<string>
    decreases keys
  {
    if keys == {} then []
    else
      var k := LeastOf(keys);
      [k] + Sorted(keys - {k})
  }

  ghost function LeastOf(keys: set<string>): (k: string)
    requires keys != {}
    ensures IsLeast(keys, k)
  {
    assert exists k :: IsLeast(keys, k) by {
      var k := LeastExists(keys);
    }
    var k :| IsLeast(keys, k);
    k
  }

  predicate Increasing(s: seq<string>) {
    forall i, j :: 0 <= i < j < |s| ==> Less(s[i], s[j])
  }

  function Elements(s: seq<string>): set<string> {
    set x | x in s
  }

  lemma {:induction false} SortedMeaning(keys: set<string>)
    ensures Elements(Sorted(keys)) == keys && Increasing(Sorted(keys))
    decreases keys
  {
    if keys == {} {
    } else {
      var k := LeastOf(keys);
      var rest := Sorted(keys - {k});
      SortedMeaning(keys - {k});
      assert forall i :: 0 <= i < |rest| ==> rest[i] in Elements(rest);
      assert forall x :: x in rest <==> x in Elements(rest);
      assert Sorted(keys) == [k] + rest;
      assert forall x :: x in Sorted(keys) <==> x == k || x in rest;
    }
  }

  /** A set has only one increasing enumeration. */
  lemma {:induction false} IncreasingUnique(s: seq<string>, t: seq<string>)
    requires Increasing(s) && Increasing(t) && Elements(s) == Elements(t)
    ensures s == t
  {
    if s == [] {
      NonemptyElements(t);
    } else {
      NonemptyElements(s);
      HeadIsLeast(s);
      HeadIsLeast(t);
      LeastUnique(Elements(s), s[0], t[0]);
      TailElements(s);
      TailElements(t);
      IncreasingUnique(s[1..], t[1..]);
      assert s == [s[0]] + s[1..] && t == [t[0]] + t[1..];
    }
  }

  lemma NonemptyElements(s: seq<string>)
    ensures s != [] ==> Elements(s) != {}
  {
    if s != [] {
      assert s[0] in Elements(s);
    }
  }

  lemma HeadIsLeast(s: seq<string>)
    requires s != [] && Increasing(s)
    ensures IsLeast(Elements(s), s[0])
  {
    assert s[0] in s;
  }

  lemma TailElements(s: seq<string>)
    requires s != [] && Increasing(s)
    ensures Elements(s[1..]) == Elements(s) - {s[0]} && Increasing(s[1..])
  {
    LessIrreflexive(s[0]);
    assert forall x :: x in s <==> x == s[0] || x in s[1..];
    assert s[0] !in s[1..];
  }

  /** The least key, found by a scan. */
  method FindLeast(keys: set<string>) returns (k: string)
    requires keys != {}
    ensures IsLeast(keys, k) && k == LeastOf(keys)
  {
    k :| k in keys;
    var rest := keys - {k};
    while rest != {}
      invariant k in keys && rest <= keys
      invariant forall x :: x in keys - rest && x != k ==> Less(k, x)
      decreases rest
    {
      var x :| x in rest;
      rest := rest - {x};
      LessTotal(x, k);
      if Less(x, k) {
        forall y | y in keys - rest && y != x ensures Less(x, y) {
          if y != k {
            LessTransitive(x, k, y);
          }
        }
        k := x;
      }
    }
    LeastUnique(keys, k, LeastOf(keys));
  }
}
