/** Byte-wise (equivalently, code-point-wise) order on strings, and the sorted listing of a set of names. */
module Text {

  predicate Less(a: string, b: string) {
    b != [] && (a == [] || a[0] < b[0] || (a[0] == b[0] && Less(a[1..], b[1..])))
  }

  lemma {:induction false} LessAsymmetric(a: string, b: string)
    ensures !(Less(a, b) && Less(b, a))
  {
    if a != [] && b != [] && a[0] == b[0] { LessAsymmetric(a[1..], b[1..]); }
  }

  lemma {:induction false} LessTotal(a: string, b: string)
    ensures a == b || Less(a, b) || Less(b, a)
  {
    if a != [] && b != [] && a[0] == b[0] {
      LessTotal(a[1..], b[1..]);
      assert a == [a[0]] + a[1..] && b == [b[0]] + b[1..];
    }
  }

  lemma {:induction false} LessTransitive(a: string, b: string, c: string)
    requires Less(a, b) && Less(b, c)
    ensures Less(a, c)
  {
    if a != [] && a[0] == b[0] == c[0] { LessTransitive(a[1..], b[1..], c[1..]); }
  }

  /** `a` is a proper beginning of `b`, or the first character in which they differ is smaller in `a`. */
  lemma {:induction false} LessIff(a: string, b: string)
    ensures Less(a, b) <==>
      || a < b
      || exists k :: 0 <= k < |a| && k < |b| && a[..k] == b[..k] && a[k] < b[k]
  {
    if a != [] && b != [] && a[0] == b[0] {
      var s, t := a[1..], b[1..];
      LessIff(s, t);
      assert a == [a[0]] + s && b == [b[0]] + t;
      if k :| 0 <= k < |s| && k < |t| && s[..k] == t[..k] && s[k] < t[k] {
        assert a[..k + 1] == [a[0]] + s[..k] && b[..k + 1] == [b[0]] + t[..k];
      }
      if k :| 0 <= k < |a| && k < |b| && a[..k] == b[..k] && a[k] < b[k] {
        assert s[..k - 1] == a[..k][1..] && t[..k - 1] == b[..k][1..] && s[k - 1] == a[k] && t[k - 1] == b[k];
      }
    } else if a != [] && b != [] {
      if a[0] < b[0] { assert a[..0] == b[..0]; }
      forall k | 0 < k < |a| && k < |b| ensures a[..k] != b[..k] {
        assert a[..k][0] == a[0] && b[..k][0] == b[0];
      }
    }
  }

  predicate IsFirst(k: string, names: set<string>) {
    k in names && forall n | n in names :: n == k || Less(k, n)
  }

  lemma {:induction false} FirstExists(names: set<string>)
    requires names != {}
    ensures exists k :: IsFirst(k, names)
  {
    var k :| k in names;
    var rest := names - {k};
    if rest == {} {
      assert forall n | n in names :: n == k || n in rest;
      assert IsFirst(k, names);
    } else {
      FirstExists(rest);
      var f :| IsFirst(f, rest);
      LessTotal(k, f);
      if Less(k, f) {
        forall n | n in names ensures n == k || Less(k, n) {
          if n != k && n != f { LessTransitive(k, f, n); }
        }
        assert IsFirst(k, names);
      } else {
        assert IsFirst(f, names);
      }
    }
  }

  lemma FirstUnique(k: string, n: string, names: set<string>)
    requires IsFirst(k, names) && IsFirst(n, names)
    ensures k == n
  {
    LessAsymmetric(k, n);
  }

  function First(names: set<string>): (k: string)
    requires names != {}
    ensures k in names
  {
    FirstExists(names);
    assert forall a, b | IsFirst(a, names) && IsFirst(b, names) :: a == b by {
      forall a, b | IsFirst(a, names) && IsFirst(b, names) ensures a == b { FirstUnique(a, b, names); }
    }
    var k :| IsFirst(k, names);
    k
  }

  lemma FirstIsFirst(names: set<string>)
    requires names != {}
    ensures IsFirst(First(names), names)
  {
  }

  /** The names in increasing order: the order json.Marshal gives the members of a map. */
  function Listing(names: set<string>): (ks: seq<string>)
    ensures |ks| == |names|
    ensures forall n :: n in ks <==> n in names
  {
    if names == {} then [] else
      var k := First(names);
      [k] + Listing(names - {k})
  }

  predicate Increasing(ks: seq<string>) {
    forall i, j | 0 <= i < j < |ks| :: Less(ks[i], ks[j])
  }

  lemma {:induction false} ListingIncreasing(names: set<string>)
    ensures Increasing(Listing(names))
  {
    if names != {} {
      FirstIsFirst(names);
      ListingIncreasing(names - {First(names)});
    }
  }

  lemma TailMembers(a: seq<string>, n: string)
    requires Increasing(a) && a != []
    ensures n in a[1..] <==> n in a && n != a[0]
  {
    LessAsymmetric(a[0], a[0]);
    assert a == [a[0]] + a[1..];
  }

  /** There is only one increasing listing of a set of names. */
  lemma {:induction false} IncreasingIsListing(a: seq<string>, names: set<string>)
    requires Increasing(a) && forall n :: n in a <==> n in names
    ensures a == Listing(names)
  {
    if names != {} {
      assert First(names) in a;
      FirstIsFirst(names);
      assert IsFirst(a[0], names) by {
        assert a[0] in a;
        forall n | n in names ensures n == a[0] || Less(a[0], n) {
          var i :| 0 <= i < |a| && a[i] == n;
        }
      }
      FirstUnique(a[0], First(names), names);
      forall n ensures n in a[1..] <==> n in names - {a[0]} { TailMembers(a, n); }
      IncreasingIsListing(a[1..], names - {a[0]});
    }
  }
}
