/** Python's order on `str` (code point by code point) and the built-in `sorted` over a set of names. */
module StringOrder {

  predicate Less(a: string, b: string) {
    b != [] && (a == [] || a[0] < b[0] || (a[0] == b[0] && Less(a[1..], b[1..])))
  }

  lemma LessTotal(a: string, b: string)
    ensures a == b || Less(a, b) || Less(b, a)
  {
    if a != [] && b != [] && a[0] == b[0] {
      LessTotal(a[1..], b[1..]);
      assert a == [a[0]] + a[1..] && b == [b[0]] + b[1..];
    }
  }

  lemma LessTransitive(a: string, b: string, c: string)
    requires Less(a, b) && Less(b, c)
    ensures Less(a, c)
  {
  }

  lemma LessIrreflexive(a: string)
    ensures !Less(a, a)
  {
  }

  /** The order by code points: at the first place where the texts differ, or by length if one begins the other. */
  lemma LessByCodePoint(a: string, b: string)
    ensures Less(a, b) <==>
            exists i: nat :: && i <= |a| && i < |b| && a[..i] == b[..i]
                             && (i == |a| || (a[i] as int) < (b[i] as int))
  {
    if Less(a, b) {
      if a == [] || a[0] < b[0] {
        assert a[..0] == b[..0];
      } else {
        LessByCodePoint(a[1..], b[1..]);
        var i: nat :| i <= |a[1..]| && i < |b[1..]| && a[1..][..i] == b[1..][..i]
                      && (i == |a[1..]| || (a[1..][i] as int) < (b[1..][i] as int));
        SamePrefix(a, b, i);
      }
    }
    if i: nat :| i <= |a| && i < |b| && a[..i] == b[..i] && (i == |a| || (a[i] as int) < (b[i] as int)) {
      if i > 0 {
        assert a[0] == a[..i][0] && b[0] == b[..i][0];
        assert a[1..][..i - 1] == a[..i][1..] && b[1..][..i - 1] == b[..i][1..];
        LessByCodePoint(a[1..], b[1..]);
      }
    }
  }

  lemma SamePrefix(a: string, b: string, i: nat)
    requires a != [] && b != [] && a[0] == b[0] && i <= |a[1..]| && i <= |b[1..]| && a[1..][..i] == b[1..][..i]
    ensures a[..i + 1] == b[..i + 1]
  {
    assert a[..i + 1] == [a[0]] + a[1..][..i];
    assert b[..i + 1] == [b[0]] + b[1..][..i];
  }

  predicate IsLeast(k: string, s: set<string>) {
    k in s && forall m | m in s && m != k :: Less(k, m)
  }

  lemma LeastIsUnique(s: set<string>)
    ensures forall a, b | IsLeast(a, s) && IsLeast(b, s) :: a == b
  {
    forall a, b | IsLeast(a, s) && IsLeast(b, s)
      ensures a == b
    {
      if a != b {
        LessTransitive(a, b, a);
        LessIrreflexive(a);
      }
    }
  }

  lemma LeastExists(s: set<string>)
    requires s != {}
    ensures exists k :: IsLeast(k, s)
  {
    var x :| x in s;
    if s == {x} {
      assert IsLeast(x, s);
    } else {
      LeastExists(s - {x});
      var y :| IsLeast(y, s - {x});
      LessTotal(x, y);
      if Less(x, y) {
        forall m | m in s && m != x
          ensures Less(x, m)
        {
          if m != y { LessTransitive(x, y, m); }
        }
        assert IsLeast(x, s);
      } else {
        assert IsLeast(y, s);
      }
    }
  }

  function Least(s: set<string>): (k: string)
    requires s != {}
    ensures IsLeast(k, s)
  {
    LeastExists(s);
    LeastIsUnique(s);
    var k :| k in s && IsLeast(k, s);
    k
  }

  ghost predicate Ascending(r: seq<string>) {
    forall i, j | 0 <= i < j < |r| :: Less(r[i], r[j])
  }

  function SortedNames(s: set<string>): (r: seq<string>)
    ensures Ascending(r)
    ensures forall k :: k in r <==> k in s
  {
    if s == {} then [] else
      var k := Least(s);
      [k] + SortedNames(s - {k})
  }
}
