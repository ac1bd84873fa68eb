/** Python's order on `str`: code points compared left to right. */
module Strings {

  predicate Less(a: string, b: string) {
    b != [] && (a == [] || a[0] < b[0] || (a[0] == b[0] && Less(a[1..], b[1..])))
  }

  predicate AtMost(a: string, b: string) {
    a == b || Less(a, b)
  }

  lemma {:induction false} Total(a: string, b: string)
    ensures Less(a, b) || a == b || Less(b, a)
    ensures !(Less(a, b) && Less(b, a))
  {
    if a != [] && b != [] {
      Total(a[1..], b[1..]);
      if a[0] == b[0] && a[1..] == b[1..] {
        assert a == [a[0]] + a[1..] && b == [b[0]] + b[1..];
      }
    }
  }

  lemma {:induction false} Transitive(a: string, b: string, c: string)
    requires Less(a, b) && Less(b, c)
    ensures Less(a, c)
  {
    if a != [] && a[0] == b[0] && b[0] == c[0] {
      Transitive(a[1..], b[1..], c[1..]);
    }
  }

  /** Fields of equal width compare first, the rest afterwards. */
  lemma {:induction false} LessConcat(a: string, b: string, x: string, y: string)
    requires |a| == |b|
    ensures Less(a + x, b + y) <==> Less(a, b) || (a == b && Less(x, y))
  {
    if a == [] {
      assert a + x == x && b + y == y;
    } else {
      assert (a + x)[1..] == a[1..] + x && (b + y)[1..] == b[1..] + y;
      LessConcat(a[1..], b[1..], x, y);
      if a[0] == b[0] && a[1..] == b[1..] {
        assert a == [a[0]] + a[1..] && b == [b[0]] + b[1..];
      }
    }
  }

  // ----- sorted(ids) -----

  ghost predicate Increasing(s: seq<string>) {
    forall i, j :: 0 <= i < j < |s| ==> Less(s[i], s[j])
  }

  lemma {:induction false} LeastExists(ids: set<string>) returns (m: string)
    requires ids != {}
    ensures m in ids && forall x :: x in ids ==> AtMost(m, x)
  {
    var x :| x in ids;
    if ids == {x} {
      m := x;
    } else {
      assert exists y :: y in ids && y != x;
      var r := LeastExists(ids - {x});
      Total(r, x);
      m := if Less(x, r) then x else r;
      forall y | y in ids
        ensures AtMost(m, y)
      {
        if m == x && y != x && y != r {
          assert y in ids - {x};
          Transitive(x, r, y);
        }
      }
    }
  }

  predicate IsLeast(m: string, ids: set<string>) {
    m in ids && forall x :: x in ids ==> AtMost(m, x)
  }

  /** The ids in increasing order, each once. */
  function Sorted(ids: set<string>): (s: seq<string>)
    ensures Increasing(s)
    ensures forall x :: x in s <==> x in ids
  {
    if ids == {} then []
    else
      assert exists m :: IsLeast(m, ids) by { var m := LeastExists(ids); assert IsLeast(m, ids); }
      assert forall m, n :: IsLeast(m, ids) && IsLeast(n, ids) ==> m == n by { LeastUnique(ids); }
      var m :| IsLeast(m, ids);
      var rest := Sorted(ids - {m});
      assert forall i :: 0 <= i < |rest| ==> Less(m, rest[i]) by {
        forall i | 0 <= i < |rest| ensures Less(m, rest[i]) { assert rest[i] in rest; }
      }
      [m] + rest
  }

  lemma {:induction false} LeastUnique(ids: set<string>)
    ensures forall m, n :: IsLeast(m, ids) && IsLeast(n, ids) ==> m == n
  {
    forall m, n | IsLeast(m, ids) && IsLeast(n, ids) ensures m == n { Total(m, n); }
  }
}
