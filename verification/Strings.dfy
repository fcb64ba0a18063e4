// Go's byte-wise order on strings, and the sorted list of a set of strings.
module Strings {
  predicate Less(a: string, b: string) {
    b != [] && (a == [] || a[0] < b[0] || (a[0] == b[0] && Less(a[1..], b[1..])))
  }

  lemma {:induction false} LessIsTotal(a: string, b: string)
    ensures a == b || Less(a, b) || Less(b, a)
    ensures !(Less(a, b) && Less(b, a))
    decreases |a| + |b|
  {
    if a != [] && b != [] && a[0] == b[0] {
      LessIsTotal(a[1..], b[1..]);
      assert a == [a[0]] + a[1..] && b == [b[0]] + b[1..];
      if a != b {
        assert a[1..] != b[1..];
      }
    }
  }

  lemma {:induction false} LessIsTransitive(a: string, b: string, c: string)
    requires Less(a, b) && Less(b, c)
    ensures Less(a, c)
  {
    if a != [] && a[0] == b[0] == c[0] {
      LessIsTransitive(a[1..], b[1..], c[1..]);
    }
  }

  predicate Least(x: string, s: set<string>) {
    x in s && forall y :: y in s ==> x == y || Less(x, y)
  }

  lemma {:induction false} LeastExists(s: set<string>)
    requires s != {}
    ensures exists x :: Least(x, s)
    decreases |s|
  {
    var a :| a in s;
    var rest := s - {a};
    if rest == {} {
      assert s == {a};
      assert Least(a, s);
    } else {
      LeastExists(rest);
      var b :| Least(b, rest);
      LessIsTotal(a, b);
      if Less(a, b) {
        forall y | y in s
          ensures a == y || Less(a, y)
        {
          if y != a && y != b {
            LessIsTransitive(a, b, y);
          }
        }
        assert Least(a, s);
      } else {
        assert Least(b, s);
      }
    }
  }

  lemma LeastIsUnique(s: set<string>, a: string, b: string)
    requires Least(a, s) && Least(b, s)
    ensures a == b
  {
    LessIsTotal(a, b);
  }

  function Min(s: set<string>): (x: string)
    requires s != {}
    ensures Least(x, s)
  {
    LeastExists(s);
    assert forall a, b :: Least(a, s) && Least(b, s) ==> a == b by {
      forall a, b | Least(a, s) && Least(b, s) ensures a == b { LeastIsUnique(s, a, b); }
    }
    var x :| Least(x, s);
    x
  }

  function Sorted(s: set<string>): (items: seq<string>)
    ensures |items| == |s|
    ensures forall x :: x in items <==> x in s
    decreases |s|
  {
    if s == {} then []
    else
      var x := Min(s);
      assert |s - {x}| == |s| - 1;
      [x] + Sorted(s - {x})
  }
}
