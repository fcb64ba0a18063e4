// The cache key of a candidate pool: every candidate ID is written with its
// length in front, so no two different ID sequences share a key.
module PoolKey {
  datatype Candidate = Candidate(id: string, quality: int)

  function Decimal(n: nat): (text: string)
    ensures |text| > 0
    ensures ':' !in text
  {
    var digit := "0123456789"[n % 10];
    if n < 10 then [digit] else Decimal(n / 10) + [digit]
  }

  function Key(pool: seq<Candidate>): string {
    if pool == [] then "" else Decimal(|pool[0].id|) + ":" + pool[0].id + "|" + Key(pool[1..])
  }

  function Ids(pool: seq<Candidate>): (ids: seq<string>)
    ensures |ids| == |pool| && forall i :: 0 <= i < |pool| ==> ids[i] == pool[i].id
  {
    seq(|pool|, i requires 0 <= i < |pool| => pool[i].id)
  }

  lemma {:induction false} DecimalInjective(m: nat, n: nat)
    requires Decimal(m) == Decimal(n)
    ensures m == n
    decreases m + n
  {
    var a, b := Decimal(m), Decimal(n);
    LastDigit(m);
    LastDigit(n);
    if m >= 10 && n >= 10 {
      assert Decimal(m / 10) == a[..|a| - 1] && Decimal(n / 10) == b[..|b| - 1];
      DecimalInjective(m / 10, n / 10);
    }
  }

  lemma LastDigit(n: nat)
    ensures Decimal(n)[|Decimal(n)| - 1] == "0123456789"[n % 10]
    ensures n >= 10 ==> |Decimal(n)| >= 2
  {
  }

  // Two texts that agree up to their first colon agree before and after it.
  lemma SplitAtColon(a: string, x: string, b: string, y: string)
    requires ':' !in a && ':' !in b
    requires a + ":" + x == b + ":" + y
    ensures a == b && x == y
  {
    var left, right := a + ":" + x, b + ":" + y;
    assert left[|a|] == ':' && right[|b|] == ':';
    assert forall i :: 0 <= i < |b| ==> right[i] == b[i];
    assert forall i :: 0 <= i < |a| ==> left[i] == a[i];
    assert a == left[..|a|] && b == right[..|b|];
    assert x == left[|a| + 1..] && y == right[|b| + 1..];
  }

  lemma SplitAtLength(a: string, x: string, b: string, y: string)
    requires |a| == |b| && a + "|" + x == b + "|" + y
    ensures a == b && x == y
  {
    var left, right := a + "|" + x, b + "|" + y;
    assert a == left[..|a|] && b == right[..|b|];
    assert x == left[|a| + 1..] && y == right[|b| + 1..];
  }

  lemma {:induction false} KeyInjective(left: seq<Candidate>, right: seq<Candidate>)
    requires Key(left) == Key(right)
    ensures Ids(left) == Ids(right)
  {
    if left == [] || right == [] {
      assert left == right == [];
    } else {
      HeadsAgree(left[0].id, Key(left[1..]), right[0].id, Key(right[1..]));
      KeyInjective(left[1..], right[1..]);
      IdsSplit(left);
      IdsSplit(right);
    }
  }

  lemma IdsSplit(pool: seq<Candidate>)
    requires pool != []
    ensures Ids(pool) == [pool[0].id] + Ids(pool[1..])
  {
  }

  lemma HeadsAgree(a: string, x: string, b: string, y: string)
    requires Decimal(|a|) + ":" + a + "|" + x == Decimal(|b|) + ":" + b + "|" + y
    ensures a == b && x == y
  {
    Regroup(Decimal(|a|), a, x);
    Regroup(Decimal(|b|), b, y);
    SplitAtColon(Decimal(|a|), a + "|" + x, Decimal(|b|), b + "|" + y);
    DecimalInjective(|a|, |b|);
    SplitAtLength(a, x, b, y);
  }

  lemma Regroup(digits: string, a: string, x: string)
    ensures digits + ":" + a + "|" + x == digits + ":" + (a + "|" + x)
  {
  }
}
