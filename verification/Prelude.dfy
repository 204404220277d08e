/** Small definitions shared by the other modules: optional values, results, listings. */
module Prelude {

  datatype Option<+T> = None | Some(value: T)

  datatype Result<+T, +E> = Ok(value: T) | Err(error: E)

  /** The decimal numeral of a natural number, as `String(n)` writes it. */
  function Decimal(n: nat): string {
    var digit := ["0", "1", "2", "3", "4", "5", "6", "7", "8", "9"][n % 10];
    if n < 10 then digit else Decimal(n / 10) + digit
  }

  function Min(a: int, b: int): int { if a < b then a else b }

  ghost predicate NoDuplicates<T>(s: seq<T>) {
    forall i, j :: 0 <= i < j < |s| ==> s[i] != s[j]
  }

  lemma ConcatIsAssociative<T>(a: seq<T>, b: seq<T>, c: seq<T>)
    ensures a + (b + c) == (a + b) + c
  {
  }

  function ToSet<T(==)>(s: seq<T>): set<T> { set x | x in s }

  /** A duplicate-free sequence is as long as the set of its elements. */
  lemma {:induction false} DistinctLength<T>(s: seq<T>)
    requires NoDuplicates(s)
    ensures |ToSet(s)| == |s|
  {
    if s == [] {
      assert ToSet(s) == {};
    } else {
      var n := |s| - 1;
      DistinctLength(s[..n]);
      assert ToSet(s) == ToSet(s[..n]) + {s[n]} by {
        assert s == s[..n] + [s[n]];
      }
      assert s[n] !in s[..n];
    }
  }

  lemma DisjointSize<T>(a: set<T>, b: set<T>)
    requires a !! b
    ensures |a + b| == |a| + |b|
  {
  }

  /** A subset is no larger than the set that holds it. */
  lemma {:induction false} SubsetSize<T>(a: set<T>, b: set<T>)
    requires a <= b
    ensures |a| <= |b|
    decreases b
  {
    if a != {} {
      var x :| x in a;
      SubsetSize(a - {x}, b - {x});
    }
  }

  lemma SubsetOfSameSize<T>(a: set<T>, b: set<T>)
    requires a <= b && |a| == |b|
    ensures a == b
  {
    DisjointSize(a, b - a);
    assert a + (b - a) == b;
  }

  /** What `SELECT … ORDER BY rank LIMIT limit` may answer: the rows with the
      smallest ranks, in rank order, ties in any order. */
  ghost predicate IsOldest<T(!new)>(candidates: set<T>, rank: T -> int, limit: nat, list: seq<T>) {
    && |list| == Min(limit, |candidates|)
    && NoDuplicates(list)
    && (forall x :: x in list ==> x in candidates)
    && (forall i, j :: 0 <= i < j < |list| ==> rank(list[i]) <= rank(list[j]))
    && (forall x, y :: x in list && y in candidates && y !in list ==> rank(x) <= rank(y))
  }

  /** Every table has such a listing. */
  lemma {:induction false} OldestExists<T(!new)>(candidates: set<T>, rank: T -> int, limit: nat) returns (list: seq<T>)
    ensures IsOldest(candidates, rank, limit, list)
    decreases limit
  {
    if limit == 0 || candidates == {} {
      list := [];
    } else {
      var m := Least(candidates, rank);
      var rest := OldestExists(candidates - {m}, rank, limit - 1);
      list := [m] + rest;
    }
  }

  lemma {:induction false} Least<T(!new)>(candidates: set<T>, rank: T -> int) returns (m: T)
    requires candidates != {}
    ensures m in candidates && forall x :: x in candidates ==> rank(m) <= rank(x)
    decreases candidates
  {
    m :| m in candidates;
    if candidates != {m} {
      var other := Least(candidates - {m}, rank);
      if rank(other) < rank(m) { m := other; }
    }
  }

  /** `ORDER BY … LIMIT`, picking one oldest row after the other. */
  method Oldest<T(==, !new)>(candidates: set<T>, rank: T -> int, limit: nat) returns (list: seq<T>)
    ensures IsOldest(candidates, rank, limit, list)
  {
    list := [];
    var rest := candidates;
    while rest != {} && |list| < limit
      invariant rest <= candidates && |list| + |rest| == |candidates| && |list| <= limit
      invariant NoDuplicates(list)
      invariant forall x :: x in list <==> x in candidates && x !in rest
      invariant forall i, j :: 0 <= i < j < |list| ==> rank(list[i]) <= rank(list[j])
      invariant forall x, y :: x in list && y in rest ==> rank(x) <= rank(y)
      decreases rest
    {
      ghost var least := Least(rest, rank);
      var next :| next in rest && forall other :: other in rest ==> rank(next) <= rank(other);
      list := list + [next];
      rest := rest - {next};
    }
  }

  // ---- bytes ----

  type Byte = b: int | 0 <= b < 256

  function Power(b: nat, n: nat): nat { if n == 0 then 1 else b * Power(b, n - 1) }

  function BigEndian(n: nat, size: nat): (r: seq<Byte>)
    ensures |r| == size
  {
    if size == 0 then [] else BigEndian(n / 256, size - 1) + [n % 256]
  }

  function Number(s: seq<Byte>): nat {
    if s == [] then 0 else 256 * Number(s[..|s| - 1]) + s[|s| - 1]
  }

  lemma {:induction false} NumberOfBigEndian(n: nat, size: nat)
    requires n < Power(256, size)
    ensures Number(BigEndian(n, size)) == n
  {
    if size > 0 {
      NumberOfBigEndian(n / 256, size - 1);
      assert BigEndian(n, size)[..size - 1] == BigEndian(n / 256, size - 1);
    }
  }

  lemma {:induction false} BigEndianOfNumber(s: seq<Byte>)
    ensures BigEndian(Number(s), |s|) == s && Number(s) < Power(256, |s|)
  {
    if s != [] { BigEndianOfNumber(s[..|s| - 1]); }
  }
}
