/** Sequence operations behind the listings and the client-side filters:
    `Array.prototype.filter`, order-preserving subsequences, the orderings a
    `.sort(...)` query promises, and the bookkeeping of records kept in
    creation order. */
module Seqs {

  /** `s.filter(p)`. */
  function Filter<T(==,!new)>(s: seq<T>, p: T -> bool): (r: seq<T>)
    ensures |r| <= |s|
    ensures forall x :: x in r <==> x in s && p(x)
  {
    if s == [] then [] else (if p(s[0]) then [s[0]] else []) + Filter(s[1..], p)
  }

  /** `a` is `b` with some elements left out and the rest in their order. */
  predicate IsSubsequence<T(==,!new)>(a: seq<T>, b: seq<T>)
    decreases |b|
  {
    if b == [] then a == []
    else (a != [] && a[0] == b[0] && IsSubsequence(a[1..], b[1..])) || IsSubsequence(a, b[1..])
  }

  lemma {:induction false} FilterIsSubsequence<T(!new)>(s: seq<T>, p: T -> bool)
    ensures IsSubsequence(Filter(s, p), s)
  {
    if s != [] {
      FilterIsSubsequence(s[1..], p);
      if p(s[0]) {
        assert Filter(s, p)[1..] == Filter(s[1..], p);
      } else {
        assert Filter(s, p) == Filter(s[1..], p);
      }
    }
  }

  lemma {:induction false} SubsequenceMembers<T(!new)>(a: seq<T>, b: seq<T>)
    requires IsSubsequence(a, b)
    ensures forall x :: x in a ==> x in b
    decreases |b|
  {
    if b != [] {
      if a != [] && a[0] == b[0] && IsSubsequence(a[1..], b[1..]) {
        SubsequenceMembers(a[1..], b[1..]);
        assert forall x :: x in a ==> x == a[0] || x in a[1..];
      } else {
        SubsequenceMembers(a, b[1..]);
      }
    }
  }

  /** Every element passes the test, so the filter keeps the whole sequence. */
  lemma {:induction false} FilterKeepsAll<T(!new)>(s: seq<T>, p: T -> bool)
    requires forall i :: 0 <= i < |s| ==> p(s[i])
    ensures Filter(s, p) == s
  {
    if s != [] {
      FilterKeepsAll(s[1..], p);
      assert [s[0]] + s[1..] == s;
    }
  }

  predicate StrictlyIncreasing<T>(s: seq<T>, key: T -> int)
  {
    forall i, j :: 0 <= i < j < |s| ==> key(s[i]) < key(s[j])
  }

  predicate StrictlyDecreasing<T>(s: seq<T>, key: T -> int)
  {
    forall i, j :: 0 <= i < j < |s| ==> key(s[i]) > key(s[j])
  }

  predicate NonDecreasing<T>(s: seq<T>, key: T -> int)
  {
    forall i, j :: 0 <= i < j < |s| ==> key(s[i]) <= key(s[j])
  }

  lemma {:induction false} SubsequenceKeepsDecreasing<T(!new)>(a: seq<T>, b: seq<T>, key: T -> int)
    requires IsSubsequence(a, b)
    requires StrictlyDecreasing(b, key)
    ensures StrictlyDecreasing(a, key)
    decreases |b|
  {
    if b != [] {
      if a != [] && a[0] == b[0] && IsSubsequence(a[1..], b[1..]) {
        SubsequenceKeepsDecreasing(a[1..], b[1..], key);
        SubsequenceMembers(a[1..], b[1..]);
        forall j | 0 < j < |a| ensures key(a[0]) > key(a[j]) {
          assert a[j] in a[1..];
          var k :| 0 <= k < |b[1..]| && b[1..][k] == a[j];
          assert b[k + 1] == a[j];
        }
      } else {
        SubsequenceKeepsDecreasing(a, b[1..], key);
      }
    }
  }

  function Reverse<T>(s: seq<T>): (r: seq<T>)
    ensures |r| == |s|
    ensures forall i :: 0 <= i < |s| ==> r[i] == s[|s| - 1 - i]
  {
    if s == [] then [] else Reverse(s[1..]) + [s[0]]
  }

  lemma {:induction false} ReverseIsPermutation<T(!new)>(s: seq<T>)
    ensures multiset(Reverse(s)) == multiset(s)
  {
    if s != [] {
      ReverseIsPermutation(s[1..]);
      assert s == [s[0]] + s[1..];
    }
  }

  lemma ReverseOfIncreasing<T(!new)>(s: seq<T>, key: T -> int)
    requires StrictlyIncreasing(s, key)
    ensures StrictlyDecreasing(Reverse(s), key)
  {
    var r := Reverse(s);
    forall i, j | 0 <= i < j < |r| ensures key(r[i]) > key(r[j]) {
      assert r[i] == s[|s| - 1 - i] && r[j] == s[|s| - 1 - j];
    }
  }

  /** `s` without its element at `i`: what `deleteOne` leaves behind. */
  function RemoveAt<T>(s: seq<T>, i: nat): (r: seq<T>)
    requires i < |s|
    ensures |r| == |s| - 1
    ensures forall j :: 0 <= j < i ==> r[j] == s[j]
    ensures forall j :: i <= j < |r| ==> r[j] == s[j + 1]
  {
    s[..i] + s[i + 1..]
  }

  /** The records of one collection, in the order they were created: creation
      times strictly increase, ids are distinct, and both lie below the next
      value of the store's counter. */
  predicate Chronological<T>(s: seq<T>, id: T -> int, created: T -> int, next: nat)
  {
    && StrictlyIncreasing(s, created)
    && (forall i :: 0 <= i < |s| ==> id(s[i]) < next && created(s[i]) < next)
    && (forall i, j :: 0 <= i < j < |s| ==> id(s[i]) != id(s[j]))
  }

  lemma ChronologicalAppend<T(!new)>(s: seq<T>, id: T -> int, created: T -> int, next: nat, x: T)
    requires Chronological(s, id, created, next)
    requires id(x) == next && created(x) == next
    ensures Chronological(s + [x], id, created, next + 1)
  {
    var t := s + [x];
    assert forall i :: 0 <= i < |s| ==> t[i] == s[i];
  }

  lemma ChronologicalRemove<T(!new)>(s: seq<T>, id: T -> int, created: T -> int, next: nat, i: nat)
    requires i < |s|
    requires Chronological(s, id, created, next)
    ensures Chronological(RemoveAt(s, i), id, created, next)
  {
    var r := RemoveAt(s, i);
    forall a, b | 0 <= a < b < |r|
      ensures created(r[a]) < created(r[b]) && id(r[a]) != id(r[b])
    {
      var a' := if a < i then a else a + 1;
      var b' := if b < i then b else b + 1;
      assert r[a] == s[a'] && r[b] == s[b'] && a' < b';
    }
  }

  /** Ids are distinct, so removing the record at `i` removes every record
      with its id and nothing else. */
  lemma ChronologicalRemoveMembers<T(!new)>(s: seq<T>, id: T -> int, created: T -> int, next: nat, i: nat)
    requires i < |s|
    requires Chronological(s, id, created, next)
    ensures forall x :: x in RemoveAt(s, i) <==> x in s && id(x) != id(s[i])
  {
    var r := RemoveAt(s, i);
    forall x ensures x in r <==> x in s && id(x) != id(s[i]) {
      if x in r {
        var j :| 0 <= j < |r| && r[j] == x;
        var j' := if j < i then j else j + 1;
        assert s[j'] == x && j' != i;
      }
      if x in s && id(x) != id(s[i]) {
        var j :| 0 <= j < |s| && s[j] == x;
        assert j != i;
        assert r[if j < i then j else j - 1] == x;
      }
    }
  }

  lemma ChronologicalUpdate<T(!new)>(s: seq<T>, id: T -> int, created: T -> int, next: nat, next': nat, i: nat, x: T)
    requires i < |s|
    requires Chronological(s, id, created, next)
    requires id(x) == id(s[i]) && created(x) == created(s[i]) && next <= next'
    ensures Chronological(s[i := x], id, created, next')
  {
  }

  /** Inserts `x` into a sequence sorted by `key`, before the first element
      whose key is not smaller, so that earlier elements stay in front. */
  function Insert<T>(x: T, s: seq<T>, key: T -> int): seq<T>
  {
    if s == [] then [x]
    else if key(x) <= key(s[0]) then [x] + s
    else [s[0]] + Insert(x, s[1..], key)
  }

  lemma {:induction false} InsertPermutes<T(!new)>(x: T, s: seq<T>, key: T -> int)
    ensures multiset(Insert(x, s, key)) == multiset(s) + multiset{x}
  {
    if s != [] && key(x) > key(s[0]) {
      InsertPermutes(x, s[1..], key);
      assert s == [s[0]] + s[1..];
    }
  }

  lemma {:induction false} InsertCorrect<T(!new)>(x: T, s: seq<T>, key: T -> int)
    requires NonDecreasing(s, key)
    ensures multiset(Insert(x, s, key)) == multiset(s) + multiset{x}
    ensures NonDecreasing(Insert(x, s, key), key)
  {
    InsertPermutes(x, s, key);
    if s != [] && key(x) > key(s[0]) {
      var rest := Insert(x, s[1..], key);
      InsertCorrect(x, s[1..], key);
      var r := [s[0]] + rest;
      forall j | 0 < j < |r| ensures key(r[0]) <= key(r[j]) {
        assert r[j] in multiset(rest);
        assert r[j] == x || r[j] in multiset(s[1..]);
      }
    }
  }

  /** A sort by `key`, ascending: one of the orders a `.sort({ key: 1 })`
      query may return. Ties keep their order in `s`, which the database
      does not promise. */
  function SortBy<T>(s: seq<T>, key: T -> int): seq<T>
  {
    if s == [] then [] else Insert(s[0], SortBy(s[1..], key), key)
  }

  lemma {:induction false} SortByCorrect<T(!new)>(s: seq<T>, key: T -> int)
    ensures NonDecreasing(SortBy(s, key), key)
    ensures multiset(SortBy(s, key)) == multiset(s)
  {
    if s != [] {
      SortByCorrect(s[1..], key);
      InsertCorrect(s[0], SortBy(s[1..], key), key);
      assert s == [s[0]] + s[1..];
    }
  }
}
