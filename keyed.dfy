/** The two list reconciliations the pages apply to their local lists of
    records identified by a string key (an `_id`):
    `list.map(x => key(x) === k ? f(x) : x)` and `list.filter(x => key(x) !== k)`. */
module Keyed {

  /** `s.map(x => key(x) === k ? f(x) : x)`. */
  function UpdateWhere<T>(s: seq<T>, key: T -> string, k: string, f: T -> T): (r: seq<T>)
    ensures |r| == |s|
    ensures forall i :: 0 <= i < |s| ==> r[i] == if key(s[i]) == k then f(s[i]) else s[i]
  {
    if s == [] then []
    else [if key(s[0]) == k then f(s[0]) else s[0]] + UpdateWhere(s[1..], key, k, f)
  }

  /** Updating twice with a patch that keeps the key and is itself idempotent
      gives the same list as updating once. */
  lemma {:induction false} UpdateWhereIdempotent<T>(s: seq<T>, key: T -> string, k: string, f: T -> T)
    requires forall x :: key(f(x)) == key(x)
    requires forall x :: f(f(x)) == f(x)
    ensures UpdateWhere(UpdateWhere(s, key, k, f), key, k, f) == UpdateWhere(s, key, k, f)
  {
    if s != [] {
      var once := UpdateWhere(s, key, k, f);
      UpdateWhereIdempotent(s[1..], key, k, f);
      assert once[1..] == UpdateWhere(s[1..], key, k, f);
    }
  }

  /** `s.filter(x => key(x) !== k)`. */
  function RemoveWhere<T>(s: seq<T>, key: T -> string, k: string): (r: seq<T>)
    ensures |r| <= |s|
    ensures forall i :: 0 <= i < |r| ==> key(r[i]) != k
    ensures forall i :: 0 <= i < |r| ==> r[i] in s
    ensures forall i :: 0 <= i < |s| && key(s[i]) != k ==> s[i] in r
  {
    if s == [] then []
    else if key(s[0]) == k then RemoveWhere(s[1..], key, k)
    else [s[0]] + RemoveWhere(s[1..], key, k)
  }

  /** Filtering distributes over concatenation: the kept records stay in
      their original relative order. */
  lemma {:induction false} RemoveWhereConcat<T>(a: seq<T>, b: seq<T>, key: T -> string, k: string)
    ensures RemoveWhere(a + b, key, k) == RemoveWhere(a, key, k) + RemoveWhere(b, key, k)
  {
    if a != [] {
      var t := a[1..];
      assert (a + b)[0] == a[0] && (a + b)[1..] == t + b;
      RemoveWhereConcat(t, b, key, k);
      var rt, rb := RemoveWhere(t, key, k), RemoveWhere(b, key, k);
      assert RemoveWhere(a + b, key, k) == (if key(a[0]) == k then [] else [a[0]]) + (rt + rb);
      assert RemoveWhere(a, key, k) == (if key(a[0]) == k then [] else [a[0]]) + rt;
    } else {
      assert a + b == b;
    }
  }

  /** Removing a key that no record carries leaves the list as it is. */
  lemma {:induction false} RemoveWhereAbsent<T>(s: seq<T>, key: T -> string, k: string)
    requires forall i :: 0 <= i < |s| ==> key(s[i]) != k
    ensures RemoveWhere(s, key, k) == s
  {
    if s != [] {
      RemoveWhereAbsent(s[1..], key, k);
    }
  }

  /** The number of records removed is the number carrying the key. */
  function CountKey<T>(s: seq<T>, key: T -> string, k: string): (n: nat)
    ensures n <= |s|
  {
    if s == [] then 0 else (if key(s[0]) == k then 1 else 0) + CountKey(s[1..], key, k)
  }

  lemma {:induction false} RemoveWhereLength<T>(s: seq<T>, key: T -> string, k: string)
    ensures |RemoveWhere(s, key, k)| == |s| - CountKey(s, key, k)
  {
    if s != [] {
      RemoveWhereLength(s[1..], key, k);
    }
  }
}
