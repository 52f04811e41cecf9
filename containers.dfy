/**
 * The three library containers the programs use, reduced to the operations
 * they call: `Vec` (growable), `arrayvec::ArrayVec` (fixed capacity) and
 * `HashMap` (keyed). Indexing, `push` on a full `ArrayVec` and `unwrap`
 * panic in Rust; here they are preconditions.
 */
module Containers {
  import opened Primitives

  /** No element occurs twice: the elements are distinct objects when `T` is a class. */
  ghost predicate Distinct<T>(s: seq<T>) {
    forall i, j :: 0 <= i < j < |s| ==> s[i] != s[j]
  }

  /** `Vec<T>`: a growable sequence owned by the caller. */
  class Vec<T> {
    var elems: seq<T>

    /** `Vec::new()`. */
    constructor ()
      ensures elems == []
    {
      elems := [];
    }

    /** `Vec::push`: appends at the end, never fails. */
    method Push(x: T)
      modifies this
      ensures elems == old(elems) + [x]
    {
      elems := elems + [x];
    }

    /** `Vec::len`. */
    method Len() returns (n: usize)
      requires |elems| < 0x1_0000_0000_0000_0000
      ensures n as int == |elems|
    {
      n := |elems| as usize;
    }

    /** `v[i]` as an rvalue; out of bounds panics. */
    method Get(i: usize) returns (x: T)
      requires (i as int) < |elems|
      ensures x == elems[i]
    {
      x := elems[i];
    }
  }

  /**
   * `ArrayVec<T, CAP>`: an inline buffer of `CAP` possibly uninitialised
   * slots and a length. The first `len` slots hold the contents.
   */
  class ArrayVec<T> {
    ghost var Contents: seq<T>

    var xs: array<Option<T>>
    var len: nat

    ghost predicate Valid()
      reads this, xs
    {
      len <= xs.Length &&
      |Contents| == len &&
      forall i :: 0 <= i < len ==> xs[i] == Some(Contents[i])
    }

    /** The compile-time capacity `CAP`. */
    function Capacity(): nat
      reads this
    {
      xs.Length
    }

    /** `ArrayVec::<T, capacity>::new()`. */
    constructor (capacity: nat)
      ensures Valid() && fresh(xs)
      ensures Contents == [] && Capacity() == capacity
    {
      xs := new Option<T>[capacity](_ => None);
      len := 0;
      Contents := [];
    }

    /** `ArrayVec::push`: panics when the vector is already full. */
    method Push(x: T)
      requires Valid()
      requires |Contents| < Capacity()
      modifies this, xs
      ensures Valid() && xs == old(xs)
      ensures Contents == old(Contents) + [x]
      ensures Capacity() == old(Capacity())
    {
      xs[len] := Some(x);
      len := len + 1;
      Contents := Contents + [x];
    }

    /** `ArrayVec::len`. */
    method Len() returns (n: usize)
      requires Valid()
      requires |Contents| < 0x1_0000_0000_0000_0000
      ensures n as int == |Contents|
    {
      n := len as usize;
    }

    /** `av[i]` as an rvalue; out of bounds panics. */
    method Get(i: usize) returns (x: T)
      requires Valid()
      requires (i as int) < |Contents|
      ensures x == Contents[i]
    {
      x := xs[i].value;
    }
  }

  /** `HashMap<K, V>`: the entries as a finite map; hashing and order are not modelled. */
  class HashMap<K(==), V> {
    var entries: map<K, V>

    /** `HashMap::new()`. */
    constructor ()
      ensures entries == map[]
    {
      entries := map[];
    }

    /** `HashMap::insert`: stores `v` under `k` and returns the value it displaced. */
    method Insert(k: K, v: V) returns (prev: Option<V>)
      modifies this
      ensures entries == old(entries)[k := v]
      ensures prev == if k in old(entries) then Some(old(entries)[k]) else None
    {
      prev := if k in entries then Some(entries[k]) else None;
      entries := entries[k := v];
    }

    /**
     * `HashMap::get_mut`: the entry under `k`, if any. The programs only
     * write through references the entry holds, never the entry itself,
     * so handing back the entry value loses nothing.
     */
    method GetMut(k: K) returns (r: Option<V>)
      ensures r.Some? <==> k in entries
      ensures r.Some? ==> r.value == entries[k]
    {
      r := if k in entries then Some(entries[k]) else None;
    }
  }
}
