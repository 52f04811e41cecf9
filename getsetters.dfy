/**
 * getsetters/src/main.rs, module `widget`: a configuration value and a
 * widget state record with a getter and a setter for its `s` field.
 */
module Widget {
  import opened Primitives

  /** `Config`: plain data, never mutated after construction. */
  datatype Config = Config(a: u32, b: u32)

  /** `State`: owned by a container and updated in place through `&mut self`. */
  class State {
    var c: Config
    var s: usize
    var t: u32

    /** `State::new`: stores `c` and defaults `s` and `t` to zero. */
    constructor (c: Config)
      ensures this.c == c && s == 0 && t == 0
    {
      this.c := c;
      s := 0;
      t := 0;
    }

    /** `do_stuff`: takes `&mut self` and does nothing with it. */
    method DoStuff()
      modifies this
      ensures unchanged(this)
    {
    }

    /** `get_state_s`: the current `s`; takes `&self`, so changes nothing. */
    method GetStateS() returns (r: usize)
      ensures r == s
    {
      r := s;
    }

    /** `set_state_s`: overwrites `s` and nothing else. */
    method SetStateS(x: usize)
      modifies this`s
      ensures s == x
      ensures c == old(c) && t == old(t)
    {
      s := x;
    }
  }

  /** The setter and the getter agree: reading `s` after setting it gives back the value set. */
  method SetThenGet(st: State, x: usize) returns (r: usize)
    modifies st`s
    ensures r == x
    ensures st.s == x && st.c == old(st.c) && st.t == old(st.t)
  {
    st.SetStateS(x);
    r := st.GetStateS();
  }

  /** A record exactly as `State::new(c)` leaves it. */
  ghost predicate IsNew(st: State, c: Config)
    reads st
  {
    st.c == c && st.s == 0 && st.t == 0
  }
}

/**
 * getsetters/src/main.rs, module `builder`: fill a container with
 * `CAPACITY` fresh records built from the configuration `{a: 123, b: 456}`.
 */
module Builder {
  import opened Primitives
  import opened Containers
  import opened Widget

  /** The crate-level constant that sizes both containers. */
  const CAPACITY: nat := 10000

  /** The configuration every builder iteration constructs. */
  const BUILT_CONFIG: Config := Config(123, 456)

  /**
   * What a builder leaves behind: `before` kept as a prefix, then `CAPACITY`
   * new records, each allocated by the builder, in its initial state, and
   * no two of them the same object.
   */
  ghost predicate Built(before: seq<State>, after: seq<State>)
    reads set i | 0 <= i < |after| :: after[i]
  {
    |after| == |before| + CAPACITY &&
    after[..|before|] == before &&
    (forall i :: |before| <= i < |after| ==> IsNew(after[i], BUILT_CONFIG)) &&
    Distinct(after[|before|..])
  }

  /** `vec_builder`: pushes `CAPACITY` new records onto `v`. */
  method VecBuilder(v: Vec<State>)
    modifies v
    ensures Built(old(v.elems), v.elems)
    ensures forall i :: |old(v.elems)| <= i < |v.elems| ==> fresh(v.elems[i])
  {
    ghost var n0 := |v.elems|;
    var k := 0;
    while k < CAPACITY
      invariant 0 <= k <= CAPACITY
      invariant |v.elems| == n0 + k
      invariant v.elems[..n0] == old(v.elems)
      invariant forall i :: n0 <= i < |v.elems| ==> fresh(v.elems[i]) && IsNew(v.elems[i], BUILT_CONFIG)
      invariant Distinct(v.elems[n0..])
    {
      var w := Config(123, 456);
      var state := new State(w);
      v.Push(state);
      k := k + 1;
    }
  }

  /**
   * `avec_builder`: the same on an `ArrayVec<State, CAPACITY>`. Every push
   * must find room, since a push into a full `ArrayVec` panics.
   */
  method AvecBuilder(av: ArrayVec<State>)
    requires av.Valid()
    requires av.Capacity() == CAPACITY
    requires |av.Contents| + CAPACITY <= av.Capacity()
    modifies av, av.xs
    ensures av.Valid() && av.xs == old(av.xs) && av.Capacity() == CAPACITY
    ensures Built(old(av.Contents), av.Contents)
    ensures forall i :: |old(av.Contents)| <= i < |av.Contents| ==> fresh(av.Contents[i])
  {
    ghost var n0 := |av.Contents|;
    var k := 0;
    while k < CAPACITY
      invariant 0 <= k <= CAPACITY
      invariant av.Valid() && av.xs == old(av.xs) && av.Capacity() == CAPACITY
      invariant |av.Contents| == n0 + k
      invariant av.Contents[..n0] == old(av.Contents)
      invariant forall i :: n0 <= i < |av.Contents| ==> fresh(av.Contents[i]) && IsNew(av.Contents[i], BUILT_CONFIG)
      invariant Distinct(av.Contents[n0..])
    {
      var w := Config(123, 456);
      var state := new State(w);
      av.Push(state);
      k := k + 1;
    }
  }
}

/**
 * getsetters/src/main.rs, `main`: build both containers, then write each
 * record's `s` to its own index while pushing the index into a second
 * container. The timing around the loops is not modelled.
 */
module GetSetters {
  import opened Primitives
  import opened Containers
  import opened Widget
  import opened Builder

  /** The indices `0, 1, ..., n - 1` in order, as `(0..n)` yields them. */
  function Indices(n: nat): (r: seq<usize>)
    requires n <= 0x1_0000_0000_0000_0000
    ensures |r| == n
    ensures forall f :: 0 <= f < n ==> r[f] as int == f
  {
    if n == 0 then [] else Indices(n - 1) + [(n - 1) as usize]
  }

  /**
   * The loop over `v` in `main`: `v[f].set_state_s(f)` and `vec.push(f)` for
   * each `f < CAPACITY`. Indexing needs `v.len() >= CAPACITY`, and the
   * records must be distinct objects for one write not to clobber another.
   */
  method SetIndicesVec(v: Vec<State>, vec: Vec<usize>)
    requires |v.elems| >= CAPACITY && Distinct(v.elems[..CAPACITY])
    modifies v.elems[..CAPACITY], vec
    ensures vec.elems == old(vec.elems) + Indices(CAPACITY)
    ensures forall f :: 0 <= f < CAPACITY ==> v.elems[f].s as int == f
    ensures forall f :: 0 <= f < CAPACITY ==> v.elems[f].c == old(v.elems[f].c) && v.elems[f].t == old(v.elems[f].t)
  {
    ghost var vec0 := vec.elems;
    var f: usize := 0;
    while f < CAPACITY as usize
      invariant 0 <= f as int <= CAPACITY
      invariant vec.elems == vec0 + Indices(f as int)
      invariant forall k :: 0 <= k < f as int ==> v.elems[k].s as int == k
      invariant forall k :: 0 <= k < CAPACITY ==> v.elems[k].c == old(v.elems[k].c) && v.elems[k].t == old(v.elems[k].t)
    {
      var w := v.Get(f);
      w.SetStateS(f);
      vec.Push(f);
      f := f + 1;
    }
  }

  /** The same loop over `av`, pushing the indices into an `ArrayVec<usize, CAPACITY>`. */
  method SetIndicesAvec(av: ArrayVec<State>, avec: ArrayVec<usize>)
    requires av.Valid() && |av.Contents| >= CAPACITY && Distinct(av.Contents[..CAPACITY])
    requires avec.Valid() && |avec.Contents| + CAPACITY <= avec.Capacity()
    modifies av.Contents[..CAPACITY], avec, avec.xs
    ensures av.Valid() && av.Contents == old(av.Contents)
    ensures avec.Valid() && avec.xs == old(avec.xs) && avec.Capacity() == old(avec.Capacity())
    ensures avec.Contents == old(avec.Contents) + Indices(CAPACITY)
    ensures forall f :: 0 <= f < CAPACITY ==> av.Contents[f].s as int == f
    ensures forall f :: 0 <= f < CAPACITY ==> av.Contents[f].c == old(av.Contents[f].c) && av.Contents[f].t == old(av.Contents[f].t)
  {
    ghost var avec0 := avec.Contents;
    var f: usize := 0;
    while f < CAPACITY as usize
      invariant 0 <= f as int <= CAPACITY
      invariant av.Valid() && av.Contents == old(av.Contents)
      invariant avec.Valid() && avec.xs == old(avec.xs) && avec.Capacity() == old(avec.Capacity())
      invariant avec.Contents == avec0 + Indices(f as int)
      invariant forall k :: 0 <= k < f as int ==> av.Contents[k].s as int == k
      invariant forall k :: 0 <= k < CAPACITY ==> av.Contents[k].c == old(av.Contents[k].c) && av.Contents[k].t == old(av.Contents[k].t)
    {
      var w := av.Get(f);
      w.SetStateS(f);
      avec.Push(f);
      f := f + 1;
    }
  }

  /**
   * Lines 7-14 of `main`: an empty `Vec` and an empty `ArrayVec<State,
   * CAPACITY>`, each populated by its builder. Every record is new and in
   * its initial state, and no record belongs to both containers or
   * appears twice in one of them.
   */
  method BuildStates() returns (v: Vec<State>, av: ArrayVec<State>)
    ensures fresh(v) && fresh(av) && fresh(av.xs) && av.Valid() && av.Capacity() == CAPACITY
    ensures |v.elems| == CAPACITY && Distinct(v.elems) && |av.Contents| == CAPACITY && Distinct(av.Contents[..CAPACITY])
    ensures forall i :: 0 <= i < CAPACITY ==> fresh(v.elems[i]) && IsNew(v.elems[i], BUILT_CONFIG)
    ensures forall i :: 0 <= i < CAPACITY ==> fresh(av.Contents[i]) && IsNew(av.Contents[i], BUILT_CONFIG)
    ensures forall i, j :: 0 <= i < CAPACITY && 0 <= j < CAPACITY ==> av.Contents[j] != v.elems[i]
  {
    v := new Vec<State>();
    VecBuilder(v);
    av := new ArrayVec<State>(CAPACITY);
    AvecBuilder(av);
    assert v.elems == v.elems[0..] && av.Contents == av.Contents[0..];
  }

  /**
   * Lines 20-42 of `main`: the loop over `v` filling a new `vec`, then the
   * loop over `av` filling a new `avec`. Both index containers end up holding
   * `0, 1, ..., CAPACITY - 1`, every record's `s` is its own index, its `c`
   * and `t` are untouched, and `vecLast`, `avecLast` are the last elements
   * `main` prints.
   */
  method IndexLoops(v: Vec<State>, av: ArrayVec<State>)
      returns (vec: Vec<usize>, avec: ArrayVec<usize>, vecLast: usize, avecLast: usize)
    requires |v.elems| >= CAPACITY && Distinct(v.elems[..CAPACITY])
    requires av.Valid() && |av.Contents| >= CAPACITY && Distinct(av.Contents[..CAPACITY])
    requires forall i, j :: 0 <= i < CAPACITY && 0 <= j < CAPACITY ==> av.Contents[j] != v.elems[i]
    modifies v.elems[..CAPACITY], av.Contents[..CAPACITY]
    ensures fresh(vec) && fresh(avec) && fresh(avec.xs) && avec.Valid() && avec.Capacity() == CAPACITY
    ensures vec.elems == Indices(CAPACITY) && avec.Contents == Indices(CAPACITY)
    ensures vecLast as int == CAPACITY - 1 && avecLast as int == CAPACITY - 1
    ensures v.elems == old(v.elems) && av.Valid() && av.Contents == old(av.Contents)
    ensures forall f :: 0 <= f < CAPACITY ==> v.elems[f].s as int == f && av.Contents[f].s as int == f
    ensures forall f :: 0 <= f < CAPACITY ==> v.elems[f].c == old(v.elems[f].c) && v.elems[f].t == old(v.elems[f].t)
    ensures forall f :: 0 <= f < CAPACITY ==> av.Contents[f].c == old(av.Contents[f].c) && av.Contents[f].t == old(av.Contents[f].t)
  {
    vec := new Vec<usize>();
    SetIndicesVec(v, vec);
    vecLast := vec.Get((CAPACITY - 1) as usize);

    avec := new ArrayVec<usize>(CAPACITY);
    SetIndicesAvec(av, avec);
    avecLast := avec.Get((CAPACITY - 1) as usize);
  }

  /**
   * `main`, with what it prints as results: both lengths, `v[0].s` before
   * the loops, the last index pushed into `vec` and `avec`, and `v[0].s`
   * and `av[0].s` after them.
   */
  method MainScenario() returns (vLen: usize, avLen: usize, firstBefore: usize,
                                 vecLast: usize, avecLast: usize,
                                 firstAfter: usize, avFirstAfter: usize)
    ensures vLen as int == CAPACITY && avLen as int == CAPACITY
    ensures firstBefore == 0
    ensures vecLast as int == CAPACITY - 1 && avecLast as int == CAPACITY - 1
    ensures firstAfter == 0 && avFirstAfter == 0
  {
    var v, av := BuildStates();
    vLen := v.Len();
    avLen := av.Len();

    var w0 := v.Get(0);
    firstBefore := w0.GetStateS();

    var vec, avec;
    vec, avec, vecLast, avecLast := IndexLoops(v, av);

    w0 := v.Get(0);
    firstAfter := w0.GetStateS();
    var aw0 := av.Get(0);
    avFirstAfter := aw0.GetStateS();
  }
}
