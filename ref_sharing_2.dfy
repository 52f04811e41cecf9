/**
 * Ref-Sharing-2/src/main.rs, module `mod_widget`: a record of three fields
 * and a `Widget` holding `&mut` bindings to all three. A binding to a field
 * of a record is modelled by a reference to the record itself: the widget's
 * `mouse`, `rat` and `cat` are the record's.
 */
module ModWidget {
  import opened Primitives

  /** `Animals`: configuration the widget owns and never reads. */
  datatype Animals = Animals(cat: u32, dog: u32)

  /** The three fields of a `State`, as a value. */
  datatype Fields = Fields(mouse: bool, rat: u32, cat: u32)

  /** What `change_a_val` writes. */
  const CHANGED: Fields := Fields(true, 42, 42)

  /** `State`: created by `main` and then written through a `Widget`. */
  class State {
    var mouse: bool
    var rat: u32
    var cat: u32

    /** The struct literal `State { mouse, rat, cat }`. */
    constructor (mouse: bool, rat: u32, cat: u32)
      ensures Snapshot() == Fields(mouse, rat, cat)
    {
      this.mouse := mouse;
      this.rat := rat;
      this.cat := cat;
    }

    /** The current field values. */
    function Snapshot(): Fields
      reads this
    {
      Fields(mouse, rat, cat)
    }
  }

  class Widget {
    /** The record all three bindings point into. */
    const target: State
    const animals: Animals

    /**
     * `Widget::new`: binds to the fields of `texiStruct` and takes ownership
     * of `animals`; the record itself is left as it was.
     */
    constructor (texiStruct: State, animals: Animals)
      ensures target == texiStruct && this.animals == animals
      ensures unchanged(texiStruct)
    {
      target := texiStruct;
      this.animals := animals;
    }

    /** `change_a_val`: writes `true`, `42`, `42` through the bindings, i.e. into `target`. */
    method ChangeAVal()
      modifies target
      ensures target.Snapshot() == CHANGED
    {
      target.mouse := true;
      target.rat := 42;
      target.cat := 42;
    }

    /** `print_mouse_val`: the value it prints, read through the binding. */
    method PrintMouseVal() returns (shown: bool)
      ensures shown == target.mouse
    {
      shown := target.mouse;
    }
  }
}

/** Ref-Sharing-2/src/main.rs, `main`, and the idempotence of `change_a_val`. */
module RefSharing2 {
  import opened ModWidget

  /**
   * `main`: the record starts as `{false, 44, 55}`; after `change_a_val`
   * both `main` and the widget see `mouse == true`; after `main` writes
   * `false` through the widget's binding the record is `{false, 42, 42}`.
   * Results are the three printed values and the record's final fields.
   */
  method MainScenario() returns (mainMouse: bool, shownAfterChange: bool,
                                 shownAfterWrite: bool, final: Fields)
    ensures mainMouse && shownAfterChange && !shownAfterWrite
    ensures final == Fields(false, 42, 42)
  {
    var animals := Animals(123, 456);
    var states := new State(false, 44, 55);
    var portal := new Widget(states, animals);
    portal.ChangeAVal();
    mainMouse := portal.target.mouse;
    shownAfterChange := portal.PrintMouseVal();
    portal.target.mouse := false;
    shownAfterWrite := portal.PrintMouseVal();
    final := states.Snapshot();
  }

  /** Calling `change_a_val` twice leaves the record as calling it once does, from any start. */
  method ChangeAValIdempotent(start: Fields, animals: Animals) returns (once: Fields, twice: Fields)
    ensures once == twice == CHANGED
  {
    var r1 := new State(start.mouse, start.rat, start.cat);
    var w1 := new Widget(r1, animals);
    w1.ChangeAVal();
    once := r1.Snapshot();

    var r2 := new State(start.mouse, start.rat, start.cat);
    var w2 := new Widget(r2, animals);
    w2.ChangeAVal();
    w2.ChangeAVal();
    twice := r2.Snapshot();
  }
}
