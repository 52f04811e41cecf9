/**
 * Ref-Sharing/src/main.rs: one `u32` owned by `main` and reached through
 * `&mut u32` bindings held first by `abc::MyStruct` and then, reborrowed,
 * by `xyz::Remote`. The variable is modelled as a cell object.
 */
module Cell {
  import opened Primitives

  /** The storage of `main`'s `let mut value: u32`. */
  class U32Cell {
    var value: u32

    constructor (value: u32)
      ensures this.value == value
    {
      this.value := value;
    }
  }
}

/** Ref-Sharing/src/main.rs, module `xyz`. */
module Xyz {
  import opened Primitives
  import opened Cell

  class Remote {
    /** The field `var` (a Dafny keyword, hence the name). */
    const remoteVar: U32Cell

    /** `Remote::new`: holds the binding it is given, writes nothing. */
    constructor (v: U32Cell)
      ensures remoteVar == v && unchanged(v)
    {
      remoteVar := v;
    }

    /** `rem_update`: writes 246 through the binding. */
    method RemUpdate()
      modifies remoteVar
      ensures remoteVar.value == 246
    {
      remoteVar.value := 246;
    }
  }
}

/** Ref-Sharing/src/main.rs, module `abc`. */
module Abc {
  import opened Primitives
  import opened Cell
  import opened Xyz

  class MyStruct {
    const mainVar: U32Cell

    /** `MyStruct::new`: holds the binding it is given, writes nothing. */
    constructor (mainVar: U32Cell)
      ensures this.mainVar == mainVar && unchanged(mainVar)
    {
      this.mainVar := mainVar;
    }

    /**
     * `update`: writes 234, hands the binding to a `Remote`, which writes
     * 246 into the same cell. `printed` holds the four values it prints
     * (lines 2. to 5.): the value on entry, 234 twice, then 246.
     */
    method Update() returns (printed: seq<u32>)
      modifies mainVar
      ensures mainVar.value == 246
      ensures printed == [old(mainVar.value), 234, 234, 246]
    {
      printed := [mainVar.value];
      mainVar.value := 234;
      printed := printed + [mainVar.value];
      var rem := new Remote(mainVar);
      printed := printed + [rem.remoteVar.value];
      rem.RemUpdate();
      printed := printed + [rem.remoteVar.value];
    }
  }
}

/** Ref-Sharing/src/main.rs, `main`. */
module RefSharing {
  import opened Primitives
  import opened Cell
  import opened Abc

  /**
   * `main`: the value is 456, `main` writes 789 through the binding, and
   * `update` takes it through 234 to 246, which `main` then sees.
   * `printed` holds the six printed values in order.
   */
  method MainScenario() returns (printed: seq<u32>)
    ensures printed == [456, 789, 234, 234, 246, 246]
  {
    var value := new U32Cell(456);
    var result := new MyStruct(value);
    printed := [result.mainVar.value];
    result.mainVar.value := 789;
    var inner := result.Update();
    printed := printed + inner + [result.mainVar.value];
  }
}
