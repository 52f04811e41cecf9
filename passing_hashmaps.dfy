/**
 * Passing-hashmaps/src/main.rs, module `texicon`: map entries that hold a
 * `&mut Enum` binding, and a `Texicon` that reborrows the binding held by
 * the entry under `"a"`. The enum the binding points at is a cell object, so
 * the entry and the texicon share it.
 */
module Texicon {
  import opened Primitives
  import opened Containers

  /** `texicon::Enum`. */
  datatype Enum = On | Off

  /** The storage an `&mut Enum` points at. */
  class EnumCell {
    var value: Enum

    constructor (value: Enum)
      ensures this.value == value
    {
      this.value := value;
    }
  }

  /** `TexiStruct`: the binding and two owned values. */
  datatype TexiStruct = TexiStruct(shared: EnumCell, vec: seq<u32>, s: string)

  /** The key both operations look up. */
  const KEY: string := "a"

  class Texicon {
    const texiref: EnumCell

    /**
     * `Texicon::new`: the binding held by entry `"a"`. `unwrap` panics when
     * the key is missing. Neither the map nor any cell is written.
     */
    constructor (hm: HashMap<string, TexiStruct>)
      requires KEY in hm.entries
      ensures texiref == hm.entries[KEY].shared
      ensures unchanged(hm, hm.entries[KEY].shared)
    {
      var temp := hm.GetMut(KEY);
      texiref := temp.value.shared;
    }

    /**
     * `Texicon::aggregate`: sets the cell bound by entry `"a"` to `On`
     * (`unwrap` again panics without the key). `printed` is the entry's
     * `s`, which it prints. The map, every entry and every other cell are
     * left as they were.
     */
    static method Aggregate(hm: HashMap<string, TexiStruct>) returns (printed: string)
      requires KEY in hm.entries
      modifies hm.entries[KEY].shared
      ensures hm.entries == old(hm.entries)
      ensures hm.entries[KEY].shared.value == On
      ensures printed == hm.entries[KEY].s
      ensures forall k :: k in hm.entries && hm.entries[k].shared != hm.entries[KEY].shared ==>
                hm.entries[k].shared.value == old(hm.entries[k].shared.value)
    {
      var temp := hm.GetMut(KEY);
      printed := temp.value.s;
      temp.value.shared.value := On;
    }
  }
}

/** Passing-hashmaps/src/main.rs, `main`. */
module PassingHashmaps {
  import opened Primitives
  import opened Containers
  import opened Texicon

  /**
   * `main`: an entry with an `Off` cell is inserted under `"a"`; the
   * texicon built from the map binds that cell and so reads `Off`, and
   * after `aggregate` it reads `On`. `stored` is the entry looked up after
   * the insertion.
   */
  method MainScenario() returns (stored: TexiStruct, before: Enum, printed: string, after: Enum)
    ensures stored.vec == [4, 5, 6] && stored.s == "me is a string"
    ensures before == Off && after == On && stored.shared.value == On
    ensures printed == "me is a string"
  {
    var cell := new EnumCell(Off);
    var texistruct := TexiStruct(cell, [4, 5, 6], "me is a string");
    var hm := new HashMap<string, TexiStruct>();
    var _ := hm.Insert(KEY, texistruct);
    var found := hm.GetMut(KEY);
    stored := found.value;

    var result := new Texicon(hm);
    before := result.texiref.value;
    printed := Texicon.Aggregate(hm);
    after := result.texiref.value;
  }
}
