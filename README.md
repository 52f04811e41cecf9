# Shared mutable state across module boundaries, modelled in Dafny

This project models four small Rust programs. Each one hands a mutable
reference to state owned in one place over to a struct defined in another
module. Both the owner and the borrower then observe the writes made through
that reference:

- **getsetters**: a `widget::State` record (`c: Config`, `s: usize`,
  `t: u32`) with a getter and a setter for `s`. Two builders push `CAPACITY`
  (10000) fresh records into a `Vec` and into an `ArrayVec<State, CAPACITY>`.
  `main` then runs two loops that set each record's `s` to its index and
  push the index into a second container.
- **Ref-Sharing-2**: a `Widget` holds `&mut` bindings to the three fields of
  a `State` owned by `main`. `change_a_val` writes `true, 42, 42` through
  them, and `main` then writes `mouse = false` through the widget.
- **Ref-Sharing**: one `u32` owned by `main` is reached first through
  `abc::MyStruct` and then, reborrowed, through `xyz::Remote`. It is
  written 789, then 234, then 246.
- **Passing-hashmaps**: a `HashMap<String, TexiStruct>` whose entry holds a
  `&mut Enum`. `Texicon::new` reborrows the binding held by entry `"a"`, and
  `aggregate` sets the enum to `On` through the entry.

Dafny cannot refer to a field or a local variable, so a Rust `&mut` binding
is modelled as an object reference:

- A `&mut u32` local is a `U32Cell`.
- A `&mut Enum` is an `EnumCell`.
- The widget's three field bindings are a single reference to the `State`
  record. The record has exactly those three fields, so nothing is lost.

Every record that Rust mutates in place is a class, and its methods carry
`modifies` frames. Anything printed with `println!`/`dbg!` is returned as a
result of the method that prints it, so the contracts can state the printed
values. `u32` and `usize` (64-bit) are newtypes. No arithmetic in these
programs comes near their bounds.

The library containers are modelled only as far as the programs use them:

- `Vec` is a class with a `seq` field.
- `ArrayVec` is a class over an `array<Option<T>>`, playing the role of its
  uninitialised slots, with a ghost `Contents`.
- `HashMap` is a class with a `map` field.

A Rust panic is a precondition in the model. This covers an index out of
bounds, a push into a full `ArrayVec`, and `unwrap` of a missing key.

## Model

| member | source | states |
|---|---|---|
| `Widget.State.constructor` | getsetters/src/main.rs:86-92 | `State::new(c)` stores `c` unchanged and sets `s` and `t` to 0 |
| `Widget.State.DoStuff` | getsetters/src/main.rs:94 | `do_stuff` leaves the record unchanged |
| `Widget.State.GetStateS` | getsetters/src/main.rs:100-102 | the getter returns the current `s` and modifies nothing |
| `Widget.State.SetStateS` | getsetters/src/main.rs:105-107 | afterwards `s == x`, and `c` and `t` are unchanged; only the field `s` may be written |
| `Widget.SetThenGet` | getsetters/src/main.rs:100-107 | the getter reads back exactly what the setter wrote, and `c` and `t` stay as they were |
| `Builder.VecBuilder` | getsetters/src/main.rs:53-59 | the length grows by exactly `CAPACITY`; the old elements stay as a prefix; each new element is a newly allocated record with config `{123, 456}`, `s == 0` and `t == 0`; no two new elements are the same object |
| `Builder.AvecBuilder` | getsetters/src/main.rs:61-67 | the same effect on an `ArrayVec<State, CAPACITY>`, which must have room for `CAPACITY` pushes (it starts empty); the container stays well formed and keeps its capacity |
| `GetSetters.Indices` | getsetters/src/main.rs:23 | the range `0..n` as a sequence: length `n`, and element `f` equals `f` |
| `GetSetters.SetIndicesVec` | getsetters/src/main.rs:23-26 | given `v.len() >= CAPACITY` and distinct records, afterwards `v[f].s == f` for every `f < CAPACITY` with `c` and `t` unchanged, and `vec` has gained exactly `0, 1, ..., CAPACITY - 1` |
| `GetSetters.SetIndicesAvec` | getsetters/src/main.rs:35-38 | the same for `av` and `avec`, where `avec` must have room for `CAPACITY` pushes; `av` itself is not changed |
| `GetSetters.BuildStates` | getsetters/src/main.rs:7-14 | both containers come back with exactly `CAPACITY` new, distinct records, each as `State::new` leaves it with config `{123, 456}` (`s == 0`, `t == 0`); no record belongs to both containers |
| `GetSetters.IndexLoops` | getsetters/src/main.rs:20-42 | given two containers of distinct records with none in common, `vec` and `avec` end up holding exactly `0, 1, ..., CAPACITY - 1` (so their last elements are `CAPACITY - 1`); `v[f].s == f` and `av[f].s == f` for every `f < CAPACITY` with `c` and `t` unchanged; both containers still hold the same records |
| `GetSetters.MainScenario` | getsetters/src/main.rs:2-46 | what `main` prints: both lengths are `CAPACITY`, `v[0].s` is 0 before the loops, the last pushed index is 9999 in both containers, and `v[0].s` and `av[0].s` are 0 at the end |
| `Containers.Vec.constructor` | getsetters/src/main.rs:7 | `Vec::new()` is empty |
| `Containers.Vec.Push` | getsetters/src/main.rs:25 | `push` appends exactly one element at the end |
| `Containers.Vec.Len` | getsetters/src/main.rs:9 | `len` is the number of elements |
| `Containers.Vec.Get` | getsetters/src/main.rs:18 | indexing (within bounds) yields the element at that position |
| `Containers.ArrayVec.constructor` | getsetters/src/main.rs:12 | `ArrayVec::new()` is empty, has the requested capacity and is well formed |
| `Containers.ArrayVec.Push` | getsetters/src/main.rs:65 | when not full, `push` appends exactly one element and keeps the capacity and the buffer |
| `Containers.ArrayVec.Len` | getsetters/src/main.rs:14 | `len` is the number of elements |
| `Containers.ArrayVec.Get` | getsetters/src/main.rs:36 | indexing (within bounds) yields the element at that position |
| `Containers.HashMap.constructor` | Passing-hashmaps/src/main.rs:13 | `HashMap::new()` has no entries |
| `Containers.HashMap.Insert` | Passing-hashmaps/src/main.rs:14 | `insert` maps the key to the new value, leaves the other keys alone, and returns the displaced value if there was one |
| `Containers.HashMap.GetMut` | Passing-hashmaps/src/main.rs:66 | the lookup succeeds exactly when the key is present, and then yields that key's entry |
| `ModWidget.State.constructor` | Ref-Sharing-2/src/main.rs:35-39 | the record holds exactly the given `mouse`, `rat` and `cat` |
| `ModWidget.Widget.constructor` | Ref-Sharing-2/src/main.rs:75-82 | `Widget::new` binds to the given record itself and keeps `animals`; the record is not modified |
| `ModWidget.Widget.ChangeAVal` | Ref-Sharing-2/src/main.rs:84-88 | the bound record becomes `{true, 42, 42}`, and nothing but that record is modified |
| `ModWidget.Widget.PrintMouseVal` | Ref-Sharing-2/src/main.rs:90-93 | prints the current `mouse` of the bound record and modifies nothing |
| `RefSharing2.MainScenario` | Ref-Sharing-2/src/main.rs:27-51 | from `{false, 44, 55}`: after `change_a_val`, `main` and the widget both read `mouse == true`; after `*portal.mouse = false` the widget reads `false` and the record is `{false, 42, 42}` |
| `RefSharing2.ChangeAValIdempotent` | Ref-Sharing-2/src/main.rs:84-88 | from any start, calling `change_a_val` twice leaves the record as one call does, namely `{true, 42, 42}` |
| `Cell.U32Cell.constructor` | Ref-Sharing/src/main.rs:21 | the cell holds the initial value |
| `Xyz.Remote.constructor` | Ref-Sharing/src/main.rs:59-61 | `Remote::new` holds the very cell it was given and does not change its value |
| `Xyz.Remote.RemUpdate` | Ref-Sharing/src/main.rs:63-65 | the shared cell becomes 246, and nothing else is modified |
| `Abc.MyStruct.constructor` | Ref-Sharing/src/main.rs:37-39 | `MyStruct::new` holds the very cell it was given and does not change its value |
| `Abc.MyStruct.Update` | Ref-Sharing/src/main.rs:41-49 | whatever the starting value, the cell ends at 246; the four printed values are the start value, 234, 234 (seen through `Remote`) and 246 |
| `RefSharing.MainScenario` | Ref-Sharing/src/main.rs:20-27 | the six printed values are 456, 789, 234, 234, 246, 246: the owner sees 246 at the end |
| `Texicon.EnumCell.constructor` | Passing-hashmaps/src/main.rs:8 | the cell holds the initial enum value |
| `Texicon.Texicon.constructor` | Passing-hashmaps/src/main.rs:64-68 | needs key `"a"` (the `unwrap`); `texiref` is the same cell as `hm["a"].shared`; neither the map nor that cell is modified |
| `Texicon.Texicon.Aggregate` | Passing-hashmaps/src/main.rs:70-74 | needs key `"a"`; sets `hm["a"].shared` to `On`, returns the printed `s`, leaves the map and all its entries unchanged, and leaves every other cell unchanged |
| `PassingHashmaps.MainScenario` | Passing-hashmaps/src/main.rs:6-21 | the entry looked up after the insertion has `vec == [4, 5, 6]` and the given `s`; the texicon reads `Off` before `aggregate` and `On` after it, as does the stored entry's cell; `aggregate` prints the entry's `s` |

## Left out

- Timing (`Instant::now`, `elapsed`) in getsetters `main`: wall-clock measurements have no effect on state.
- Console output: `println!` and `dbg!` are not modelled as I/O. The printed values become method results. `print_mouse_val` is a read that returns what it prints.
- `Vec::capacity`, `ArrayVec::capacity` (as printed) and `as_ptr`: these are allocator details.
- `#[derive(Default, Debug)]` on getsetters' `Config`/`State` and `#[derive(Default)]` on `Animals`: the derived `default()` is never called, and `Debug` only serves printing.
- Lifetimes and borrow-checker rules: `&mut` exclusivity appears only where the model needs it, as the distinctness of a container's records. That distinctness holds automatically for values owned by a Rust container.
- Passing-hashmaps lines 16-20 would not compile: `result` borrows `hm`, `hm` is then moved into `aggregate`, and `result` is used afterwards. The model gives only the effects of `new` and `aggregate` on the shared cell. It does not give a borrow error or a stale value.
- `HashMap` hashing, iteration order and reallocation, and `Vec` reallocation: a finite map and a sequence capture the contents.
- Code that is commented out (Ref-Sharing-2 lines 97-107, Passing-hashmaps lines 44-52, getsetters lines 16-17) is not modelled.
- `Ref-Sharing-2/main copy (works).rs`, `Modules and structure/src/app.rs` and `Modules and structure/src/blar.rs` are not part of this model.
