# builder_impl: the `field!` accessor macro

`builder_impl` is a Rust crate with one macro, `field!(Owner, vis, name, ty, a.b.c)`.
For one field of a struct, reached through a possibly nested path such as `inner.x`,
it adds four methods to `impl Owner`:

- the setter `name(v)` assigns `v` to the field and returns `&mut self`;
- the getter `get_name()` returns `&ty`, a reference to the field;
- the mutter `mut_name()` returns `&mut ty`, so the caller can write to the field;
- the mapper `map_name(f)` calls `f(&mut field)` once and returns `&mut self`.

The `paste!` macro builds the three derived identifiers by gluing `get_`, `mut_` and
`map_` in front of `name`.

This project models what the generated methods do, for any owner and any path, and
proves what they promise.

- `record.dfy` (module `Record`): the owner as a nested record value `Value<T>`.
  `Resolves` says when a path names a field. `Get`, `Set` and `Update` give the meaning of
  reading, assigning and rewriting the place `self.a.b.c`. The lemmas cover round trips,
  overriding writes, path isolation, the struct around a nested field, and mapper
  composition.
- `descriptor.dfy` (module `Descriptor`): the descriptor and the identifier derivation.
  It states when two accessor names give clashing methods, and when an owner's methods
  are accepted (no two share a name). It also models name lookup of a call in the owner's
  impl blocks and proves it sound and complete.
- `accessors.dfy` (module `Accessors`): class `Owner<T>` is the struct instance. Its
  methods `Setter`, `Getter`, `Mutter` and `Mapper` are the four generated methods.
  `Setter` and `Mapper` change `root` in place and return the receiver; `Getter` reads
  the field, and `Mutter` returns a `Place` for it. Class `Place<T>` is the `&mut ty`
  that `mut_name` returns, with `Read` and `Write`.
- `builder_test.dfy` (module `BuilderTest`): the crate's own test. It has a `Builder`
  with `the_x: u32`, `s: String` and `inner.x: f32`, and its three descriptors. The run
  of calls is proved to give the expected state after every step.

The macro itself checks neither paths, nor types, nor accessor-name collisions; Rust's
compiler does. The model states the path and owner checks as preconditions (`Resolves`,
`d.owner == typeName`) and the duplicate-name check as the predicate `Accepted`; the type
check is left out (see below).

Accessors with different names can still clash: for `x` and `get_x`, the setter of the
second is the getter of the first. `Descriptor.ClashIff` states exactly which pairs
clash, and Rust rejects such a program with a duplicate-definition error.

## Model

| member | source | states |
|---|---|---|
| Record.Get | src/lib.rs:15 | the value of the place `self.a.b.c`; a definition with no contract of its own, whose meaning `Record.GetSet` and `Record.SetGet` state against `Set` |
| Record.Set | src/lib.rs:9 | assigning to a resolvable place keeps the place resolvable, keeps the owner's field names, and leaves every other top-level field unchanged |
| Record.Update | src/lib.rs:25 | after `f(&mut place)`, the place holds `f` of its old value |
| Record.GetSet | src/lib.rs:8-16 | reading a place right after the setter assigned `v` yields `v`, for any path length |
| Record.SetGet | src/lib.rs:14-21 | writing back the value the getter returned leaves the owner unchanged |
| Record.SetSet | src/lib.rs:8-11 | a second setter call on the same field overrides the first completely |
| Record.SetOther | src/lib.rs:5-9 | path isolation: assigning at one path leaves every separate path (neither a prefix of the other) resolvable and with its old value |
| Record.SetKeepsPaths | src/lib.rs:9 | an assignment keeps every other resolvable path resolvable, except paths strictly below the assigned one |
| Record.SetKeepsPrefix | src/lib.rs:9 | every prefix of a resolvable path resolves, before and after assigning to the full path |
| Record.SetWithin | src/lib.rs:9 | for a nested path, the struct that contains the field changes only at that field: it is the old struct with the rest of the path assigned |
| Record.UpdateCompose | src/lib.rs:24-26 | mapping with `f` and then with `g` equals one mapping with `g` after `f` |
| Descriptor.Ident | src/lib.rs:8-24 | the name `paste!` gives each generated method (`name`, `get_name`, `mut_name`, `map_name`); a definition with no contract of its own, whose properties `Descriptor.DerivedIsIdent`, `Descriptor.IdentsDistinct`, `Descriptor.IdentEq` and `Descriptor.ClashIff` state |
| Descriptor.DerivedIsIdent | src/lib.rs:14-24 | gluing `get_`, `mut_` or `map_` in front of an ASCII identifier that can name a method (not a keyword, not a lone `_`) yields such an identifier again |
| Descriptor.IdentsDistinct | src/lib.rs:8-24 | the four method names generated for one descriptor are pairwise distinct |
| Descriptor.IdentEq | src/lib.rs:14-24 | two derived names are equal only when they have the same prefix and the same accessor name |
| Descriptor.ClashIff | src/lib.rs:7-28 | the methods of two accessor names clash exactly when the names are equal or one is the other with `get_`, `mut_` or `map_` in front |
| Descriptor.AcceptedIff | src/lib.rs:7-28 | the owner's generated methods all have distinct names exactly when no two descriptors of that owner have clashing accessor names |
| Descriptor.KindOf | src/lib.rs:8-24 | recognises which generated method of an accessor an identifier names, and answers none only when no kind's name matches |
| Descriptor.LookupSound | src/lib.rs:7-28 | a call by name only ever reaches a method generated for that owner under that name |
| Descriptor.LookupComplete | src/lib.rs:7-28 | when the owner's names are all distinct, calling any of a descriptor's four names reaches exactly that descriptor's method of that kind |
| Accessors.Owner.Setter | src/lib.rs:7-11 | on an instance of the descriptor's owner, assigns `v` at the path in place, returns the receiver, makes the getter read `v`, and leaves every separate path unchanged |
| Accessors.Owner.Getter | src/lib.rs:14-16 | reads without changing the owner and returns exactly the value stored at the path |
| Accessors.Owner.Mutter | src/lib.rs:19-21 | returns a place for this owner at the descriptor's path, whose read equals the getter |
| Accessors.Owner.Mapper | src/lib.rs:24-27 | replaces the field in place with `f` of its old value, returns the receiver, and leaves every separate path unchanged |
| Accessors.Place.Read | src/lib.rs:19-21 | reading through the mutable reference yields the value stored at its path |
| Accessors.Place.Write | src/lib.rs:19-21 | writing through the mutable reference is an assignment at the path, seen by the next read |
| BuilderTest.NamesApart | src/lib.rs:49-51 | the accessor names `x`, `s` and `inner` do not clash |
| BuilderTest.DescriptorsAccepted | src/lib.rs:49-51 | the test's three descriptors generate twelve distinct method names on `Builder` |
| BuilderTest.DescriptorsDispatch | src/lib.rs:49-51 | each of those twelve names reaches the method generated for its descriptor and kind |
| BuilderTest.SetX | src/lib.rs:49 | on a `Builder`, the `x` accessors read `the_x`, and assigning through them changes `the_x` and nothing else |
| BuilderTest.SetS | src/lib.rs:50 | on a `Builder`, the `s` accessors read `s`, and assigning through them changes `s` and nothing else |
| BuilderTest.SetInnerX | src/lib.rs:51 | on a `Builder`, assigning through the `inner` accessors changes `inner.x` and nothing else |
| BuilderTest.Double | src/lib.rs:60-69 | the closure `\|x\| *x *= 2`: a `u32` field becomes twice its value modulo 2^32, any other value is left alone (wrapping: see "## Left out") |
| BuilderTest.OnText | src/lib.rs:78 | the closure `\|s\| s.make_ascii_uppercase()` for a given uppercasing function; a definition with no contract of its own, used by `BuilderTest.Test` |
| BuilderTest.TestX | src/lib.rs:57-70 | set 10, double, double, write 2048 through `mut_x`, then `map_x(..).get_x()` reads 4096, with `s` and `inner.x` untouched |
| BuilderTest.Test | src/lib.rs:54-80 | starting from `Builder::default()`, the test's calls end with `the_x == 4096`, `inner.x == 2.0` and `s == upper("Hello world")`, so `s == "HELLO WORLD"` for an `upper` that uppercases "Hello world" that way |

## Left out

- Raw identifiers such as `r#type`, and non-ASCII identifiers: `Descriptor.IsIdent` covers ASCII identifiers only, so `Descriptor.DerivedIsIdent` says nothing about them. Keywords such as `type` are matched by `$name:ident` but cannot name a method; `Descriptor.IsIdent` excludes them (the 2021 edition's strict and reserved keywords).
- Macro matching and `paste!` internals: they run at compile time. Only the identifiers they produce are modelled (`Descriptor.Ident`).
- The visibility qualifier `vis` and `#[allow(dead_code)]`: they do not change what the methods do.
- The field type `ty`, and Rust's checks that the path exists and the value has the field's type: the compiler does these. The model requires `Resolves` for the path. `Value<T>` is untyped, so a setter in the model could store a value of a different shape. Rust's typing rules this out, so `Record.SetKeepsPaths` makes no claim about paths below the assigned field.
- Rust's duplicate-definition check: it is not in the crate. It is modelled as the predicate `Descriptor.Accepted`, not as an error the macro reports.
- Borrowing and aliasing of `&ty` and `&mut ty`: the getter is a read, and the mutter's reference is a place written through `Place.Write`. The borrow that keeps the owner exclusive while the reference lives is not modelled.
- `BuilderTest.Double`: it wraps on `u32` overflow, where a debug build of the test would panic. The test never reaches the overflow.
- `f32` for `inner.x`: it is represented by a `real`. The test only stores and compares it, so floating-point rounding never comes in.
- `String::make_ascii_uppercase`: `BuilderTest.Test` takes it as a function parameter `upper` and assumes nothing about it. Its final state holds `upper("Hello world")`; the last `assert_eq!` is stated for an `upper` that maps "Hello world" to "HELLO WORLD".
- The mapper's closure `FnOnce(&mut ty)` is a function from the old value to the new one. Closures that panic or have other effects are not modelled.
