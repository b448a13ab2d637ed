/**
 The four methods `field!` adds to `impl Owner` for one descriptor, for any owner
 and any field path.  An `Owner` object is the struct instance the methods receive
 as `self`; its fields are the nested record `root`, which the setter, the
 mutter's reference and the mapper change in place.
 */
module Accessors {
  import opened Record
  import opened Descriptor

  class Owner<T> {
    /** The name of the struct: a descriptor's methods exist only on `impl Owner`
        for the owner it names. */
    const typeName: string
    /** The fields of the struct instance. */
    var root: Value<T>

    constructor (typeName: string, init: Value<T>)
      ensures this.typeName == typeName && root == init
    {
      this.typeName := typeName;
      root := init;
    }

    /** `fn name(&mut self, name: ty) -> &mut Self`: assigns `v` to the field at
        the descriptor's path and returns the receiver for chaining.  Afterwards
        the getter reads `v`, and every place separate from the path is as before. */
    method Setter(d: Field, v: Value<T>) returns (self: Owner<T>)
      requires d.owner == typeName && Resolves(root, d.path)
      modifies this
      ensures self == this
      ensures root == Record.Set(old(root), d.path, v)
      ensures Resolves(root, d.path) && Getter(d) == v
      ensures forall q :: Resolves(old(root), q) && Separate(d.path, q) ==>
        Resolves(root, q) && Get(root, q) == Get(old(root), q)
    {
      forall q | Resolves(root, q) && Separate(d.path, q)
        ensures Resolves(Record.Set(root, d.path, v), q)
        ensures Get(Record.Set(root, d.path, v), q) == Get(root, q)
      {
        SetOther(root, d.path, q, v);
      }
      GetSet(root, d.path, v);
      root := Record.Set(root, d.path, v);
      self := this;
    }

    /** `fn get_name(&self) -> &ty`: the current value of the field.  It only
        reads the owner, and writing the value back would change nothing, so it is
        exactly the value stored at the path. */
    function Getter(d: Field): (v: Value<T>)
      reads this
      requires d.owner == typeName && Resolves(root, d.path)
      ensures Record.Set(root, d.path, v) == root
    {
      SetGet(root, d.path);
      Get(root, d.path)
    }

    /** `fn mut_name(&mut self) -> &mut ty`: a mutable reference to the field,
        modelled as the place (owner, path) through which the caller writes. */
    method Mutter(d: Field) returns (place: Place<T>)
      requires d.owner == typeName && Resolves(root, d.path)
      ensures fresh(place)
      ensures place.owner == this && place.path == d.path
      ensures place.Read() == Getter(d)
    {
      place := new Place(this, d.path);
    }

    /** `fn map_name(&mut self, f: impl FnOnce(&mut ty)) -> &mut Self`: applies `f`
        once to the field in place and returns the receiver for chaining. */
    method Mapper(d: Field, f: Value<T> -> Value<T>) returns (self: Owner<T>)
      requires d.owner == typeName && Resolves(root, d.path)
      modifies this
      ensures self == this
      ensures root == Update(old(root), d.path, f)
      ensures Resolves(root, d.path) && Getter(d) == f(old(Getter(d)))
      ensures forall q :: Resolves(old(root), q) && Separate(d.path, q) ==>
        Resolves(root, q) && Get(root, q) == Get(old(root), q)
    {
      forall q | Resolves(root, q) && Separate(d.path, q)
        ensures Resolves(Update(root, d.path, f), q)
        ensures Get(Update(root, d.path, f), q) == Get(root, q)
      {
        SetOther(root, d.path, q, f(Get(root, d.path)));
      }
      root := Update(root, d.path, f);
      self := this;
    }
  }

  /** The `&mut ty` that the mutter hands out: a place inside one owner. */
  class Place<T> {
    const owner: Owner<T>
    const path: Path

    constructor (owner: Owner<T>, path: Path)
      ensures this.owner == owner && this.path == path
    {
      this.owner := owner;
      this.path := path;
    }

    /** `*place`: the value at the place. */
    function Read(): (v: Value<T>)
      reads owner
      requires Resolves(owner.root, path)
      ensures Record.Set(owner.root, path, v) == owner.root
    {
      SetGet(owner.root, path);
      Get(owner.root, path)
    }

    /** `*place = v`: a write through the reference is a write to the owner's field
        at the path, visible to the next read. */
    method Write(v: Value<T>)
      requires Resolves(owner.root, path)
      modifies owner
      ensures owner.root == Record.Set(old(owner.root), path, v)
      ensures Resolves(owner.root, path) && Read() == v
    {
      GetSet(owner.root, path, v);
      owner.root := Record.Set(owner.root, path, v);
    }
  }
}
