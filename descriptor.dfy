/**
 A `field!(Owner, vis, name, ty, a.b.c)` descriptor and the identifiers that the
 macro derives from it with `paste!`: the setter keeps `name`, the getter, mutter
 and mapper are `get_name`, `mut_name` and `map_name`.  The macro adds the four
 methods to `impl Owner`; Rust rejects a program in which two methods of the same
 owner share a name, and otherwise a call by name reaches exactly one of them.
 */
module Descriptor {

  datatype Option<T> = None | Some(value: T)

  /** `$($field:ident).+`: one or more field names. */
  type Path = p: seq<string> | |p| > 0 witness ["x"]

  /** The parts of a descriptor that the generated code depends on. */
  datatype Field = Field(owner: string, name: string, path: Path)

  /** The four method shapes one descriptor generates. */
  datatype Kind = Setter | Getter | Mutter | Mapper

  /** The text `paste!` glues in front of the accessor name. */
  function Prefix(k: Kind): string
  {
    match k
    case Setter => ""
    case Getter => "get_"
    case Mutter => "mut_"
    case Mapper => "map_"
  }

  /** The identifier of the method of kind `k` generated for accessor `name`. */
  function Ident(k: Kind, name: string): string
  {
    Prefix(k) + name
  }

  /** `id` is derived from `name` by one of the three non-empty prefixes. */
  predicate Derived(id: string, name: string)
  {
    id == "get_" + name || id == "mut_" + name || id == "map_" + name
  }

  /** Some method generated for accessor `a` has the same identifier as some method
      generated for accessor `b`. */
  predicate Clash(a: string, b: string)
  {
    exists k1: Kind, k2: Kind :: Ident(k1, a) == Ident(k2, b)
  }

  // ---------------------------------------------------------------------------
  // Rust identifiers

  predicate IsIdentStart(c: char)
  {
    c == '_' || ('a' <= c <= 'z') || ('A' <= c <= 'Z')
  }

  predicate IsIdentChar(c: char)
  {
    IsIdentStart(c) || ('0' <= c <= '9')
  }

  /** The strict and reserved keywords of Rust, 2021 edition.  `$name:ident` matches them,
      but a method named by one does not parse. */
  predicate IsKeyword(s: string)
  {
    || s == "as" || s == "break" || s == "const" || s == "continue" || s == "crate" || s == "else"
    || s == "enum" || s == "extern" || s == "false" || s == "fn" || s == "for" || s == "if"
    || s == "impl" || s == "in" || s == "let" || s == "loop" || s == "match" || s == "mod"
    || s == "move" || s == "mut" || s == "pub" || s == "ref" || s == "return" || s == "self"
    || s == "Self" || s == "static" || s == "struct" || s == "super" || s == "trait" || s == "true"
    || s == "type" || s == "unsafe" || s == "use" || s == "where" || s == "while" || s == "async"
    || s == "await" || s == "dyn" || s == "abstract" || s == "become" || s == "box" || s == "do"
    || s == "final" || s == "macro" || s == "override" || s == "priv" || s == "typeof" || s == "unsized"
    || s == "virtual" || s == "yield" || s == "try"
  }

  /** An ASCII Rust identifier (non-raw) that can name a method: not a keyword and
      not a lone `_`. */
  predicate IsIdent(s: string)
  {
    && |s| > 0 && s != "_" && !IsKeyword(s)
    && IsIdentStart(s[0]) && forall i :: 0 <= i < |s| ==> IsIdentChar(s[i])
  }

  /** The concatenation `paste!` performs always yields an identifier when it is
      given one: no keyword contains `_`, so a prefixed name is never a keyword. */
  lemma DerivedIsIdent(k: Kind, name: string)
    requires IsIdent(name)
    ensures IsIdent(Ident(k, name))
  {
    if k != Setter {
      var id := Ident(k, name);
      assert id[3] == '_';
    }
  }

  /** The four identifiers generated for one descriptor are pairwise distinct. */
  lemma IdentsDistinct(name: string, k1: Kind, k2: Kind)
    requires k1 != k2
    ensures Ident(k1, name) != Ident(k2, name)
  {
    if k1 != Setter && k2 != Setter {
      var a, b := Ident(k1, name), Ident(k2, name);
      assert a[0] != b[0] || a[1] != b[1];
    }
  }

  /** Two prefixed identifiers are equal only when the prefixes and the names are. */
  lemma IdentEq(k1: Kind, a: string, k2: Kind, b: string)
    requires k1 != Setter && k2 != Setter
    requires Ident(k1, a) == Ident(k2, b)
    ensures k1 == k2 && a == b
  {
    var x, y := Ident(k1, a), Ident(k2, b);
    assert x[..4] == Prefix(k1) && y[..4] == Prefix(k2);
    assert x[4..] == a && y[4..] == b;
  }

  /** Exactly when two accessor names clash: they are equal, or one is the other
      with `get_`, `mut_` or `map_` in front.  In particular names that merely share
      a prefix (`x` and `xy`) never clash. */
  lemma ClashIff(a: string, b: string)
    ensures Clash(a, b) <==> a == b || Derived(a, b) || Derived(b, a)
  {
    assert forall n: string :: Ident(Setter, n) == n;
    if Clash(a, b) {
      var k1: Kind, k2: Kind :| Ident(k1, a) == Ident(k2, b);
      if k1 == Setter && k2 == Setter {
        assert a == b;
      } else if k1 == Setter {
        assert a == Ident(k2, b);
      } else if k2 == Setter {
        assert b == Ident(k1, a);
      } else {
        IdentEq(k1, a, k2, b);
      }
    }
    if a == b {
      assert Ident(Setter, a) == Ident(Setter, b);
    } else if Derived(a, b) {
      var k :| k in {Getter, Mutter, Mapper} && a == Prefix(k) + b;
      assert Ident(Setter, a) == Ident(k, b);
    } else if Derived(b, a) {
      var k :| k in {Getter, Mutter, Mapper} && b == Prefix(k) + a;
      assert Ident(k, a) == Ident(Setter, b);
    }
  }

  // ---------------------------------------------------------------------------
  // The methods of an owner

  /** Rust's duplicate-definition check accepts the generated methods of each
      owner: no two generated methods of the same owner share an identifier. */
  predicate Accepted(ds: seq<Field>)
  {
    forall i, j, k1: Kind, k2: Kind ::
      0 <= i < |ds| && 0 <= j < |ds| && ds[i].owner == ds[j].owner && (i != j || k1 != k2) ==>
        Ident(k1, ds[i].name) != Ident(k2, ds[j].name)
  }

  /** Accepted exactly when no two descriptors of the same owner have clashing
      accessor names; the four methods of a single descriptor never clash. */
  lemma AcceptedIff(ds: seq<Field>)
    ensures Accepted(ds) <==>
      forall i, j :: 0 <= i < j < |ds| && ds[i].owner == ds[j].owner ==> !Clash(ds[i].name, ds[j].name)
  {
    if forall i, j :: 0 <= i < j < |ds| && ds[i].owner == ds[j].owner ==> !Clash(ds[i].name, ds[j].name) {
      forall i, j, k1: Kind, k2: Kind |
        0 <= i < |ds| && 0 <= j < |ds| && ds[i].owner == ds[j].owner && (i != j || k1 != k2)
        ensures Ident(k1, ds[i].name) != Ident(k2, ds[j].name)
      {
        if i == j {
          IdentsDistinct(ds[i].name, k1, k2);
        } else if i < j {
          assert !Clash(ds[i].name, ds[j].name);
        } else {
          assert !Clash(ds[j].name, ds[i].name);
        }
      }
    }
  }

  /** The method a call by identifier reaches. */
  datatype Binding = Binding(kind: Kind, field: Field)

  /** The kind of the method of accessor `name` called `id`, if any. */
  function KindOf(name: string, id: string): (r: Option<Kind>)
    ensures r.Some? ==> Ident(r.value, name) == id
    ensures r.None? ==> forall k: Kind :: Ident(k, name) != id
  {
    if id == Ident(Setter, name) then Some(Setter)
    else if id == Ident(Getter, name) then Some(Getter)
    else if id == Ident(Mutter, name) then Some(Mutter)
    else if id == Ident(Mapper, name) then Some(Mapper)
    else None
  }

  /** Method lookup in the impl blocks of `owner`.  Rust does not choose among
      methods of the same name: it rejects such a program, so the scan order here
      only matters for descriptor lists that `Accepted` excludes. */
  function Lookup(ds: seq<Field>, owner: string, id: string): Option<Binding>
    decreases |ds|
  {
    if ds == [] then None
    else
      var here := if ds[0].owner == owner then KindOf(ds[0].name, id) else None;
      if here.Some? then Some(Binding(here.value, ds[0])) else Lookup(ds[1..], owner, id)
  }

  /** Whatever a lookup finds is a method the macro generated for `owner` under
      that identifier. */
  lemma {:induction false} LookupSound(ds: seq<Field>, owner: string, id: string)
    ensures Lookup(ds, owner, id).Some? ==>
      var b := Lookup(ds, owner, id).value;
      b.field in ds && b.field.owner == owner && Ident(b.kind, b.field.name) == id
    decreases |ds|
  {
    if ds != [] && !(ds[0].owner == owner && KindOf(ds[0].name, id).Some?) {
      LookupSound(ds[1..], owner, id);
    }
  }

  /** In an accepted program, calling `get_x` (and so on) on the owner reaches the
      method generated for the descriptor of `x` and of that kind. */
  lemma {:induction false} LookupComplete(ds: seq<Field>, i: nat, k: Kind)
    requires Accepted(ds) && i < |ds|
    ensures Lookup(ds, ds[i].owner, Ident(k, ds[i].name)) == Some(Binding(k, ds[i]))
    decreases i
  {
    var id := Ident(k, ds[i].name);
    if i == 0 {
      assert KindOf(ds[0].name, id) == Some(k);
    } else {
      assert ds[0].owner == ds[i].owner ==> KindOf(ds[0].name, id).None?;
      assert Accepted(ds[1..]) by {
        forall a, b, k1: Kind, k2: Kind |
          0 <= a < |ds[1..]| && 0 <= b < |ds[1..]| && ds[1..][a].owner == ds[1..][b].owner && (a != b || k1 != k2)
          ensures Ident(k1, ds[1..][a].name) != Ident(k2, ds[1..][b].name)
        {
          assert ds[1..][a] == ds[a + 1] && ds[1..][b] == ds[b + 1];
        }
      }
      LookupComplete(ds[1..], i - 1, k);
    }
  }
}
