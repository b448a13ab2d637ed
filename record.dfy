/**
 The owner of a `field!` descriptor is a Rust struct whose fields may themselves be
 structs.  This module models such an owner as a nested record value and gives the
 meaning of the place expression `self.f1.f2. ... .fn` that the macro splices into the
 generated methods: reading it (`Get`), assigning to it (`Set`) and rewriting it in
 place with a closure (`Update`).
 */
module Record {

  /** A struct value: either a scalar field value, or a struct whose named fields
      are again values. */
  datatype Value<T> = Scalar(val: T) | Struct(fields: map<string, Value<T>>)

  /** The path `p` names an existing field: every segment is a field of the struct
      reached by the segments before it.  Rust refuses to compile a descriptor whose
      path does not resolve, so every accessor below requires it. */
  predicate Resolves<T>(r: Value<T>, p: seq<string>)
    decreases |p|
  {
    && |p| > 0
    && r.Struct?
    && p[0] in r.fields
    && (|p| == 1 || Resolves(r.fields[p[0]], p[1..]))
  }

  /** The value of the place `r.p[0].p[1]. ... .p[n-1]`. */
  function Get<T>(r: Value<T>, p: seq<string>): Value<T>
    requires Resolves(r, p)
    decreases |p|
  {
    if |p| == 1 then r.fields[p[0]] else Get(r.fields[p[0]], p[1..])
  }

  /** The owner after the assignment `r.p[0]. ... .p[n-1] = v`.  The written path
      still resolves, the owner keeps its field names, and every other field of the
      owner keeps its value. */
  function Set<T>(r: Value<T>, p: seq<string>, v: Value<T>): (r': Value<T>)
    requires Resolves(r, p)
    ensures Resolves(r', p)
    ensures r'.Struct? && r'.fields.Keys == r.fields.Keys
    ensures forall k :: k in r.fields && k != p[0] ==> r'.fields[k] == r.fields[k]
    decreases |p|
  {
    var child := if |p| == 1 then v else Set(r.fields[p[0]], p[1..], v);
    Struct(r.fields[p[0] := child])
  }

  /** The owner after `f(&mut r.p[0]. ... .p[n-1])`: the closure is applied once to
      the current value of the place and its result is left there. */
  function Update<T>(r: Value<T>, p: seq<string>, f: Value<T> -> Value<T>): (r': Value<T>)
    requires Resolves(r, p)
    ensures Resolves(r', p) && Get(r', p) == f(Get(r, p))
  {
    GetSet(r, p, f(Get(r, p)));
    Set(r, p, f(Get(r, p)))
  }

  /** Two paths address disjoint places: neither is a prefix of the other. */
  predicate Separate(p: seq<string>, q: seq<string>)
  {
    !(p <= q) && !(q <= p)
  }

  /** Reading a place right after assigning `v` to it yields `v`. */
  lemma {:induction false} GetSet<T>(r: Value<T>, p: seq<string>, v: Value<T>)
    requires Resolves(r, p)
    ensures Get(Set(r, p, v), p) == v
    decreases |p|
  {
    if |p| > 1 {
      GetSet(r.fields[p[0]], p[1..], v);
    }
  }

  /** Assigning to a place the value it already holds leaves the owner as it was. */
  lemma {:induction false} SetGet<T>(r: Value<T>, p: seq<string>)
    requires Resolves(r, p)
    ensures Set(r, p, Get(r, p)) == r
    decreases |p|
  {
    if |p| > 1 {
      SetGet(r.fields[p[0]], p[1..]);
    }
    assert Set(r, p, Get(r, p)).fields == r.fields;
  }

  /** A second assignment to the same place overrides the first one completely. */
  lemma {:induction false} SetSet<T>(r: Value<T>, p: seq<string>, v: Value<T>, w: Value<T>)
    requires Resolves(r, p)
    ensures Set(Set(r, p, v), p, w) == Set(r, p, w)
    decreases |p|
  {
    if |p| > 1 {
      SetSet(r.fields[p[0]], p[1..], v, w);
    }
    assert Set(Set(r, p, v), p, w).fields == Set(r, p, w).fields;
  }

  /** Path isolation: assigning to one place leaves every separate place resolvable
      and holding the value it had. */
  lemma {:induction false} SetOther<T>(r: Value<T>, p: seq<string>, q: seq<string>, v: Value<T>)
    requires Resolves(r, p) && Resolves(r, q) && Separate(p, q)
    ensures Resolves(Set(r, p, v), q) && Get(Set(r, p, v), q) == Get(r, q)
    decreases |p|
  {
    if p[0] == q[0] {
      assert |p| > 1 && |q| > 1 by {
        assert p[..1] == q[..1];
      }
      assert Separate(p[1..], q[1..]) by {
        assert p == [p[0]] + p[1..] && q == [q[0]] + q[1..];
      }
      SetOther(r.fields[p[0]], p[1..], q[1..], v);
    }
  }

  /** Assigning to a place keeps every previously resolvable path resolvable, except
      the paths that go strictly below the assigned place (whose existence depends on
      the new value; Rust's typing makes the new value have the old one's fields). */
  lemma {:induction false} SetKeepsPaths<T>(r: Value<T>, p: seq<string>, q: seq<string>, v: Value<T>)
    requires Resolves(r, p) && Resolves(r, q) && !(p < q)
    ensures Resolves(Set(r, p, v), q)
    decreases |p|
  {
    if q <= p {
      assert q == p[..|q|];
      SetKeepsPrefix(r, p, |q|, v);
    } else {
      SetOther(r, p, q, v);
    }
  }

  /** Each proper prefix of a resolvable path resolves as well, also after assigning
      to the full path. */
  lemma {:induction false} SetKeepsPrefix<T>(r: Value<T>, p: seq<string>, n: nat, v: Value<T>)
    requires Resolves(r, p) && 0 < n <= |p|
    ensures Resolves(r, p[..n]) && Resolves(Set(r, p, v), p[..n])
    decreases |p|
  {
    if n > 1 {
      SetKeepsPrefix(r.fields[p[0]], p[1..], n - 1, v);
      assert p[..n][1..] == p[1..][..n - 1];
    }
  }

  /** Inside the struct that contains the assigned place, only that place changes:
      for a proper prefix `p[..n]` of the path, the struct found there afterwards is
      the old struct with the rest of the path assigned. */
  lemma {:induction false} SetWithin<T>(r: Value<T>, p: seq<string>, n: nat, v: Value<T>)
    requires Resolves(r, p) && 0 < n < |p|
    ensures Resolves(r, p[..n]) && Resolves(Get(r, p[..n]), p[n..])
    ensures Resolves(Set(r, p, v), p[..n])
    ensures Get(Set(r, p, v), p[..n]) == Set(Get(r, p[..n]), p[n..], v)
    decreases |p|
  {
    SetKeepsPrefix(r, p, n, v);
    if n > 1 {
      SetWithin(r.fields[p[0]], p[1..], n - 1, v);
      assert p[..n][1..] == p[1..][..n - 1];
      assert p[n..] == p[1..][n - 1..];
    }
  }

  /** Mapper composition: mapping with `f` and then with `g` is mapping once with
      `g` after `f`. */
  lemma UpdateCompose<T>(r: Value<T>, p: seq<string>, f: Value<T> -> Value<T>, g: Value<T> -> Value<T>)
    requires Resolves(r, p)
    ensures Update(Update(r, p, f), p, g) == Update(r, p, x => g(f(x)))
  {
    var once := Update(r, p, f);
    assert Get(once, p) == f(Get(r, p));
    SetSet(r, p, f(Get(r, p)), g(f(Get(r, p))));
  }
}
