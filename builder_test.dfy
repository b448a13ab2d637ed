/**
 The test in the library's own tests module: a `Builder` with fields `the_x: u32`,
 `s: String` and `inner: Inner { x: f32 }`, three descriptors for it, and a run of
 setter, mapper, mutter and getter calls with the state expected after each.
 */
module BuilderTest {
  import opened Record
  import opened Descriptor
  import opened Accessors

  newtype u32 = n: int | 0 <= n < 0x1_0000_0000

  /** The field types of `Builder`; an `f32` is only stored and compared here, so
      it is represented by its real value. */
  datatype FieldValue = U32(n: u32) | Text(s: string) | F32(x: real)

  /** `field!(Builder, pub, x, u32, the_x)`. */
  const X: Field := Field("Builder", "x", ["the_x"])
  /** `field!(Builder, pub, s, String, s)`. */
  const S: Field := Field("Builder", "s", ["s"])
  /** `field!(Builder, pub, inner, f32, inner.x)`. */
  const InnerX: Field := Field("Builder", "inner", ["inner", "x"])

  /** The descriptors of the test, in declaration order. */
  function Descriptors(): seq<Field>
  {
    [X, S, InnerX]
  }

  /** No two of the accessor names `x`, `s` and `inner` clash. */
  lemma NamesApart()
    ensures !Clash("x", "s") && !Clash("x", "inner") && !Clash("s", "inner")
  {
    assert !Clash("x", "s") by {
      ClashIff("x", "s");
    }
    assert !Clash("x", "inner") by {
      assert "inner"[0] == 'i';
      ClashIff("x", "inner");
    }
    assert !Clash("s", "inner") by {
      assert "inner"[0] == 'i';
      ClashIff("s", "inner");
    }
  }

  /** The three descriptors do not clash, so Rust's duplicate-definition check
      accepts the twelve methods they generate on `Builder`. */
  lemma DescriptorsAccepted()
    ensures Accepted(Descriptors())
  {
    var ds := Descriptors();
    NamesApart();
    assert forall i, j :: 0 <= i < j < |ds| && ds[i].owner == ds[j].owner ==> !Clash(ds[i].name, ds[j].name) by {
      assert ds[0].name == "x" && ds[1].name == "s" && ds[2].name == "inner";
    }
    AcceptedIff(ds);
  }

  /** Each generated method of the test's owner is reached by its own name. */
  lemma DescriptorsDispatch(i: nat, k: Kind)
    requires i < |Descriptors()|
    ensures Lookup(Descriptors(), "Builder", Ident(k, Descriptors()[i].name)) == Some(Binding(k, Descriptors()[i]))
  {
    DescriptorsAccepted();
    LookupComplete(Descriptors(), i, k);
  }

  /** The closure `|x| *x *= 2` on a `u32` field (wrapping on overflow): the result
      is twice the old value modulo 2^32, and any other value is left alone. */
  function Double(v: Value<FieldValue>): (r: Value<FieldValue>)
    ensures v.Scalar? && v.val.U32? ==>
      r.Scalar? && r.val.U32? && r.val.n as int == (2 * v.val.n as int) % 0x1_0000_0000
    ensures !(v.Scalar? && v.val.U32?) ==> r == v
  {
    match v
    case Scalar(U32(n)) =>
      Scalar(U32(if n < 0x8000_0000 then 2 * n else (2 * (n as int) - 0x1_0000_0000) as u32))
    case _ => v
  }

  /** The closure `|s| s.make_ascii_uppercase()`, for a given uppercasing function. */
  function OnText(upper: string -> string): Value<FieldValue> -> Value<FieldValue>
  {
    (v: Value<FieldValue>) => match v
      case Scalar(Text(t)) => Scalar(Text(upper(t)))
      case _ => v
  }

  /** A `Builder` with the given field values. */
  function BuilderValue(theX: u32, s: string, innerX: real): Value<FieldValue>
  {
    Struct(map[
      "the_x" := Scalar(U32(theX)),
      "s" := Scalar(Text(s)),
      "inner" := Struct(map["x" := Scalar(F32(innerX))])])
  }

  /** The generated `x` setter on a `Builder` changes `the_x` and nothing else. */
  lemma SetX(theX: u32, s: string, innerX: real, v: u32)
    ensures Resolves(BuilderValue(theX, s, innerX), X.path)
    ensures Get(BuilderValue(theX, s, innerX), X.path) == Scalar(U32(theX))
    ensures Set(BuilderValue(theX, s, innerX), X.path, Scalar(U32(v))) == BuilderValue(v, s, innerX)
  {
  }

  /** The generated `s` setter on a `Builder` changes `s` and nothing else. */
  lemma SetS(theX: u32, s: string, innerX: real, v: string)
    ensures Resolves(BuilderValue(theX, s, innerX), S.path)
    ensures Get(BuilderValue(theX, s, innerX), S.path) == Scalar(Text(s))
    ensures Set(BuilderValue(theX, s, innerX), S.path, Scalar(Text(v))) == BuilderValue(theX, v, innerX)
  {
  }

  /** The generated `inner` setter on a `Builder` changes `inner.x` and nothing else. */
  lemma SetInnerX(theX: u32, s: string, innerX: real, v: real)
    ensures Resolves(BuilderValue(theX, s, innerX), InnerX.path)
    ensures Set(BuilderValue(theX, s, innerX), InnerX.path, Scalar(F32(v))) == BuilderValue(theX, s, v)
  {
    var b := BuilderValue(theX, s, innerX);
    assert Resolves(b, InnerX.path) by {
      assert InnerX.path[1..] == ["x"];
    }
    assert Set(b, InnerX.path, Scalar(F32(v))).fields == BuilderValue(theX, s, v).fields by {
      assert InnerX.path[1..] == ["x"];
      assert Set(b.fields["inner"], ["x"], Scalar(F32(v))) == Struct(map["x" := Scalar(F32(v))]);
    }
  }

  /** Lines 57-70 of the test: the `x` accessors, on a builder whose other fields
      hold anything; they are left as they were. */
  method TestX(builder: Owner<FieldValue>, s: string, innerX: real)
    requires builder.typeName == "Builder" && builder.root == BuilderValue(0, s, innerX)
    modifies builder
    ensures builder.root == BuilderValue(4096, s, innerX)
  {
    var chained: Owner<FieldValue>;

    SetX(0, s, innerX, 10);
    chained := builder.Setter(X, Scalar(U32(10)));
    assert builder.root == BuilderValue(10, s, innerX);

    SetX(10, s, innerX, 20);
    chained := builder.Mapper(X, Double);
    assert builder.root == BuilderValue(20, s, innerX);

    SetX(20, s, innerX, 40);
    chained := builder.Mapper(X, Double);
    assert builder.root == BuilderValue(40, s, innerX);

    SetX(40, s, innerX, 2048);
    var place := builder.Mutter(X);
    place.Write(Scalar(U32(2048)));
    assert builder.root == BuilderValue(2048, s, innerX);

    SetX(2048, s, innerX, 4096);
    chained := builder.Mapper(X, Double);
    assert chained.Getter(X) == Scalar(U32(4096));
    assert builder.root == BuilderValue(4096, s, innerX);
  }

  /** The test run; the result is the builder's final state.  Every `assert_eq!`
      of the test up to line 76 is asserted on the way; the last one holds when
      `upper` uppercases "Hello world" as `make_ascii_uppercase` does. */
  method Test(upper: string -> string) returns (final: Value<FieldValue>)
    ensures final == BuilderValue(4096, upper("Hello world"), 2.0)
    ensures upper("Hello world") == "HELLO WORLD" ==> final == BuilderValue(4096, "HELLO WORLD", 2.0)
  {
    var builder := new Owner("Builder", BuilderValue(0, "", 0.0));
    var chained: Owner<FieldValue>;

    TestX(builder, "", 0.0);

    SetInnerX(4096, "", 0.0, 2.0);
    chained := builder.Setter(InnerX, Scalar(F32(2.0)));
    assert builder.root == BuilderValue(4096, "", 2.0);

    SetS(4096, "", 2.0, "Hello world");
    chained := builder.Setter(S, Scalar(Text("Hello world")));
    assert builder.root == BuilderValue(4096, "Hello world", 2.0);

    SetS(4096, "Hello world", 2.0, upper("Hello world"));
    chained := builder.Mapper(S, OnText(upper));
    assert builder.root == BuilderValue(4096, upper("Hello world"), 2.0);

    final := builder.root;
  }
}
