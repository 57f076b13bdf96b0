/** The `testVectorInt` record: a vector of 32-bit numbers, used for testing. */
module TestVectorIntRecord {
  import opened Wrappers
  import opened JsonValue

  /** The record; `value` is its getter. */
  datatype TestVectorInt = TestVectorInt(td_name: string, value: seq<I32>)
  {
    /** `RObject::td_name`: the schema's fixed discriminator, whatever the fields hold. */
    function TdName(): string {
      Tag
    }
  }

  const Tag := "testVectorInt"

  const Keys: set<string> := {TypeKey, "value"}

  /** `#[derive(Default)]`. */
  function Default(): (d: TestVectorInt)
    ensures d.td_name == "" && d.td_name != d.TdName()
    ensures d.value == []
  {
    TestVectorInt("", [])
  }

  function Encode(r: TestVectorInt): (j: Json)
    ensures j.JObj? && j.fields.Keys == Keys
    ensures j.fields[TypeKey] == JStr(r.td_name)
    ensures j.fields["value"] == JArr(EncodeItems(r.value, EncodeI32))
  {
    JObj(map[TypeKey := JStr(r.td_name), "value" := JArr(EncodeItems(r.value, EncodeI32))])
  }

  /** Both members required; "value" must be an array of numbers each within the 32-bit range. */
  function Decode(j: Json): (r: Result<TestVectorInt, DecodeError>)
    ensures !j.JObj? ==> r == Failure(NotAStruct)
    ensures r.Success? ==> j.JObj? && Keys <= j.fields.Keys && j.fields[TypeKey] == JStr(r.value.td_name)
    ensures r.Success? ==> j.fields["value"] == JArr(EncodeItems(r.value.value, EncodeI32))
  {
    if !j.JObj? then Failure(NotAStruct)
    else
      var m := j.fields;
      var td_name :- GetStr(m, TypeKey);
      var value :- GetSeq(m, "value", j => AsI32(j, "value"));
      Success(TestVectorInt(td_name, value))
  }

  /** Decoding an encoded record gives back the vector: its length, order and elements. */
  lemma {:induction false} RoundTrip(r: TestVectorInt)
    ensures Decode(Encode(r)) == Success(r)
  {
    var m := Encode(r).fields;
    assert GetStr(m, TypeKey) == Success(r.td_name);
    ItemsRoundTrip(r.value, EncodeI32, j => AsI32(j, "value"));
  }

  /** Re-encoding a decoded object reproduces exactly its declared members. */
  lemma {:induction false} DecodeThenEncode(j: Json)
    requires Decode(j).Success?
    ensures Encode(Decode(j).value) == JObj(map k | k in Keys :: j.fields[k])
  {
    ItemsDecodeEncode(j.fields["value"].items, EncodeI32, j => AsI32(j, "value"));
  }

  /** `{"@type":"testVectorInt","value":[1,2,3]}` decodes to the vector [1,2,3]. */
  lemma DecodeOneTwoThree()
    ensures Decode(JObj(map[TypeKey := JStr(Tag), "value" := JArr([JInt(1), JInt(2), JInt(3)])]))
         == Success(TestVectorInt(Tag, [1, 2, 3]))
  {
    var xs: seq<I32> := [1, 2, 3];
    RoundTrip(TestVectorInt(Tag, xs));
    var items := EncodeItems(xs, EncodeI32);
    assert items == [JInt(1), JInt(2), JInt(3)];
  }

  /** One element outside the 32-bit range makes the whole record fail. */
  lemma {:induction false} ElementOutOfRangeRejected(j: Json, i: nat)
    requires j.JObj? && "value" in j.fields && j.fields["value"].JArr?
    requires i < |j.fields["value"].items| && j.fields["value"].items[i].JInt? && !IsI32(j.fields["value"].items[i].n)
    ensures Decode(j).Failure?
  {
  }

  /**
    Members the record does not declare, such as the correlation id "@extra",
    are ignored: the outcome, success or error, depends only on the declared members.
  */
  lemma {:induction false} DependsOnlyOnDeclared(j: Json)
    requires j.JObj?
    ensures Decode(j) == Decode(JObj(Declared(j.fields, Keys)))
  {
    FieldOfDeclared(j.fields, Keys);
  }

  /** An encoded record with any undeclared members added still decodes to that record. */
  lemma {:induction false} IgnoresUndeclared(r: TestVectorInt, extra: map<string, Json>)
    requires extra.Keys !! Keys
    ensures Decode(JObj(Encode(r).fields + extra)) == Success(r)
  {
    var m := Encode(r).fields + extra;
    DependsOnlyOnDeclared(JObj(m));
    assert Declared(m, Keys) == Encode(r).fields;
    RoundTrip(r);
  }

  /** `RTDTestVectorIntBuilder`. */
  class TestVectorIntBuilder {
    var inner: TestVectorInt

    /** `TestVectorInt::builder()`: an empty vector. */
    constructor ()
      ensures inner.td_name == Tag && inner.value == []
    {
      inner := Default().(td_name := Tag);
    }

    /** `build()`: a copy of the accumulated record; the builder is only read. */
    function Build(): (r: TestVectorInt)
      reads this
      ensures r == inner
    {
      inner
    }

    /** Replaces the vector wholesale. */
    method Value(value: seq<I32>)
      modifies this
      ensures inner == old(inner).(value := value)
    {
      inner := inner.(value := value);
    }
  }
}
