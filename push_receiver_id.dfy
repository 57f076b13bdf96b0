/** The `pushReceiverId` record: which account received a push notification. */
module PushReceiverIdRecord {
  import opened Wrappers
  import opened JsonValue

  /** The record; `id` is its getter. */
  datatype PushReceiverId = PushReceiverId(td_name: string, id: I64)
  {
    /** `RObject::td_name`: the schema's fixed discriminator, whatever the fields hold. */
    function TdName(): string {
      Tag
    }
  }

  const Tag := "pushReceiverId"

  const Keys: set<string> := {TypeKey, "id"}

  /** `#[derive(Default)]`. */
  function Default(): (d: PushReceiverId)
    ensures d.td_name == "" && d.td_name != d.TdName()
    ensures d.id == 0
  {
    PushReceiverId("", 0)
  }

  function Encode(r: PushReceiverId): (j: Json)
    ensures j.JObj? && j.fields.Keys == Keys
    ensures j.fields[TypeKey] == JStr(r.td_name)
    ensures j.fields["id"] == JInt(r.id)
  {
    JObj(map[TypeKey := JStr(r.td_name), "id" := JInt(r.id)])
  }

  /** Both members required; `id` must be a JSON number within the 64-bit range. */
  function Decode(j: Json): (r: Result<PushReceiverId, DecodeError>)
    ensures !j.JObj? ==> r == Failure(NotAStruct)
    ensures r.Success? ==> j.JObj? && Keys <= j.fields.Keys && j.fields[TypeKey] == JStr(r.value.td_name)
    ensures r.Success? ==> j.fields["id"] == JInt(r.value.id)
  {
    if !j.JObj? then Failure(NotAStruct)
    else
      var m := j.fields;
      var td_name :- GetStr(m, TypeKey);
      var id :- GetI64(m, "id");
      Success(PushReceiverId(td_name, id))
  }

  /** Decoding an encoded record gives back `id` and the "@type" value. */
  lemma {:induction false} RoundTrip(r: PushReceiverId)
    ensures Decode(Encode(r)) == Success(r)
  {
    var m := Encode(r).fields;
    assert GetStr(m, TypeKey) == Success(r.td_name);
    assert GetI64(m, "id") == Success(r.id);
  }

  /** Re-encoding a decoded object reproduces exactly its declared members. */
  lemma {:induction false} DecodeThenEncode(j: Json)
    requires Decode(j).Success?
    ensures Encode(Decode(j).value) == JObj(map k | k in Keys :: j.fields[k])
  {
  }

  /**
    Members the record does not declare, such as the correlation id "@extra",
    are ignored: the outcome, success or error, depends only on the declared members.
  */
  lemma {:induction false} DependsOnlyOnDeclared(j: Json)
    requires j.JObj?
    ensures Decode(j) == Decode(JObj(Declared(j.fields, Keys)))
  {
    FieldOfDeclared(j.fields, Keys);
  }

  /** An encoded record with any undeclared members added still decodes to that record. */
  lemma {:induction false} IgnoresUndeclared(r: PushReceiverId, extra: map<string, Json>)
    requires extra.Keys !! Keys
    ensures Decode(JObj(Encode(r).fields + extra)) == Success(r)
  {
    var m := Encode(r).fields + extra;
    DependsOnlyOnDeclared(JObj(m));
    assert Declared(m, Keys) == Encode(r).fields;
    RoundTrip(r);
  }

  /** `RTDPushReceiverIdBuilder`. */
  class PushReceiverIdBuilder {
    var inner: PushReceiverId

    /** `PushReceiverId::builder()`: `id` 0. */
    constructor ()
      ensures inner.td_name == Tag && inner.id == 0
    {
      inner := Default().(td_name := Tag);
    }

    /** `build()`: a copy of the accumulated record; the builder is only read. */
    function Build(): (r: PushReceiverId)
      reads this
      ensures r == inner
    {
      inner
    }

    method Id(id: I64)
      modifies this
      ensures inner == old(inner).(id := id)
    {
      inner := inner.(id := id);
    }
  }

  /** After `.id(x)`, `build().id()` is `x`, for every 64-bit `x`; building does not change the builder. */
  method BuiltId(x: I64) returns (got: I64, again: PushReceiverId)
    ensures got == x
    ensures again == PushReceiverId(Tag, x)
  {
    var b := new PushReceiverIdBuilder();
    b.Id(x);
    var r := b.Build();
    got := r.id;
    again := b.Build();
  }
}
