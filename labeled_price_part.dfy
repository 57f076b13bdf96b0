/** The `labeledPricePart` record: one portion of a product's price. */
module LabeledPricePartRecord {
  import opened Wrappers
  import opened JsonValue

  /**
    The record; each field's destructor is its getter. `label` is a reserved
    word in Dafny, so that field is `label_`; its JSON member is still "label".
  */
  datatype LabeledPricePart = LabeledPricePart(
    td_name: string,
    label_: string,
    amount: I32)
  {
    /** `RObject::td_name`: the schema's fixed discriminator, whatever the fields hold. */
    function TdName(): string {
      Tag
    }
  }

  const Tag := "labeledPricePart"

  const Keys: set<string> := {TypeKey, "label", "amount"}

  /** `#[derive(Default)]`. */
  function Default(): (d: LabeledPricePart)
    ensures d.td_name == "" && d.td_name != d.TdName()
    ensures d.label_ == "" && d.amount == 0
  {
    LabeledPricePart("", "", 0)
  }

  function Encode(r: LabeledPricePart): (j: Json)
    ensures j.JObj? && j.fields.Keys == Keys
    ensures j.fields[TypeKey] == JStr(r.td_name)
    ensures j.fields["label"] == JStr(r.label_) && j.fields["amount"] == JInt(r.amount)
  {
    JObj(map[
      TypeKey := JStr(r.td_name),
      "label" := JStr(r.label_),
      "amount" := JInt(r.amount)])
  }

  /** Every member required and of its field's type; an "@type" of any string is kept as it is. */
  function Decode(j: Json): (r: Result<LabeledPricePart, DecodeError>)
    ensures !j.JObj? ==> r == Failure(NotAStruct)
    ensures r.Success? ==> j.JObj? && Keys <= j.fields.Keys && j.fields[TypeKey] == JStr(r.value.td_name)
    ensures r.Success? ==> j.fields["label"] == JStr(r.value.label_) && j.fields["amount"] == JInt(r.value.amount)
  {
    if !j.JObj? then Failure(NotAStruct)
    else
      var m := j.fields;
      var td_name :- GetStr(m, TypeKey);
      var label_ :- GetStr(m, "label");
      var amount :- GetI32(m, "amount");
      Success(LabeledPricePart(td_name, label_, amount))
  }

  /** Decoding an encoded record gives back `label` and `amount`. */
  lemma {:induction false} RoundTrip(r: LabeledPricePart)
    ensures Decode(Encode(r)) == Success(r)
  {
    var m := Encode(r).fields;
    assert GetStr(m, TypeKey) == Success(r.td_name);
    assert GetStr(m, "label") == Success(r.label_);
    assert GetI32(m, "amount") == Success(r.amount);
  }

  /** An amount outside the 32-bit range is refused, not truncated. */
  lemma AmountOutOfRangeRejected(j: Json)
    requires j.JObj? && "amount" in j.fields && j.fields["amount"].JInt? && !IsI32(j.fields["amount"].n)
    ensures Decode(j).Failure?
  {
  }

  /** Re-encoding a decoded object reproduces exactly its declared members. */
  lemma {:induction false} DecodeThenEncode(j: Json)
    requires Decode(j).Success?
    ensures Encode(Decode(j).value) == JObj(map k | k in Keys :: j.fields[k])
  {
  }

  /**
    Members the record does not declare, such as the correlation id "@extra",
    are ignored: the outcome, success or error, depends only on the declared members.
  */
  lemma {:induction false} DependsOnlyOnDeclared(j: Json)
    requires j.JObj?
    ensures Decode(j) == Decode(JObj(Declared(j.fields, Keys)))
  {
    FieldOfDeclared(j.fields, Keys);
  }

  /** An encoded record with any undeclared members added still decodes to that record. */
  lemma {:induction false} IgnoresUndeclared(r: LabeledPricePart, extra: map<string, Json>)
    requires extra.Keys !! Keys
    ensures Decode(JObj(Encode(r).fields + extra)) == Success(r)
  {
    var m := Encode(r).fields + extra;
    DependsOnlyOnDeclared(JObj(m));
    assert Declared(m, Keys) == Encode(r).fields;
    RoundTrip(r);
  }

  /** `RTDLabeledPricePartBuilder`. */
  class LabeledPricePartBuilder {
    var inner: LabeledPricePart

    /** `LabeledPricePart::builder()`: an empty label and amount 0. */
    constructor ()
      ensures inner.td_name == Tag && inner.label_ == "" && inner.amount == 0
    {
      inner := Default().(td_name := Tag);
    }

    /** `build()`: a copy of the accumulated record; the builder is only read. */
    function Build(): (r: LabeledPricePart)
      reads this
      ensures r == inner
    {
      inner
    }

    /** Stores an exact copy of the given string. */
    method Label(label_: string)
      modifies this
      ensures inner == old(inner).(label_ := label_)
    {
      inner := inner.(label_ := label_);
    }

    method Amount(amount: I32)
      modifies this
      ensures inner == old(inner).(amount := amount)
    {
      inner := inner.(amount := amount);
    }
  }
}
