/** The `networkStatistics` record: the full list of network statistic entries. */
module NetworkStatisticsRecord {
  import opened Wrappers
  import opened JsonValue

  /** One statistics entry; its own fields are not part of this model. */
  type NetworkStatisticsEntry = Nested

  /** The record; each field's destructor is its getter. */
  datatype NetworkStatistics = NetworkStatistics(
    td_name: string,
    since_date: I32,
    entries: seq<NetworkStatisticsEntry>)
  {
    /** `RObject::td_name`: the schema's fixed discriminator, whatever the fields hold. */
    function TdName(): string {
      Tag
    }
  }

  const Tag := "networkStatistics"

  const Keys: set<string> := {TypeKey, "since_date", "entries"}

  /** `#[derive(Default)]`. */
  function Default(): (d: NetworkStatistics)
    ensures d.td_name == "" && d.td_name != d.TdName()
    ensures d.since_date == 0 && d.entries == []
  {
    NetworkStatistics("", 0, [])
  }

  function Encode(r: NetworkStatistics): (j: Json)
    ensures j.JObj? && j.fields.Keys == Keys
    ensures j.fields[TypeKey] == JStr(r.td_name)
    ensures j.fields["since_date"] == JInt(r.since_date)
    ensures j.fields["entries"] == JArr(EncodeItems(r.entries, EncodeNested))
  {
    JObj(map[
      TypeKey := JStr(r.td_name),
      "since_date" := JInt(r.since_date),
      "entries" := JArr(EncodeItems(r.entries, EncodeNested))])
  }

  /** Every member required and of its field's type; an "@type" of any string is kept as it is. */
  function Decode(j: Json): (r: Result<NetworkStatistics, DecodeError>)
    ensures !j.JObj? ==> r == Failure(NotAStruct)
    ensures r.Success? ==> j.JObj? && Keys <= j.fields.Keys && j.fields[TypeKey] == JStr(r.value.td_name)
    ensures r.Success? ==> j.fields["since_date"] == JInt(r.value.since_date)
    ensures r.Success? ==> j.fields["entries"] == JArr(EncodeItems(r.value.entries, EncodeNested))
  {
    if !j.JObj? then Failure(NotAStruct)
    else
      var m := j.fields;
      var td_name :- GetStr(m, TypeKey);
      var since_date :- GetI32(m, "since_date");
      var entries :- GetSeq(m, "entries", j => AsNested(j, "entries"));
      Success(NetworkStatistics(td_name, since_date, entries))
  }

  /** Decoding an encoded record gives back `since_date` and the entries in order. */
  lemma {:induction false} RoundTrip(r: NetworkStatistics)
    ensures Decode(Encode(r)) == Success(r)
  {
    var m := Encode(r).fields;
    assert GetStr(m, TypeKey) == Success(r.td_name);
    assert GetI32(m, "since_date") == Success(r.since_date);
    ItemsRoundTrip(r.entries, EncodeNested, j => AsNested(j, "entries"));
  }

  /** Re-encoding a decoded object reproduces exactly its declared members. */
  lemma {:induction false} DecodeThenEncode(j: Json)
    requires Decode(j).Success?
    ensures Encode(Decode(j).value) == JObj(map k | k in Keys :: j.fields[k])
  {
    ItemsDecodeEncode(j.fields["entries"].items, EncodeNested, j => AsNested(j, "entries"));
  }

  /**
    Members the record does not declare, such as the correlation id "@extra",
    are ignored: the outcome, success or error, depends only on the declared members.
  */
  lemma {:induction false} DependsOnlyOnDeclared(j: Json)
    requires j.JObj?
    ensures Decode(j) == Decode(JObj(Declared(j.fields, Keys)))
  {
    FieldOfDeclared(j.fields, Keys);
  }

  /** An encoded record with any undeclared members added still decodes to that record. */
  lemma {:induction false} IgnoresUndeclared(r: NetworkStatistics, extra: map<string, Json>)
    requires extra.Keys !! Keys
    ensures Decode(JObj(Encode(r).fields + extra)) == Success(r)
  {
    var m := Encode(r).fields + extra;
    DependsOnlyOnDeclared(JObj(m));
    assert Declared(m, Keys) == Encode(r).fields;
    RoundTrip(r);
  }

  /** `RTDNetworkStatisticsBuilder`. */
  class NetworkStatisticsBuilder {
    var inner: NetworkStatistics

    /** `NetworkStatistics::builder()`: `since_date` 0 and no entries. */
    constructor ()
      ensures inner.td_name == Tag && inner.since_date == 0 && inner.entries == []
    {
      inner := Default().(td_name := Tag);
    }

    /** `build()`: a copy of the accumulated record; the builder is only read. */
    function Build(): (r: NetworkStatistics)
      reads this
      ensures r == inner
    {
      inner
    }

    method SinceDate(since_date: I32)
      modifies this
      ensures inner == old(inner).(since_date := since_date)
    {
      inner := inner.(since_date := since_date);
    }

    /** Replaces the whole list. */
    method Entries(entries: seq<NetworkStatisticsEntry>)
      modifies this
      ensures inner == old(inner).(entries := entries)
    {
      inner := inner.(entries := entries);
    }
  }
}
