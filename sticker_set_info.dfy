/** The `stickerSetInfo` record: short information about a sticker set. */
module StickerSetInfoRecord {
  import opened Wrappers
  import opened JsonValue

  /** A sticker; its own fields are not part of this model. */
  type Sticker = Nested

  /**
    The record. Each field's destructor is the record's getter (`id()`,
    `title()`, ...): it returns exactly what is stored. `td_name` is the
    discriminator as stored, carried under "@type".
  */
  datatype StickerSetInfo = StickerSetInfo(
    td_name: string,
    id: I64,
    title: string,
    name: string,
    is_installed: bool,
    is_archived: bool,
    is_official: bool,
    is_masks: bool,
    is_viewed: bool,
    size: I32,
    covers: seq<Sticker>)
  {
    /** `RObject::td_name`: the schema's fixed discriminator, whatever the fields hold. */
    function TdName(): string {
      Tag
    }
  }

  const Tag := "stickerSetInfo"

  /** The JSON members a record is encoded to. */
  const Keys: set<string> := {TypeKey, "id", "title", "name", "is_installed", "is_archived",
                              "is_official", "is_masks", "is_viewed", "size", "covers"}

  /** `#[derive(Default)]`: every field at its type's zero value, `td_name` empty. */
  function Default(): (d: StickerSetInfo)
    ensures d.td_name == "" && d.td_name != d.TdName()
    ensures d.id == 0 && d.size == 0 && d.title == "" && d.name == "" && d.covers == []
    ensures !d.is_installed && !d.is_archived && !d.is_official && !d.is_masks && !d.is_viewed
  {
    StickerSetInfo("", 0, "", "", false, false, false, false, false, 0, [])
  }

  /** `to_json` on the value level: `td_name` goes under "@type", every other field under its own name. */
  function Encode(r: StickerSetInfo): (j: Json)
    ensures j.JObj? && j.fields.Keys == Keys
    ensures j.fields[TypeKey] == JStr(r.td_name)
    ensures j.fields["id"] == JInt(r.id) && j.fields["size"] == JInt(r.size)
    ensures j.fields["title"] == JStr(r.title) && j.fields["name"] == JStr(r.name)
    ensures j.fields["is_installed"] == JBool(r.is_installed) && j.fields["is_archived"] == JBool(r.is_archived)
    ensures j.fields["is_official"] == JBool(r.is_official) && j.fields["is_masks"] == JBool(r.is_masks)
    ensures j.fields["is_viewed"] == JBool(r.is_viewed)
    ensures j.fields["covers"] == JArr(EncodeItems(r.covers, EncodeNested))
  {
    JObj(map[
      TypeKey := JStr(r.td_name),
      "id" := JInt(r.id),
      "title" := JStr(r.title),
      "name" := JStr(r.name),
      "is_installed" := JBool(r.is_installed),
      "is_archived" := JBool(r.is_archived),
      "is_official" := JBool(r.is_official),
      "is_masks" := JBool(r.is_masks),
      "is_viewed" := JBool(r.is_viewed),
      "size" := JInt(r.size),
      "covers" := JArr(EncodeItems(r.covers, EncodeNested))])
  }

  /**
    `from_json` on the value level (serde's derived `Deserialize`): every
    member is required and must have its field's type; other members are
    ignored. The "@type" string is kept as it is, and is not compared with
    `TdName()`.
  */
  function Decode(j: Json): (r: Result<StickerSetInfo, DecodeError>)
    ensures !j.JObj? ==> r == Failure(NotAStruct)
    ensures r.Success? ==> j.JObj? && Keys <= j.fields.Keys && j.fields[TypeKey] == JStr(r.value.td_name)
    ensures r.Success? ==> j.fields["id"] == JInt(r.value.id) && j.fields["size"] == JInt(r.value.size)
    ensures r.Success? ==> j.fields["title"] == JStr(r.value.title) && j.fields["name"] == JStr(r.value.name)
    ensures r.Success? ==> j.fields["is_installed"] == JBool(r.value.is_installed)
    ensures r.Success? ==> j.fields["is_archived"] == JBool(r.value.is_archived)
    ensures r.Success? ==> j.fields["is_official"] == JBool(r.value.is_official)
    ensures r.Success? ==> j.fields["is_masks"] == JBool(r.value.is_masks)
    ensures r.Success? ==> j.fields["is_viewed"] == JBool(r.value.is_viewed)
    ensures r.Success? ==> j.fields["covers"] == JArr(EncodeItems(r.value.covers, EncodeNested))
  {
    if !j.JObj? then Failure(NotAStruct)
    else
      var m := j.fields;
      var td_name :- GetStr(m, TypeKey);
      var id :- GetI64(m, "id");
      var title :- GetStr(m, "title");
      var name :- GetStr(m, "name");
      var is_installed :- GetBool(m, "is_installed");
      var is_archived :- GetBool(m, "is_archived");
      var is_official :- GetBool(m, "is_official");
      var is_masks :- GetBool(m, "is_masks");
      var is_viewed :- GetBool(m, "is_viewed");
      var size :- GetI32(m, "size");
      var covers :- GetSeq(m, "covers", j => AsNested(j, "covers"));
      Success(StickerSetInfo(td_name, id, title, name, is_installed, is_archived,
                             is_official, is_masks, is_viewed, size, covers))
  }

  /** Decoding an encoded record gives back a field-equal record. */
  lemma {:induction false} RoundTrip(r: StickerSetInfo)
    ensures Decode(Encode(r)) == Success(r)
  {
    var m := Encode(r).fields;
    assert GetStr(m, TypeKey) == Success(r.td_name);
    assert GetI64(m, "id") == Success(r.id);
    assert GetStr(m, "title") == Success(r.title);
    assert GetStr(m, "name") == Success(r.name);
    assert GetBool(m, "is_installed") == Success(r.is_installed);
    assert GetBool(m, "is_archived") == Success(r.is_archived);
    assert GetBool(m, "is_official") == Success(r.is_official);
    assert GetBool(m, "is_masks") == Success(r.is_masks);
    assert GetBool(m, "is_viewed") == Success(r.is_viewed);
    assert GetI32(m, "size") == Success(r.size);
    ItemsRoundTrip(r.covers, EncodeNested, j => AsNested(j, "covers"));
    assert GetSeq(m, "covers", j => AsNested(j, "covers")) == Success(r.covers);
  }

  /** Re-encoding a decoded object reproduces exactly its declared members; any other member is dropped. */
  lemma {:induction false} DecodeThenEncode(j: Json)
    requires Decode(j).Success?
    ensures Encode(Decode(j).value) == JObj(map k | k in Keys :: j.fields[k])
  {
    var items := j.fields["covers"].items;
    ItemsDecodeEncode(items, EncodeNested, j => AsNested(j, "covers"));
  }

  /**
    Members the record does not declare, such as the correlation id "@extra",
    are ignored: the outcome, success or error, depends only on the declared members.
  */
  lemma {:induction false} DependsOnlyOnDeclared(j: Json)
    requires j.JObj?
    ensures Decode(j) == Decode(JObj(Declared(j.fields, Keys)))
  {
    FieldOfDeclared(j.fields, Keys);
  }

  /** An encoded record with any undeclared members added still decodes to that record. */
  lemma {:induction false} IgnoresUndeclared(r: StickerSetInfo, extra: map<string, Json>)
    requires extra.Keys !! Keys
    ensures Decode(JObj(Encode(r).fields + extra)) == Success(r)
  {
    var m := Encode(r).fields + extra;
    DependsOnlyOnDeclared(JObj(m));
    assert Declared(m, Keys) == Encode(r).fields;
    RoundTrip(r);
  }

  /** `RTDStickerSetInfoBuilder`: a record under construction. */
  class StickerSetInfoBuilder {
    var inner: StickerSetInfo

    /** `StickerSetInfo::builder()`: the default record with its discriminator filled in. */
    constructor ()
      ensures inner.td_name == Tag && inner.id == 0 && inner.size == 0
      ensures inner.title == "" && inner.name == ""
      ensures !inner.is_installed && !inner.is_archived && !inner.is_official
      ensures !inner.is_masks && !inner.is_viewed
      ensures inner.covers == []
    {
      inner := Default().(td_name := Tag);
    }

    /** `build()`: a copy of the record as accumulated so far; the builder is only read. */
    function Build(): (r: StickerSetInfo)
      reads this
      ensures r == inner
    {
      inner
    }

    method Id(id: I64)
      modifies this
      ensures inner == old(inner).(id := id)
    {
      inner := inner.(id := id);
    }

    method Title(title: string)
      modifies this
      ensures inner == old(inner).(title := title)
    {
      inner := inner.(title := title);
    }

    method Name(name: string)
      modifies this
      ensures inner == old(inner).(name := name)
    {
      inner := inner.(name := name);
    }

    method IsInstalled(is_installed: bool)
      modifies this
      ensures inner == old(inner).(is_installed := is_installed)
    {
      inner := inner.(is_installed := is_installed);
    }

    method IsArchived(is_archived: bool)
      modifies this
      ensures inner == old(inner).(is_archived := is_archived)
    {
      inner := inner.(is_archived := is_archived);
    }

    method IsOfficial(is_official: bool)
      modifies this
      ensures inner == old(inner).(is_official := is_official)
    {
      inner := inner.(is_official := is_official);
    }

    method IsMasks(is_masks: bool)
      modifies this
      ensures inner == old(inner).(is_masks := is_masks)
    {
      inner := inner.(is_masks := is_masks);
    }

    method IsViewed(is_viewed: bool)
      modifies this
      ensures inner == old(inner).(is_viewed := is_viewed)
    {
      inner := inner.(is_viewed := is_viewed);
    }

    method Size(size: I32)
      modifies this
      ensures inner == old(inner).(size := size)
    {
      inner := inner.(size := size);
    }

    method Covers(covers: seq<Sticker>)
      modifies this
      ensures inner == old(inner).(covers := covers)
    {
      inner := inner.(covers := covers);
    }
  }

  /** `builder().build()`: the discriminator and every other field at its zero value. */
  method BuildDefault() returns (r: StickerSetInfo)
    ensures r.td_name == r.TdName()
    ensures r == StickerSetInfo(Tag, 0, "", "", false, false, false, false, false, 0, [])
  {
    var b := new StickerSetInfoBuilder();
    r := b.Build();
  }

  /** Setting `size` twice keeps the last value; the getter then returns it. */
  method LastSizeWins(first: I32, last: I32) returns (r: StickerSetInfo)
    ensures r.size == last
    ensures r == StickerSetInfo(Tag, 0, "", "", false, false, false, false, false, last, [])
  {
    var b := new StickerSetInfoBuilder();
    b.Size(first);
    b.Size(last);
    r := b.Build();
  }

  /** Setters on different fields commute, each sets only its own field, and building twice gives equal records. */
  method SettersCommute(id: I64, title: string) returns (a: StickerSetInfo, c: StickerSetInfo)
    ensures a == c
    ensures a == StickerSetInfo(Tag, id, title, "", false, false, false, false, false, 0, [])
  {
    var b1 := new StickerSetInfoBuilder();
    b1.Id(id);
    b1.Title(title);
    a := b1.Build();
    var b2 := new StickerSetInfoBuilder();
    b2.Title(title);
    b2.Id(id);
    var c1 := b2.Build();
    c := b2.Build();
    assert c1 == c;
  }
}
