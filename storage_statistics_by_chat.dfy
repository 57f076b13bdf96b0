/** The `storageStatisticsByChat` record: storage usage statistics for one chat. */
module StorageStatisticsByChatRecord {
  import opened Wrappers
  import opened JsonValue

  /** Per-file-type statistics; their own fields are not part of this model. */
  type StorageStatisticsByFileType = Nested

  /** The record; each field's destructor is its getter. A `chat_id` of 0 means "no chat". */
  datatype StorageStatisticsByChat = StorageStatisticsByChat(
    td_name: string,
    chat_id: I32,
    size: I32,
    count: I32,
    by_file_type: seq<StorageStatisticsByFileType>)
  {
    /** `RObject::td_name`: the schema's fixed discriminator, whatever the fields hold. */
    function TdName(): string {
      Tag
    }
  }

  const Tag := "storageStatisticsByChat"

  const Keys: set<string> := {TypeKey, "chat_id", "size", "count", "by_file_type"}

  /** `#[derive(Default)]`. */
  function Default(): (d: StorageStatisticsByChat)
    ensures d.td_name == "" && d.td_name != d.TdName()
    ensures d.chat_id == 0 && d.size == 0 && d.count == 0 && d.by_file_type == []
  {
    StorageStatisticsByChat("", 0, 0, 0, [])
  }

  function Encode(r: StorageStatisticsByChat): (j: Json)
    ensures j.JObj? && j.fields.Keys == Keys
    ensures j.fields[TypeKey] == JStr(r.td_name)
    ensures j.fields["chat_id"] == JInt(r.chat_id)
    ensures j.fields["size"] == JInt(r.size) && j.fields["count"] == JInt(r.count)
    ensures j.fields["by_file_type"] == JArr(EncodeItems(r.by_file_type, EncodeNested))
  {
    JObj(map[
      TypeKey := JStr(r.td_name),
      "chat_id" := JInt(r.chat_id),
      "size" := JInt(r.size),
      "count" := JInt(r.count),
      "by_file_type" := JArr(EncodeItems(r.by_file_type, EncodeNested))])
  }

  /** Every member required and of its field's type; an "@type" of any string is kept as it is. */
  function Decode(j: Json): (r: Result<StorageStatisticsByChat, DecodeError>)
    ensures !j.JObj? ==> r == Failure(NotAStruct)
    ensures r.Success? ==> j.JObj? && Keys <= j.fields.Keys && j.fields[TypeKey] == JStr(r.value.td_name)
    ensures r.Success? ==> j.fields["chat_id"] == JInt(r.value.chat_id)
    ensures r.Success? ==> j.fields["size"] == JInt(r.value.size) && j.fields["count"] == JInt(r.value.count)
    ensures r.Success? ==> j.fields["by_file_type"] == JArr(EncodeItems(r.value.by_file_type, EncodeNested))
  {
    if !j.JObj? then Failure(NotAStruct)
    else
      var m := j.fields;
      var td_name :- GetStr(m, TypeKey);
      var chat_id :- GetI32(m, "chat_id");
      var size :- GetI32(m, "size");
      var count :- GetI32(m, "count");
      var by_file_type :- GetSeq(m, "by_file_type", j => AsNested(j, "by_file_type"));
      Success(StorageStatisticsByChat(td_name, chat_id, size, count, by_file_type))
  }

  /** Decoding an encoded record gives back every field, the list in its order. */
  lemma {:induction false} RoundTrip(r: StorageStatisticsByChat)
    ensures Decode(Encode(r)) == Success(r)
  {
    var m := Encode(r).fields;
    assert GetStr(m, TypeKey) == Success(r.td_name);
    assert GetI32(m, "chat_id") == Success(r.chat_id);
    assert GetI32(m, "size") == Success(r.size);
    assert GetI32(m, "count") == Success(r.count);
    ItemsRoundTrip(r.by_file_type, EncodeNested, j => AsNested(j, "by_file_type"));
  }

  /** Re-encoding a decoded object reproduces exactly its declared members. */
  lemma {:induction false} DecodeThenEncode(j: Json)
    requires Decode(j).Success?
    ensures Encode(Decode(j).value) == JObj(map k | k in Keys :: j.fields[k])
  {
    ItemsDecodeEncode(j.fields["by_file_type"].items, EncodeNested, j => AsNested(j, "by_file_type"));
  }

  /**
    Members the record does not declare, such as the correlation id "@extra",
    are ignored: the outcome, success or error, depends only on the declared members.
  */
  lemma {:induction false} DependsOnlyOnDeclared(j: Json)
    requires j.JObj?
    ensures Decode(j) == Decode(JObj(Declared(j.fields, Keys)))
  {
    FieldOfDeclared(j.fields, Keys);
  }

  /** An encoded record with any undeclared members added still decodes to that record. */
  lemma {:induction false} IgnoresUndeclared(r: StorageStatisticsByChat, extra: map<string, Json>)
    requires extra.Keys !! Keys
    ensures Decode(JObj(Encode(r).fields + extra)) == Success(r)
  {
    var m := Encode(r).fields + extra;
    DependsOnlyOnDeclared(JObj(m));
    assert Declared(m, Keys) == Encode(r).fields;
    RoundTrip(r);
  }

  /** `RTDStorageStatisticsByChatBuilder`. */
  class StorageStatisticsByChatBuilder {
    var inner: StorageStatisticsByChat

    /** `StorageStatisticsByChat::builder()`: no chat, zero size and count, no per-type entries. */
    constructor ()
      ensures inner.td_name == Tag
      ensures inner.chat_id == 0 && inner.size == 0 && inner.count == 0
      ensures inner.by_file_type == []
    {
      inner := Default().(td_name := Tag);
    }

    /** `build()`: a copy of the accumulated record; the builder is only read. */
    function Build(): (r: StorageStatisticsByChat)
      reads this
      ensures r == inner
    {
      inner
    }

    method ChatId(chat_id: I32)
      modifies this
      ensures inner == old(inner).(chat_id := chat_id)
    {
      inner := inner.(chat_id := chat_id);
    }

    method Size(size: I32)
      modifies this
      ensures inner == old(inner).(size := size)
    {
      inner := inner.(size := size);
    }

    method Count(count: I32)
      modifies this
      ensures inner == old(inner).(count := count)
    {
      inner := inner.(count := count);
    }

    /** Replaces the whole list: the new list is the argument, not the old one extended. */
    method ByFileType(by_file_type: seq<StorageStatisticsByFileType>)
      modifies this
      ensures inner == old(inner).(by_file_type := by_file_type)
    {
      inner := inner.(by_file_type := by_file_type);
    }
  }

  /** Setting the list twice keeps only the second list, with its length and order. */
  method ReplaceByFileType(first: seq<StorageStatisticsByFileType>, second: seq<StorageStatisticsByFileType>)
    returns (r: StorageStatisticsByChat)
    ensures r.by_file_type == second
    ensures r.td_name == Tag && r.chat_id == 0 && r.size == 0 && r.count == 0
  {
    var b := new StorageStatisticsByChatBuilder();
    b.ByFileType(first);
    b.ByFileType(second);
    r := b.Build();
  }
}
