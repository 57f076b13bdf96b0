/** The `storageStatisticsFast` record: approximate storage usage statistics. */
module StorageStatisticsFastRecord {
  import opened Wrappers
  import opened JsonValue

  /** The record; each field's destructor is its getter. */
  datatype StorageStatisticsFast = StorageStatisticsFast(
    td_name: string,
    files_size: I32,
    file_count: I32,
    database_size: I32,
    language_pack_database_size: I32,
    log_size: I32)
  {
    /** `RObject::td_name`: the schema's fixed discriminator, whatever the fields hold. */
    function TdName(): string {
      Tag
    }
  }

  const Tag := "storageStatisticsFast"

  const Keys: set<string> := {TypeKey, "files_size", "file_count", "database_size",
                              "language_pack_database_size", "log_size"}

  /** `#[derive(Default)]`. */
  function Default(): (d: StorageStatisticsFast)
    ensures d.td_name == "" && d.td_name != d.TdName()
    ensures d.files_size == 0 && d.file_count == 0 && d.database_size == 0
    ensures d.language_pack_database_size == 0 && d.log_size == 0
  {
    StorageStatisticsFast("", 0, 0, 0, 0, 0)
  }

  function Encode(r: StorageStatisticsFast): (j: Json)
    ensures j.JObj? && j.fields.Keys == Keys
    ensures j.fields[TypeKey] == JStr(r.td_name)
    ensures j.fields["files_size"] == JInt(r.files_size) && j.fields["file_count"] == JInt(r.file_count)
    ensures j.fields["database_size"] == JInt(r.database_size) && j.fields["log_size"] == JInt(r.log_size)
    ensures j.fields["language_pack_database_size"] == JInt(r.language_pack_database_size)
  {
    JObj(map[
      TypeKey := JStr(r.td_name),
      "files_size" := JInt(r.files_size),
      "file_count" := JInt(r.file_count),
      "database_size" := JInt(r.database_size),
      "language_pack_database_size" := JInt(r.language_pack_database_size),
      "log_size" := JInt(r.log_size)])
  }

  /** Every member required and of its field's type; an "@type" of any string is kept as it is. */
  function Decode(j: Json): (r: Result<StorageStatisticsFast, DecodeError>)
    ensures !j.JObj? ==> r == Failure(NotAStruct)
    ensures r.Success? ==> j.JObj? && Keys <= j.fields.Keys && j.fields[TypeKey] == JStr(r.value.td_name)
    ensures r.Success? ==> j.fields["files_size"] == JInt(r.value.files_size)
    ensures r.Success? ==> j.fields["file_count"] == JInt(r.value.file_count)
    ensures r.Success? ==> j.fields["database_size"] == JInt(r.value.database_size)
    ensures r.Success? ==> j.fields["language_pack_database_size"] == JInt(r.value.language_pack_database_size)
    ensures r.Success? ==> j.fields["log_size"] == JInt(r.value.log_size)
  {
    if !j.JObj? then Failure(NotAStruct)
    else
      var m := j.fields;
      var td_name :- GetStr(m, TypeKey);
      var files_size :- GetI32(m, "files_size");
      var file_count :- GetI32(m, "file_count");
      var database_size :- GetI32(m, "database_size");
      var language_pack_database_size :- GetI32(m, "language_pack_database_size");
      var log_size :- GetI32(m, "log_size");
      Success(StorageStatisticsFast(td_name, files_size, file_count, database_size,
                                    language_pack_database_size, log_size))
  }

  /** Decoding an encoded record gives back all five counters and the "@type" value. */
  lemma {:induction false} RoundTrip(r: StorageStatisticsFast)
    ensures Decode(Encode(r)) == Success(r)
  {
    var m := Encode(r).fields;
    assert GetStr(m, TypeKey) == Success(r.td_name);
    assert GetI32(m, "files_size") == Success(r.files_size);
    assert GetI32(m, "file_count") == Success(r.file_count);
    assert GetI32(m, "database_size") == Success(r.database_size);
    assert GetI32(m, "language_pack_database_size") == Success(r.language_pack_database_size);
    assert GetI32(m, "log_size") == Success(r.log_size);
  }

  /** Re-encoding a decoded object reproduces exactly its declared members. */
  lemma {:induction false} DecodeThenEncode(j: Json)
    requires Decode(j).Success?
    ensures Encode(Decode(j).value) == JObj(map k | k in Keys :: j.fields[k])
  {
  }

  /**
    Members the record does not declare, such as the correlation id "@extra",
    are ignored: the outcome, success or error, depends only on the declared members.
  */
  lemma {:induction false} DependsOnlyOnDeclared(j: Json)
    requires j.JObj?
    ensures Decode(j) == Decode(JObj(Declared(j.fields, Keys)))
  {
    FieldOfDeclared(j.fields, Keys);
  }

  /** An encoded record with any undeclared members added still decodes to that record. */
  lemma {:induction false} IgnoresUndeclared(r: StorageStatisticsFast, extra: map<string, Json>)
    requires extra.Keys !! Keys
    ensures Decode(JObj(Encode(r).fields + extra)) == Success(r)
  {
    var m := Encode(r).fields + extra;
    DependsOnlyOnDeclared(JObj(m));
    assert Declared(m, Keys) == Encode(r).fields;
    RoundTrip(r);
  }

  /** `RTDStorageStatisticsFastBuilder`. */
  class StorageStatisticsFastBuilder {
    var inner: StorageStatisticsFast

    /** `StorageStatisticsFast::builder()`: the discriminator and all five counters 0. */
    constructor ()
      ensures inner.td_name == Tag
      ensures inner.files_size == 0 && inner.file_count == 0 && inner.database_size == 0
      ensures inner.language_pack_database_size == 0 && inner.log_size == 0
    {
      inner := Default().(td_name := Tag);
    }

    /** `build()`: a copy of the accumulated record; the builder is only read. */
    function Build(): (r: StorageStatisticsFast)
      reads this
      ensures r == inner
    {
      inner
    }

    method FilesSize(files_size: I32)
      modifies this
      ensures inner == old(inner).(files_size := files_size)
    {
      inner := inner.(files_size := files_size);
    }

    method FileCount(file_count: I32)
      modifies this
      ensures inner == old(inner).(file_count := file_count)
    {
      inner := inner.(file_count := file_count);
    }

    method DatabaseSize(database_size: I32)
      modifies this
      ensures inner == old(inner).(database_size := database_size)
    {
      inner := inner.(database_size := database_size);
    }

    method LanguagePackDatabaseSize(language_pack_database_size: I32)
      modifies this
      ensures inner == old(inner).(language_pack_database_size := language_pack_database_size)
    {
      inner := inner.(language_pack_database_size := language_pack_database_size);
    }

    method LogSize(log_size: I32)
      modifies this
      ensures inner == old(inner).(log_size := log_size)
    {
      inner := inner.(log_size := log_size);
    }
  }
}
