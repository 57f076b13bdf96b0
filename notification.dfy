/** The `notification` record. */
module NotificationRecord {
  import opened Wrappers
  import opened JsonValue

  /** The kind of a notification; its own fields are not part of this model. */
  type NotificationType = Nested

  /** The record; each field's destructor is its getter. */
  datatype Notification = Notification(
    td_name: string,
    id: I32,
    date: I32,
    type_: NotificationType)
  {
    /** `RObject::td_name`: the schema's fixed discriminator, whatever the fields hold. */
    function TdName(): string {
      Tag
    }
  }

  const Tag := "notification"

  /** The member that holds `type_`: renamed to "type", a different key from the discriminator's "@type". */
  const TypeFieldKey := "type"

  const Keys: set<string> := {TypeKey, "id", "date", TypeFieldKey}

  /** `#[derive(Default)]`. */
  function Default(): (d: Notification)
    ensures d.td_name == "" && d.td_name != d.TdName()
    ensures d.id == 0 && d.date == 0 && d.type_ == DefaultNested
  {
    Notification("", 0, 0, DefaultNested)
  }

  function Encode(r: Notification): (j: Json)
    ensures j.JObj? && j.fields.Keys == Keys
    ensures j.fields[TypeKey] == JStr(r.td_name)
    ensures j.fields[TypeFieldKey] == JObj(r.type_)
    ensures j.fields["id"] == JInt(r.id) && j.fields["date"] == JInt(r.date)
  {
    JObj(map[
      TypeKey := JStr(r.td_name),
      "id" := JInt(r.id),
      "date" := JInt(r.date),
      TypeFieldKey := JObj(r.type_)])
  }

  /** Every member required; `type_` is read from "type" and the discriminator from "@type". */
  function Decode(j: Json): (r: Result<Notification, DecodeError>)
    ensures !j.JObj? ==> r == Failure(NotAStruct)
    ensures r.Success? ==> j.JObj? && Keys <= j.fields.Keys && j.fields[TypeKey] == JStr(r.value.td_name)
    ensures r.Success? ==> j.fields[TypeFieldKey] == JObj(r.value.type_)
    ensures r.Success? ==> j.fields["id"] == JInt(r.value.id) && j.fields["date"] == JInt(r.value.date)
  {
    if !j.JObj? then Failure(NotAStruct)
    else
      var m := j.fields;
      var td_name :- GetStr(m, TypeKey);
      var id :- GetI32(m, "id");
      var date :- GetI32(m, "date");
      var type_ :- GetNested(m, TypeFieldKey);
      Success(Notification(td_name, id, date, type_))
  }

  /** Decoding an encoded record gives it back; the discriminator and `type_` do not mix. */
  lemma {:induction false} RoundTrip(r: Notification)
    ensures Decode(Encode(r)) == Success(r)
  {
    var m := Encode(r).fields;
    assert GetStr(m, TypeKey) == Success(r.td_name);
    assert GetI32(m, "id") == Success(r.id);
    assert GetI32(m, "date") == Success(r.date);
    assert GetNested(m, TypeFieldKey) == Success(r.type_);
  }

  /** An object with no "type" member does not decode, even though it has "@type". */
  lemma MissingTypeFieldRejected(j: Json)
    requires j.JObj? && TypeKey in j.fields && TypeFieldKey !in j.fields
    ensures Decode(j).Failure?
  {
  }

  /** Re-encoding a decoded object reproduces exactly its declared members. */
  lemma {:induction false} DecodeThenEncode(j: Json)
    requires Decode(j).Success?
    ensures Encode(Decode(j).value) == JObj(map k | k in Keys :: j.fields[k])
  {
  }

  /**
    Members the record does not declare, such as the correlation id "@extra",
    are ignored: the outcome, success or error, depends only on the declared members.
  */
  lemma {:induction false} DependsOnlyOnDeclared(j: Json)
    requires j.JObj?
    ensures Decode(j) == Decode(JObj(Declared(j.fields, Keys)))
  {
    FieldOfDeclared(j.fields, Keys);
  }

  /** An encoded record with any undeclared members added still decodes to that record. */
  lemma {:induction false} IgnoresUndeclared(r: Notification, extra: map<string, Json>)
    requires extra.Keys !! Keys
    ensures Decode(JObj(Encode(r).fields + extra)) == Success(r)
  {
    var m := Encode(r).fields + extra;
    DependsOnlyOnDeclared(JObj(m));
    assert Declared(m, Keys) == Encode(r).fields;
    RoundTrip(r);
  }

  /** `RTDNotificationBuilder`. */
  class NotificationBuilder {
    var inner: Notification

    /** `Notification::builder()`: zero id and date, the default notification type. */
    constructor ()
      ensures inner.td_name == Tag
      ensures inner.id == 0 && inner.date == 0 && inner.type_ == DefaultNested
    {
      inner := Default().(td_name := Tag);
    }

    /** `build()`: a copy of the accumulated record; the builder is only read. */
    function Build(): (r: Notification)
      reads this
      ensures r == inner
    {
      inner
    }

    method Id(id: I32)
      modifies this
      ensures inner == old(inner).(id := id)
    {
      inner := inner.(id := id);
    }

    method Date(date: I32)
      modifies this
      ensures inner == old(inner).(date := date)
    {
      inner := inner.(date := date);
    }

    method Type(type_: NotificationType)
      modifies this
      ensures inner == old(inner).(type_ := type_)
    {
      inner := inner.(type_ := type_);
    }
  }
}
