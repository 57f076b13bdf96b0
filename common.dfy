/**
  The tagged-union decoder shared by every union of the protocol
  (`rtd_enum_deserialize!`), its dispatch-table lookup, and the two "peek"
  helpers that read only the discriminator and the correlation id.
*/
module TaggedUnion {
  import opened Wrappers
  import opened JsonValue

  /** Every discriminator of a dispatch table is listed once. */
  predicate DistinctTags<K>(table: seq<(string, K)>) {
    forall i, j :: 0 <= i < j < |table| ==> table[i].0 != table[j].0
  }

  /** The variant the table lists for `tag`, if any (the `match` over the table's string literals). */
  function Lookup<K>(table: seq<(string, K)>, tag: string): (r: Option<K>)
    ensures r.Some? ==> exists i :: 0 <= i < |table| && table[i] == (tag, r.value)
    ensures r.None? <==> forall i :: 0 <= i < |table| ==> table[i].0 != tag
  {
    if table == [] then None
    else if table[0].0 == tag then Some(table[0].1)
    else
      var r := Lookup(table[1..], tag);
      assert forall i :: 1 <= i < |table| ==> table[i] == table[1..][i - 1];
      r
  }

  /** With distinct discriminators, each row's discriminator selects exactly that row's variant. */
  lemma {:induction false} LookupFindsRow<K>(table: seq<(string, K)>, i: nat)
    requires DistinctTags(table) && i < |table|
    ensures Lookup(table, table[i].0) == Some(table[i].1)
  {
    if i > 0 {
      var rest := table[1..];
      assert forall a, b :: 0 <= a < b < |rest| ==> rest[a] == table[a + 1] && rest[b] == table[b + 1];
      LookupFindsRow(rest, i - 1);
      assert table[0].0 != table[i].0;
    }
  }

  /**
    The decoder of a union whose dispatch table is `table`; `inner(k, j)`
    decodes the whole object `j` (its "@type" included) as the record of
    variant `k`. Steps: the value must be an object; it must have "@type";
    "@type" must be a string; the string must be listed in the table (there
    is no fallback variant); and the matched record must decode, otherwise
    the whole decode fails and no record is produced.
  */
  function DecodeUnion<K, U>(table: seq<(string, K)>, j: Json, inner: (K, Json) -> Result<U, DecodeError>)
    : (r: Result<U, DecodeError>)
    ensures !j.JObj? ==> r == Failure(NotAnObject)
    ensures j.JObj? && TypeKey !in j.fields ==> r == Failure(MissingTag)
    ensures j.JObj? && TypeKey in j.fields && !j.fields[TypeKey].JStr? ==> r == Failure(TagNotString)
    ensures j.JObj? && IsTagged(j.fields) && (forall i :: 0 <= i < |table| ==> table[i].0 != j.fields[TypeKey].s)
            ==> r == Failure(UnknownTag(j.fields[TypeKey].s))
    ensures r.Success? ==> j.JObj? && IsTagged(j.fields)
    ensures r.Success? ==> exists i :: 0 <= i < |table| && table[i].0 == j.fields[TypeKey].s && inner(table[i].1, j) == r
  {
    if !j.JObj? then Failure(NotAnObject)
    else if TypeKey !in j.fields then Failure(MissingTag)
    else if !j.fields[TypeKey].JStr? then Failure(TagNotString)
    else
      var tag := j.fields[TypeKey].s;
      match Lookup(table, tag)
      case None => Failure(UnknownTag(tag))
      case Some(k) =>
        match inner(k, j)
        case Success(u) => Success(u)
        case Failure(e) => Failure(VariantFailed(tag, e))
  }

  /**
    For an object whose "@type" is row `i`'s discriminator, the result is
    exactly that row's variant decoded from the whole object, or a failure
    naming the discriminator, with no partial record.
  */
  lemma DecodeSelectsRow<K, U>(table: seq<(string, K)>, j: Json, inner: (K, Json) -> Result<U, DecodeError>, i: nat)
    requires DistinctTags(table) && i < |table|
    requires j.JObj? && TypeKey in j.fields && j.fields[TypeKey] == JStr(table[i].0)
    ensures inner(table[i].1, j).Success? ==> DecodeUnion(table, j, inner) == inner(table[i].1, j)
    ensures inner(table[i].1, j).Failure? ==>
              DecodeUnion(table, j, inner) == Failure(VariantFailed(table[i].0, inner(table[i].1, j).error))
  {
    LookupFindsRow(table, i);
  }

  /**
    The kind of serde error each decode failure is raised as: the union
    decoder's own failures as `rtd_enum_deserialize!` raises them, and a
    record's failures as serde's derived `Deserialize` does.
  */
  datatype SerdeErrorKind = UnknownFieldError | MissingFieldError | InvalidTypeError | InvalidValueError

  function SerdeKind(e: DecodeError): (k: SerdeErrorKind)
    ensures k == MissingFieldError <==> e.MissingTag? || e.UnknownTag? || e.MissingField?
    ensures k == UnknownFieldError <==> e.NotAnObject? || e.TagNotString? || e.VariantFailed?
    ensures k == InvalidTypeError <==> e.NotAStruct? || e.InvalidType?
    ensures k == InvalidValueError <==> e.InvalidValue?
  {
    match e
    case NotAnObject => UnknownFieldError
    case MissingTag => MissingFieldError
    case TagNotString => UnknownFieldError
    case UnknownTag(_) => MissingFieldError
    case VariantFailed(_, _) => UnknownFieldError
    case NotAStruct => InvalidTypeError
    case MissingField(_) => MissingFieldError
    case InvalidType(_) => InvalidTypeError
    case InvalidValue(_) => InvalidValueError
  }

  /**
    The serde error kind of each way a union decode fails: a value that is
    not an object, a "@type" that is not a string and a record that does not
    decode are unknown-field errors; a missing "@type" and an unlisted one
    are missing-field errors. A successful decode raises nothing.
  */
  lemma TagErrorKinds<K, U>(table: seq<(string, K)>, j: Json, inner: (K, Json) -> Result<U, DecodeError>)
    ensures !j.JObj? ==> SerdeKind(DecodeUnion(table, j, inner).error) == UnknownFieldError
    ensures j.JObj? && TypeKey !in j.fields ==> SerdeKind(DecodeUnion(table, j, inner).error) == MissingFieldError
    ensures j.JObj? && TypeKey in j.fields && !j.fields[TypeKey].JStr? ==>
              SerdeKind(DecodeUnion(table, j, inner).error) == UnknownFieldError
    ensures j.JObj? && IsTagged(j.fields) && Lookup(table, j.fields[TypeKey].s).None? ==>
              SerdeKind(DecodeUnion(table, j, inner).error) == MissingFieldError
    ensures j.JObj? && IsTagged(j.fields) && Lookup(table, j.fields[TypeKey].s).Some? &&
            inner(Lookup(table, j.fields[TypeKey].s).value, j).Failure? ==>
              SerdeKind(DecodeUnion(table, j, inner).error) == UnknownFieldError
  {
  }

  // ---------------------------------------------------------------------
  // Peek helpers. The argument is the outcome of parsing the message text:
  // `None` when the text is not JSON at all.
  // ---------------------------------------------------------------------

  /** The parsed message is an object whose member `key` is a string. */
  predicate HasStringAt(parsed: Option<Json>, key: string) {
    parsed.Some? && parsed.value.JObj? && key in parsed.value.fields && parsed.value.fields[key].JStr?
  }

  /**
    `detect_td_type`: the "@type" string of the message, and nothing else;
    `None` for text that does not parse, a value that is not an object, and
    a "@type" that is missing or not a string.
  */
  function DetectTdType(parsed: Option<Json>): (r: Option<string>)
    ensures r.Some? <==> HasStringAt(parsed, TypeKey)
    ensures r.Some? ==> parsed.value.fields[TypeKey] == JStr(r.value)
  {
    match parsed
    case None => None
    case Some(value) =>
      if !value.JObj? || TypeKey !in value.fields then None
      else
        match value.fields[TypeKey]
        case JStr(t) => Some(t)
        case _ => None
  }

  /**
    `detect_td_type_and_extra`: "@type" and "@extra" are read independently;
    each is present only when its member exists and is a string. An absent
    "@extra" gives `None`, never the empty string.
  */
  method DetectTdTypeAndExtra(parsed: Option<Json>) returns (tdType: Option<string>, extra: Option<string>)
    ensures tdType == DetectTdType(parsed)
    ensures extra.Some? <==> HasStringAt(parsed, ExtraKey)
    ensures extra.Some? ==> parsed.value.fields[ExtraKey] == JStr(extra.value)
    ensures parsed.None? ==> tdType.None? && extra.None?
  {
    if parsed.None? {
      return None, None;
    }
    var value := parsed.value;
    tdType := None;
    extra := None;
    if value.JObj? {
      var fields := value.fields;
      if TypeKey in fields && fields[TypeKey].JStr? {
        tdType := Some(fields[TypeKey].s);
      }
      if ExtraKey in fields && fields[ExtraKey].JStr? {
        extra := Some(fields[ExtraKey].s);
      }
    }
  }

  /**
    The peek and the full decode agree: whenever a message decodes, the peek
    reports the discriminator that selected its variant; whenever the peek
    reports nothing, the decode fails at the object or "@type" step.
  */
  lemma PeekAgreesWithDecode<K, U>(table: seq<(string, K)>, j: Json, inner: (K, Json) -> Result<U, DecodeError>)
    ensures DecodeUnion(table, j, inner).Success? ==>
              DetectTdType(Some(j)).Some? && Lookup(table, DetectTdType(Some(j)).value).Some?
    ensures DetectTdType(Some(j)).None? ==>
              DecodeUnion(table, j, inner).Failure? &&
              DecodeUnion(table, j, inner).error in {NotAnObject, MissingTag, TagNotString}
  {
    var r := DecodeUnion(table, j, inner);
    if r.Success? {
      var i :| 0 <= i < |table| && table[i].0 == j.fields[TypeKey].s && inner(table[i].1, j) == r;
      assert Lookup(table, table[i].0).Some?;
    }
  }
}
