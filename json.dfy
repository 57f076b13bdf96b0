/**
  The generic JSON value that every record is decoded from and encoded to
  (serde_json's `Value`), the decode errors, and the per-field decoders that
  serde's derived `Deserialize` applies to the members of a JSON object.
  Producing and printing JSON text is not part of this model.
*/
module JsonValue {
  import opened Wrappers

  datatype Json =
    | JNull
    | JBool(b: bool)
    | JInt(n: int)
    | JStr(s: string)
    | JArr(items: seq<Json>)
    | JObj(fields: map<string, Json>)

  /** The discriminator key every record is tagged with. */
  const TypeKey := "@type"
  /** The correlation-id key. */
  const ExtraKey := "@extra"

  predicate IsI32(n: int) { -0x8000_0000 <= n < 0x8000_0000 }
  predicate IsI64(n: int) { -0x8000_0000_0000_0000 <= n < 0x8000_0000_0000_0000 }

  /** Rust's `i32` and `i64`. */
  type I32 = n: int | IsI32(n)
  type I64 = n: int | IsI64(n)

  /**
    Why a decode failed. The first five are raised by the tagged-union decoder;
    the last four by serde's derived `Deserialize` of a struct: the value as a
    whole, then its members.
  */
  datatype DecodeError =
    | NotAnObject                                  // the value is not a JSON object
    | MissingTag                                   // no "@type" member
    | TagNotString                                 // "@type" is present but not a string
    | UnknownTag(tag: string)                      // "@type" names no entry of the table
    | VariantFailed(tag: string, cause: DecodeError) // the matched record did not decode
    | NotAStruct                                   // a record's value is not a JSON object
    | MissingField(key: string)                    // a required member is absent
    | InvalidType(key: string)                     // a member holds the wrong kind of JSON value
    | InvalidValue(key: string)                    // a number does not fit the field's integer width

  /** An object carrying a string "@type". */
  predicate IsTagged(m: map<string, Json>) {
    TypeKey in m && m[TypeKey].JStr?
  }

  /**
    A record of a type this model does not spell out (a sticker, a file, a
    photo size, a notification type, ...). It is known only by its JSON
    object, which, like every record of the protocol, carries a string "@type".
  */
  type Nested = m: map<string, Json> | IsTagged(m) witness map[TypeKey := JStr("")]

  /** Stand-in for `Default::default()` of a nested record type. */
  const DefaultNested: Nested := map[TypeKey := JStr("")]

  // ---------------------------------------------------------------------
  // Field decoders: one JSON value against one Rust field type.
  // ---------------------------------------------------------------------

  function Field(m: map<string, Json>, key: string): (r: Result<Json, DecodeError>)
    ensures r.Success? <==> key in m
    ensures r.Success? ==> r.value == m[key]
    ensures r.Failure? ==> r.error == MissingField(key)
  {
    if key in m then Success(m[key]) else Failure(MissingField(key))
  }

  function AsI32(j: Json, key: string): (r: Result<I32, DecodeError>)
    ensures r.Success? <==> j.JInt? && IsI32(j.n)
    ensures r.Success? ==> j == JInt(r.value)
  {
    match j
    case JInt(n) => if IsI32(n) then Success(n) else Failure(InvalidValue(key))
    case _ => Failure(InvalidType(key))
  }

  function AsI64(j: Json, key: string): (r: Result<I64, DecodeError>)
    ensures r.Success? <==> j.JInt? && IsI64(j.n)
    ensures r.Success? ==> j == JInt(r.value)
  {
    match j
    case JInt(n) => if IsI64(n) then Success(n) else Failure(InvalidValue(key))
    case _ => Failure(InvalidType(key))
  }

  function AsStr(j: Json, key: string): (r: Result<string, DecodeError>)
    ensures r.Success? <==> j.JStr?
    ensures r.Success? ==> j == JStr(r.value)
  {
    match j
    case JStr(s) => Success(s)
    case _ => Failure(InvalidType(key))
  }

  function AsBool(j: Json, key: string): (r: Result<bool, DecodeError>)
    ensures r.Success? <==> j.JBool?
    ensures r.Success? ==> j == JBool(r.value)
  {
    match j
    case JBool(b) => Success(b)
    case _ => Failure(InvalidType(key))
  }

  /** A nested record: an object whose own "@type" member is a string. */
  function AsNested(j: Json, key: string): (r: Result<Nested, DecodeError>)
    ensures r.Success? <==> j.JObj? && IsTagged(j.fields)
    ensures r.Success? ==> j == JObj(r.value)
  {
    if !j.JObj? then Failure(InvalidType(key))
    else if TypeKey !in j.fields then Failure(MissingField(TypeKey))
    else if !j.fields[TypeKey].JStr? then Failure(InvalidType(TypeKey))
    else Success(j.fields)
  }

  /** The members of `m` whose keys are in `keys`, and no others. */
  function Declared(m: map<string, Json>, keys: set<string>): (d: map<string, Json>)
    ensures d.Keys == m.Keys * keys
    ensures forall k :: k in d ==> d[k] == m[k]
  {
    map k | k in m && k in keys :: m[k]
  }

  /** Reading a declared member sees the same outcome whether or not undeclared members are present. */
  lemma FieldOfDeclared(m: map<string, Json>, keys: set<string>)
    ensures forall key :: key in keys ==> Field(Declared(m, keys), key) == Field(m, key)
  {
  }

  function GetI32(m: map<string, Json>, key: string): (r: Result<I32, DecodeError>)
    ensures key !in m ==> r == Failure(MissingField(key))
    ensures r.Success? ==> key in m && m[key] == JInt(r.value)
  {
    var j :- Field(m, key);
    AsI32(j, key)
  }

  function GetI64(m: map<string, Json>, key: string): (r: Result<I64, DecodeError>)
    ensures key !in m ==> r == Failure(MissingField(key))
    ensures r.Success? ==> key in m && m[key] == JInt(r.value)
  {
    var j :- Field(m, key);
    AsI64(j, key)
  }

  function GetStr(m: map<string, Json>, key: string): (r: Result<string, DecodeError>)
    ensures key !in m ==> r == Failure(MissingField(key))
    ensures r.Success? ==> key in m && m[key] == JStr(r.value)
  {
    var j :- Field(m, key);
    AsStr(j, key)
  }

  function GetBool(m: map<string, Json>, key: string): (r: Result<bool, DecodeError>)
    ensures key !in m ==> r == Failure(MissingField(key))
    ensures r.Success? ==> key in m && m[key] == JBool(r.value)
  {
    var j :- Field(m, key);
    AsBool(j, key)
  }

  function GetNested(m: map<string, Json>, key: string): (r: Result<Nested, DecodeError>)
    ensures key !in m ==> r == Failure(MissingField(key))
    ensures r.Success? ==> key in m && m[key] == JObj(r.value)
  {
    var j :- Field(m, key);
    AsNested(j, key)
  }

  /**
    An `Option<_>` field: serde reads an absent member, or `null`, as `None`
    rather than as a missing-field error.
  */
  function GetOptionalNested(m: map<string, Json>, key: string): (r: Result<Option<Nested>, DecodeError>)
    ensures key !in m ==> r == Success(None)
    ensures key in m && m[key] == JNull ==> r == Success(None)
    ensures key in m && m[key].JObj? && IsTagged(m[key].fields) ==> r == Success(Some(m[key].fields))
    ensures key in m && m[key] != JNull && !m[key].JObj? ==> r == Failure(InvalidType(key))
    ensures key in m && m[key].JObj? && TypeKey !in m[key].fields ==> r == Failure(MissingField(TypeKey))
    ensures key in m && m[key].JObj? && TypeKey in m[key].fields && !m[key].fields[TypeKey].JStr? ==>
              r == Failure(InvalidType(TypeKey))
    ensures r.Success? && r.value.Some? ==> key in m && m[key] == JObj(r.value.value)
    ensures r.Success? && r.value.None? ==> key !in m || m[key] == JNull
  {
    if key !in m || m[key] == JNull then Success(None)
    else
      var n :- AsNested(m[key], key);
      Success(Some(n))
  }

  function EncodeOptionalNested(o: Option<Nested>): Json {
    match o
    case None => JNull
    case Some(n) => JObj(n)
  }

  // ---------------------------------------------------------------------
  // Sequences: a `Vec<T>` is a JSON array decoded element by element, in
  // order, stopping at the first element that fails.
  // ---------------------------------------------------------------------

  function DecodeItems<T>(items: seq<Json>, elem: Json -> Result<T, DecodeError>): (r: Result<seq<T>, DecodeError>)
    ensures r.Success? ==> |r.value| == |items|
    ensures r.Success? ==> forall i :: 0 <= i < |items| ==> elem(items[i]) == Success(r.value[i])
    ensures r.Failure? ==> exists i :: 0 <= i < |items| && elem(items[i]).Failure?
  {
    if items == [] then Success([])
    else
      var x :- elem(items[0]);
      var xs :- DecodeItems(items[1..], elem);
      assert forall i :: 1 <= i < |items| ==> items[i] == items[1..][i - 1];
      Success([x] + xs)
  }

  function GetSeq<T>(m: map<string, Json>, key: string, elem: Json -> Result<T, DecodeError>): (r: Result<seq<T>, DecodeError>)
    ensures key !in m ==> r == Failure(MissingField(key))
    ensures key in m && !m[key].JArr? ==> r == Failure(InvalidType(key))
    ensures r.Success? ==> key in m && m[key].JArr? && |m[key].items| == |r.value|
    ensures r.Success? ==> forall i :: 0 <= i < |r.value| ==> elem(m[key].items[i]) == Success(r.value[i])
  {
    var j :- Field(m, key);
    if j.JArr? then DecodeItems(j.items, elem) else Failure(InvalidType(key))
  }

  function EncodeItems<T>(xs: seq<T>, enc: T -> Json): (r: seq<Json>)
    ensures |r| == |xs|
    ensures forall i :: 0 <= i < |xs| ==> r[i] == enc(xs[i])
  {
    seq(|xs|, i requires 0 <= i < |xs| => enc(xs[i]))
  }

  /** Encoding a sequence element by element and decoding it back gives the sequence, in order. */
  lemma ItemsRoundTrip<T>(xs: seq<T>, enc: T -> Json, elem: Json -> Result<T, DecodeError>)
    requires forall x :: elem(enc(x)) == Success(x)
    ensures DecodeItems(EncodeItems(xs, enc), elem) == Success(xs)
  {
    var items := EncodeItems(xs, enc);
    var r := DecodeItems(items, elem);
    assert r.Success?;
    assert forall i :: 0 <= i < |xs| ==> elem(enc(xs[i])) == Success(r.value[i]);
    assert r.value == xs;
  }

  /** Decoding an array and encoding the result back gives the same array. */
  lemma ItemsDecodeEncode<T>(items: seq<Json>, enc: T -> Json, elem: Json -> Result<T, DecodeError>)
    requires forall j :: elem(j).Success? ==> enc(elem(j).value) == j
    requires DecodeItems(items, elem).Success?
    ensures EncodeItems(DecodeItems(items, elem).value, enc) == items
  {
    var xs := DecodeItems(items, elem).value;
    assert forall i :: 0 <= i < |items| ==> elem(items[i]) == Success(xs[i]);
  }

  // Element codecs of the shapes used by the records of this model.

  function EncodeI32(x: I32): Json { JInt(x) }

  function EncodeNested(n: Nested): Json { JObj(n) }
}
