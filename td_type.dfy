/**
  The `AuthorizationState` category (itself a tagged union) and the
  `updateAuthorizationState` record that carries one.
*/
module AuthorizationStates {
  import opened Wrappers
  import opened JsonValue
  import opened TaggedUnion

  /** The members of the category this model lists. */
  datatype Kind = WaitTdlibParameters | WaitEncryptionKey

  /** A member of the category: which one, and its record, known only by its JSON object. */
  datatype AuthorizationState = AuthorizationState(kind: Kind, body: Nested)

  const Table: seq<(string, Kind)> := [
    ("authorizationStateWaitTdlibParameters", WaitTdlibParameters),
    ("authorizationStateWaitEncryptionKey", WaitEncryptionKey)
  ]

  function DecodeKind(k: Kind, j: Json): (r: Result<AuthorizationState, DecodeError>)
    ensures r.Success? ==> r.value.kind == k && j == JObj(r.value.body)
  {
    var body :- AsNested(j, TypeKey);
    Success(AuthorizationState(k, body))
  }

  /** The category's own dispatch: its discriminators are those of its members, not "AuthorizationState". */
  function Decode(j: Json): (r: Result<AuthorizationState, DecodeError>)
    ensures r.Success? ==> j == JObj(r.value.body) &&
                           exists i :: 0 <= i < |Table| && Table[i] == (j.fields[TypeKey].s, r.value.kind)
    ensures j.JObj? && j.fields.Keys == {TypeKey} && j.fields[TypeKey] == JStr(Table[0].0) ==>
              r == Success(AuthorizationState(WaitTdlibParameters, j.fields))
  {
    DecodeUnion(Table, j, DecodeKind)
  }

  /** Only the members' discriminators are accepted; the category's own name is not one of them. */
  lemma CategoryNameRejected(j: Json)
    requires j.JObj? && TypeKey in j.fields && j.fields[TypeKey] == JStr("AuthorizationState")
    ensures Decode(j) == Failure(UnknownTag("AuthorizationState"))
  {
  }

  /** The `updateAuthorizationState` record. */
  datatype UpdateAuthorizationState = UpdateAuthorizationState(td_name: string, authorization_state: AuthorizationState)

  const UpdateTag := "updateAuthorizationState"

  /** Serde's derived `Deserialize`: a string "@type" and an `authorization_state` decoded as the category. */
  function DecodeUpdate(j: Json): (r: Result<UpdateAuthorizationState, DecodeError>)
    ensures !j.JObj? ==> r == Failure(NotAStruct)
    ensures r.Success? ==> j.JObj? && TypeKey in j.fields && j.fields[TypeKey] == JStr(r.value.td_name) &&
                           "authorization_state" in j.fields &&
                           Decode(j.fields["authorization_state"]) == Success(r.value.authorization_state)
  {
    if !j.JObj? then Failure(NotAStruct)
    else
      var td_name :- GetStr(j.fields, TypeKey);
      var field :- Field(j.fields, "authorization_state");
      var state :- Decode(field);
      Success(UpdateAuthorizationState(td_name, state))
  }
}

/**
  `TdType`: every object the engine can send, as one union, decoded by its
  "@type" through the dispatch table.
*/
module TdTypes {
  import opened Wrappers
  import opened JsonValue
  import opened TaggedUnion
  import AS = AuthorizationStates
  import NS = NetworkStatisticsRecord
  import SF = StorageStatisticsFastRecord
  import TV = TestVectorIntRecord

  /** The variants of the union this model lists, in the table's order. */
  datatype Variant =
    | TestUseUpdate
    | UpdateAuthorizationState
    | UpdateNewMessage
    | AuthorizationState
    | Error
    | File
    | NetworkStatistics
    | Ok
    | StorageStatisticsFast
    | TestInt
    | TestVectorInt

  /**
    A decoded object. Records whose fields this model spells out are held
    as such; the others are known only by their JSON object.
  */
  datatype TdType =
    | TestUseUpdate(Nested)
    | UpdateAuthorizationState(AS.UpdateAuthorizationState)
    | UpdateNewMessage(Nested)
    | AuthorizationState(AS.AuthorizationState)
    | Error(Nested)
    | File(Nested)
    | NetworkStatistics(NS.NetworkStatistics)
    | Ok(Nested)
    | StorageStatisticsFast(SF.StorageStatisticsFast)
    | TestInt(Nested)
    | TestVectorInt(TV.TestVectorInt)

  function VariantOf(t: TdType): Variant {
    match t
    case TestUseUpdate(_) => Variant.TestUseUpdate
    case UpdateAuthorizationState(_) => Variant.UpdateAuthorizationState
    case UpdateNewMessage(_) => Variant.UpdateNewMessage
    case AuthorizationState(_) => Variant.AuthorizationState
    case Error(_) => Variant.Error
    case File(_) => Variant.File
    case NetworkStatistics(_) => Variant.NetworkStatistics
    case Ok(_) => Variant.Ok
    case StorageStatisticsFast(_) => Variant.StorageStatisticsFast
    case TestInt(_) => Variant.TestInt
    case TestVectorInt(_) => Variant.TestVectorInt
  }

  /** The dispatch table: discriminator and variant. Note the capitalised category entry. */
  const Table: seq<(string, Variant)> := [
    ("testUseUpdate", Variant.TestUseUpdate),
    ("updateAuthorizationState", Variant.UpdateAuthorizationState),
    ("updateNewMessage", Variant.UpdateNewMessage),
    ("AuthorizationState", Variant.AuthorizationState),
    ("error", Variant.Error),
    ("file", Variant.File),
    ("networkStatistics", Variant.NetworkStatistics),
    ("ok", Variant.Ok),
    ("storageStatisticsFast", Variant.StorageStatisticsFast),
    ("testInt", Variant.TestInt),
    ("testVectorInt", Variant.TestVectorInt)
  ]

  /** The discriminator of each variant, and its row in the table. */
  function TagOf(v: Variant): string {
    Table[RowOf(v)].0
  }

  function RowOf(v: Variant): (i: nat)
    ensures i < |Table| && Table[i].1 == v
  {
    match v
    case TestUseUpdate => 0
    case UpdateAuthorizationState => 1
    case UpdateNewMessage => 2
    case AuthorizationState => 3
    case Error => 4
    case File => 5
    case NetworkStatistics => 6
    case Ok => 7
    case StorageStatisticsFast => 8
    case TestInt => 9
    case TestVectorInt => 10
  }

  /** Every row's discriminator is the one of the variant it selects. */
  lemma RowsAgree()
    ensures forall i :: 0 <= i < |Table| ==> TagOf(Table[i].1) == Table[i].0
  {
  }

  /** No discriminator is listed twice. */
  lemma TableDistinct()
    ensures DistinctTags(Table)
  {
  }

  /** Each variant is reached by exactly its own discriminator: the table is total over the variants and no two variants share a tag. */
  lemma EveryVariantReachable(v: Variant, w: Variant)
    ensures Lookup(Table, TagOf(v)) == Some(v)
    ensures TagOf(v) == TagOf(w) ==> v == w
  {
    TableDistinct();
    LookupFindsRow(Table, RowOf(v));
    LookupFindsRow(Table, RowOf(w));
  }

  /** The record decoder of variant `k`, applied to the whole object. */
  function DecodeVariant(k: Variant, j: Json): (r: Result<TdType, DecodeError>)
    ensures r.Success? ==> VariantOf(r.value) == k
  {
    match k
    case TestUseUpdate => var n :- AsNested(j, TypeKey); Success(TdType.TestUseUpdate(n))
    case UpdateAuthorizationState => var u :- AS.DecodeUpdate(j); Success(TdType.UpdateAuthorizationState(u))
    case UpdateNewMessage => var n :- AsNested(j, TypeKey); Success(TdType.UpdateNewMessage(n))
    case AuthorizationState => var a :- AS.Decode(j); Success(TdType.AuthorizationState(a))
    case Error => var n :- AsNested(j, TypeKey); Success(TdType.Error(n))
    case File => var n :- AsNested(j, TypeKey); Success(TdType.File(n))
    case NetworkStatistics => var r :- NS.Decode(j); Success(TdType.NetworkStatistics(r))
    case Ok => var n :- AsNested(j, TypeKey); Success(TdType.Ok(n))
    case StorageStatisticsFast => var r :- SF.Decode(j); Success(TdType.StorageStatisticsFast(r))
    case TestInt => var n :- AsNested(j, TypeKey); Success(TdType.TestInt(n))
    case TestVectorInt => var r :- TV.Decode(j); Success(TdType.TestVectorInt(r))
  }

  /**
    `TdType`'s `Deserialize`. A decoded value's variant is the one whose
    discriminator is the object's "@type"; a "@type" naming no variant is
    refused.
  */
  function Decode(j: Json): (r: Result<TdType, DecodeError>)
    ensures !j.JObj? ==> r == Failure(NotAnObject)
    ensures j.JObj? && TypeKey !in j.fields ==> r == Failure(MissingTag)
    ensures j.JObj? && TypeKey in j.fields && !j.fields[TypeKey].JStr? ==> r == Failure(TagNotString)
    ensures j.JObj? && IsTagged(j.fields) && (forall v :: TagOf(v) != j.fields[TypeKey].s)
            ==> r == Failure(UnknownTag(j.fields[TypeKey].s))
    ensures r.Success? ==> j.JObj? && j.fields[TypeKey] == JStr(TagOf(VariantOf(r.value)))
  {
    RowsAgree();
    DecodeUnion(Table, j, DecodeVariant)
  }

  /**
    An object tagged with a variant's discriminator decodes to that variant's
    record, built from the whole object, or fails naming the discriminator.
  */
  lemma DecodeByTag(j: Json, v: Variant)
    requires j.JObj? && TypeKey in j.fields && j.fields[TypeKey] == JStr(TagOf(v))
    ensures DecodeVariant(v, j).Success? ==> Decode(j) == DecodeVariant(v, j)
    ensures DecodeVariant(v, j).Failure? ==> Decode(j) == Failure(VariantFailed(TagOf(v), DecodeVariant(v, j).error))
  {
    TableDistinct();
    DecodeSelectsRow(Table, j, DecodeVariant, RowOf(v));
  }

  /** The peek reports exactly the discriminator of the variant a message decodes to. */
  lemma PeekNamesDecodedVariant(j: Json)
    requires Decode(j).Success?
    ensures DetectTdType(Some(j)) == Some(TagOf(VariantOf(Decode(j).value)))
  {
  }

  /** A record built with its own `td_name()` is encoded to an object that the union decodes back to it. */
  lemma NetworkStatisticsDispatch(r: NS.NetworkStatistics)
    requires r.td_name == r.TdName()
    ensures Decode(NS.Encode(r)) == Success(TdType.NetworkStatistics(r))
  {
    NS.RoundTrip(r);
    DecodeByTag(NS.Encode(r), Variant.NetworkStatistics);
  }

  lemma StorageStatisticsFastDispatch(r: SF.StorageStatisticsFast)
    requires r.td_name == r.TdName()
    ensures Decode(SF.Encode(r)) == Success(TdType.StorageStatisticsFast(r))
  {
    SF.RoundTrip(r);
    DecodeByTag(SF.Encode(r), Variant.StorageStatisticsFast);
  }

  lemma TestVectorIntDispatch(r: TV.TestVectorInt)
    requires r.td_name == r.TdName()
    ensures Decode(TV.Encode(r)) == Success(TdType.TestVectorInt(r))
  {
    TV.RoundTrip(r);
    DecodeByTag(TV.Encode(r), Variant.TestVectorInt);
  }

  /**
    A record decoded on its own keeps whatever "@type" it was sent with: a
    `networkStatistics` record carrying "testVectorInt" decodes, while the
    union sends the same object to the `testVectorInt` variant, which refuses it.
  */
  lemma ForeignTagKept()
    ensures var j := JObj(map[TypeKey := JStr("testVectorInt"), "since_date" := JInt(0), "entries" := JArr([])]);
            NS.Decode(j) == Success(NS.NetworkStatistics("testVectorInt", 0, [])) &&
            Decode(j) == Failure(VariantFailed("testVectorInt", MissingField("value")))
  {
    var j := JObj(map[TypeKey := JStr("testVectorInt"), "since_date" := JInt(0), "entries" := JArr([])]);
    var ns := NS.NetworkStatistics("testVectorInt", 0, []);
    assert EncodeItems(ns.entries, EncodeNested) == [];
    assert NS.Encode(ns) == j;
    NS.RoundTrip(ns);
    DecodeByTag(j, Variant.TestVectorInt);
  }

  /**
    The capitalised category entry can never produce a value: the category's
    own decoder does not list "AuthorizationState" among its discriminators.
  */
  lemma CategoryEntryNeverDecodes(j: Json)
    requires j.JObj? && TypeKey in j.fields && j.fields[TypeKey] == JStr("AuthorizationState")
    ensures Decode(j) == Failure(VariantFailed("AuthorizationState", UnknownTag("AuthorizationState")))
  {
    AS.CategoryNameRejected(j);
    DecodeByTag(j, Variant.AuthorizationState);
  }

  /**
    The repository's own example: an `updateAuthorizationState` object whose
    state is `authorizationStateWaitTdlibParameters` decodes as the record,
    and as the `UpdateAuthorizationState` variant of the union.
  */
  lemma UpdateAuthorizationStateExample()
    ensures var state := map[TypeKey := JStr("authorizationStateWaitTdlibParameters")];
            var j := JObj(map[TypeKey := JStr("updateAuthorizationState"), "authorization_state" := JObj(state)]);
            var expected := AS.UpdateAuthorizationState("updateAuthorizationState",
                                                         AS.AuthorizationState(AS.WaitTdlibParameters, state));
            AS.DecodeUpdate(j) == Success(expected) &&
            Decode(j) == Success(TdType.UpdateAuthorizationState(expected))
  {
    var state := map[TypeKey := JStr("authorizationStateWaitTdlibParameters")];
    var j := JObj(map[TypeKey := JStr("updateAuthorizationState"), "authorization_state" := JObj(state)]);
    assert AS.Decode(JObj(state)) == Success(AS.AuthorizationState(AS.WaitTdlibParameters, state));
    DecodeByTag(j, Variant.UpdateAuthorizationState);
  }
}
