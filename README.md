# rtdlib: tagged-union JSON codec, records and builders

rtdlib is a Rust binding for TDLib, the Telegram client engine. The engine
exchanges JSON objects. Each object names its own type in a string member
"@type", and requests may carry a correlation id in "@extra". This model
covers the layer between those JSON objects and typed Rust records:

- the tagged-union decoder that the `rtd_enum_deserialize!` macro expands
  to, with the `TdType` union and its dispatch table (`TaggedUnion`,
  `TdTypes`, and the `AuthorizationState` category in `AuthorizationStates`);
- the peek helpers `detect_td_type` and `detect_td_type_and_extra`, which
  read only "@type" and "@extra" (`TaggedUnion`);
- nine records with their JSON encoding and decoding, getters, `td_name()`
  and builders (`StickerSetInfoRecord` and the other `...Record` modules);
- `deserde_from_str`, which decodes a number sent as a string and reads the
  empty string as the default (`Codec`).

JSON is the datatype `JsonValue.Json`. Parsing and printing JSON text are
outside the model. The peek helpers take the outcome of parsing: `None`
stands for text that is not JSON. Serde's derived `Deserialize` for a record
is written out as `Decode`. It has one error per way a member can be wrong:
missing, of the wrong JSON kind, or out of the integer range. An `Option`
member may be absent or `null`. Members the record does not declare are
ignored. Getters are the datatype's field destructors. Each builder is a
class whose `inner` field holds the record under construction. Its setters
are methods that modify `inner`.

The model follows the code in these places:

- A discriminator missing from the table is reported by serde as a
  missing-field error, not as a distinct "unknown discriminator" error.
  `TaggedUnion.SerdeKind` records which serde error each failure is raised
  as. A union that is handed a non-object raises an unknown-field error,
  while a record raises serde's invalid-type error (`NotAStruct`).
- A record decoded on its own keeps whatever "@type" string it was sent with.
  It does not compare that string with `td_name()` (`TdTypes.ForeignTagKept`).
- Not every listed discriminator can decode. The capitalised category entry
  "AuthorizationState" selects the category's own decoder. That decoder
  lists only its members' discriminators, so it refuses the object
  (`TdTypes.CategoryEntryNeverDecodes`).

## Model

| member | source | states |
|---|---|---|
| JsonValue.GetOptionalNested | src/types/video_note.rs:18-19 | an `Option` member that is absent or `null` reads as `None`; a present tagged object is `Some` of that object; any other present non-object is an invalid-type error; an object without a string "@type" fails as the nested record does (missing or invalid "@type") |
| JsonValue.DecodeItems | src/types/test_vector_int.rs:15 | a `Vec` decodes element by element, in order, to a list of the same length; it fails only when some element fails |
| JsonValue.ItemsRoundTrip | src/types/test_vector_int.rs:15 | a list encoded element by element decodes back to the same list, when each element does |
| JsonValue.ItemsDecodeEncode | src/types/test_vector_int.rs:15 | a decoded array re-encodes to the same array, when each element does |
| TaggedUnion.Lookup | src/types/_common.rs:29-37 | the variant found is one listed with that discriminator; nothing is found exactly when no row has it |
| TaggedUnion.LookupFindsRow | src/types/_common.rs:29-37 | with pairwise distinct discriminators, each row's discriminator selects exactly that row's variant |
| TaggedUnion.DecodeUnion | src/types/_common.rs:12-40 | a non-object, a missing "@type", a non-string "@type" and an unlisted discriminator each give their own failure; a success means "@type" is a listed discriminator and the result is that row's record decoded from the whole object |
| TaggedUnion.DecodeSelectsRow | src/types/_common.rs:29-34 | an object tagged with a row's discriminator decodes to exactly that row's record, or fails naming the discriminator with no partial record |
| TaggedUnion.SerdeKind | src/types/_common.rs:15-37 | union failures: unknown-field exactly for a non-object, a non-string "@type" or a record that failed, missing-field for a missing "@type" or an unlisted discriminator; record failures: a non-object or a wrong member type is invalid-type, a missing member missing-field, an out-of-range number invalid-value |
| TaggedUnion.TagErrorKinds | src/types/_common.rs:15-37 | each union failure's serde kind: a non-object, a non-string "@type" and a record that does not decode are unknown-field errors; a missing "@type" and an unlisted one are missing-field errors |
| TaggedUnion.DetectTdType | src/types/_common.rs:69-78 | `Some(t)` exactly when the text parsed to an object whose "@type" is the string `t`; otherwise `None` |
| TaggedUnion.DetectTdTypeAndExtra | src/types/_common.rs:80-91 | "@type" as `detect_td_type` gives it; "@extra" independently `Some` exactly when present and a string, so absent gives `None`, not ""; unparseable text gives `(None, None)` |
| TaggedUnion.PeekAgreesWithDecode | src/types/_common.rs:69-78 | when a union decode succeeds the peek reports a listed discriminator; when the peek reports nothing the decode fails at the object or "@type" step |
| AuthorizationStates.DecodeKind | src/types/_common.rs:29-34 | a member record decoded for a kind has that kind, and its body is the whole object |
| AuthorizationStates.Decode | src/types/_common.rs:8-40 | a decoded state's kind is the one its "@type" selects, and its record is the object; `{"@type":"authorizationStateWaitTdlibParameters"}` decodes |
| AuthorizationStates.CategoryNameRejected | src/types/_common.rs:36 | the category's own name is not one of its discriminators |
| AuthorizationStates.DecodeUpdate | src/types/_common.rs:602 | a non-object is refused as a non-struct (invalid-type) error; a decoded `updateAuthorizationState` holds the "@type" string and the category value decoded from `authorization_state` |
| TdTypes.RowOf | src/types/_common.rs:442-587 | every variant has a row in the table, and that row selects it |
| TdTypes.RowsAgree | src/types/_common.rs:442-587 | each row's discriminator is the one of the variant it selects, so the table and the enum agree |
| TdTypes.TableDistinct | src/types/_common.rs:442-587 | no discriminator is listed twice |
| TdTypes.EveryVariantReachable | src/types/_common.rs:442-587 | every variant is selected by its own discriminator, and no two variants share one |
| TdTypes.DecodeVariant | src/types/_common.rs:287-434 | a record decoded for a variant is a value of that variant |
| TdTypes.Decode | src/types/_common.rs:437-592 | the error cases of the tagged-union decoder; a decoded value's variant is the one whose discriminator is the object's "@type" |
| TdTypes.DecodeByTag | src/types/_common.rs:29-34 | an object tagged with a variant's discriminator decodes to that variant's record built from the whole object, or fails naming the discriminator |
| TdTypes.PeekNamesDecodedVariant | src/types/_common.rs:69-78 | the peek reports exactly the discriminator of the variant the message decodes to |
| TdTypes.NetworkStatisticsDispatch | src/types/_common.rs:543 | a `networkStatistics` record carrying its own `td_name()` is encoded to an object the union decodes back to that record |
| TdTypes.StorageStatisticsFastDispatch | src/types/_common.rs:565 | likewise for `storageStatisticsFast` |
| TdTypes.TestVectorIntDispatch | src/types/_common.rs:573 | likewise for `testVectorInt` |
| TdTypes.ForeignTagKept | src/types/network_statistics.rs:11-13 | a `networkStatistics` record decodes from an object tagged "testVectorInt" and keeps that tag, while the union refuses the same object |
| TdTypes.CategoryEntryNeverDecodes | src/types/_common.rs:505 | an object tagged "AuthorizationState" always fails, naming that discriminator |
| TdTypes.UpdateAuthorizationStateExample | src/types/_common.rs:600-616 | the repository's example object decodes as the `updateAuthorizationState` record and, under `TdType`, as the `UpdateAuthorizationState` variant |
| Codec.DeserdeFromStr | src/codec.rs:28-37 | "" gives the default; any other string gives what `parse` gives, and a string `parse` refuses is an error, never the default; a value that is not a string is refused with the "valid json object" expectation |
| Codec.Digits | src/codec.rs:35 | the decimal text of a natural number is non-empty, all digits, with no leading zero |
| Codec.Decimal | src/codec.rs:35 | the text of a 32-bit number starts with '-' exactly when the number is negative |
| Codec.ParseDecimal | src/codec.rs:35 | `i32::from_str` of the decimal text of any 32-bit number gives that number |
| Codec.ParseSignedDigits | src/codec.rs:35 | an optional sign followed by digits (leading zeros allowed) parses to the signed value of the digits exactly when it fits in 32 bits, and is refused otherwise |
| Codec.NegativeLeadingZeros | src/codec.rs:35 | "-0" parses to 0 and "-05" to -5 |
| Codec.ParseI32 | src/codec.rs:35 | `i32::from_str`: the empty string is refused; an accepted text starts with a digit or a sign, has only digits after it and ends in a digit, and a negative result comes from a leading '-' |
| Codec.DeserdeI32 | src/codec.rs:32-36 | `deserde_from_str` for `i32`: "" gives 0; it succeeds exactly on "" and on strings `from_str` accepts, with that value |
| Codec.EmptyIsZero | src/codec.rs:32-34 | "" decodes to 0 |
| Codec.DecimalTextDecodes | src/codec.rs:35-36 | the decimal text of any 32-bit number decodes to that number |
| Codec.NonDigitRejected | src/codec.rs:35 | a non-digit anywhere, other than a sign in first position, is a parse error |
| Codec.OverflowRejected | src/codec.rs:35 | a value beyond the 32-bit range, positive or negative, is refused rather than wrapped |
| Codec.LoneSignRejected | src/codec.rs:35 | a sign alone is refused |
| Codec.PlusAndLeadingZeroAccepted | src/codec.rs:35 | a leading '+' or a leading zero is accepted and leaves the value unchanged |
| Codec.NumberRejected | src/codec.rs:40 | a JSON number, even one in range, is refused |
| StickerSetInfoRecord.Encode | src/types/sticker_set_info.rs:9-35 | the object has exactly the record's keys; `td_name` is under "@type" and every other field's value under its own name (`covers` as an array of its stickers' objects, in order) |
| StickerSetInfoRecord.Decode | src/types/sticker_set_info.rs:9-35 | a non-object is refused as a non-struct (invalid-type) error; a decoded record came from an object holding every required key, each field read from the member of its own name and "@type" as `td_name` |
| StickerSetInfoRecord.RoundTrip | src/types/sticker_set_info.rs:9-35 | decoding the encoding of any record gives back that record, field for field, lists in order |
| StickerSetInfoRecord.DecodeThenEncode | src/types/sticker_set_info.rs:9-35 | re-encoding a decoded object gives exactly its declared members; any other member is dropped |
| StickerSetInfoRecord.DependsOnlyOnDeclared | src/types/sticker_set_info.rs:9-35 | for every object, the decode outcome, success or error, is the same once the members the record does not declare are removed |
| StickerSetInfoRecord.IgnoresUndeclared | src/types/sticker_set_info.rs:9-35 | an encoded record with any undeclared members added, "@extra" among them, still decodes to that record |
| StickerSetInfoRecord.Default | src/types/sticker_set_info.rs:9 | `#[derive(Default)]`: every field at its zero value and `td_name` empty, so it is not the discriminator `td_name()` reports |
| StickerSetInfoRecord.StickerSetInfoBuilder.constructor | src/types/sticker_set_info.rs:46-50 | `builder()`: `td_name` is `"stickerSetInfo"`, `id` and `size` are 0, `title` and `name` are empty, all five flags are false and `covers` is empty |
| StickerSetInfoRecord.StickerSetInfoBuilder.Build | src/types/sticker_set_info.rs:80 | `build()` returns the accumulated record and only reads the builder |
| StickerSetInfoRecord.StickerSetInfoBuilder.Id | src/types/sticker_set_info.rs:83-86 | sets `id` to the argument and leaves every other field unchanged |
| StickerSetInfoRecord.StickerSetInfoBuilder.Title | src/types/sticker_set_info.rs:89-92 | sets `title` to the argument and leaves every other field unchanged |
| StickerSetInfoRecord.StickerSetInfoBuilder.Name | src/types/sticker_set_info.rs:95-98 | sets `name` to the argument and leaves every other field unchanged |
| StickerSetInfoRecord.StickerSetInfoBuilder.IsInstalled | src/types/sticker_set_info.rs:101-104 | sets `is_installed` to the argument and leaves every other field unchanged |
| StickerSetInfoRecord.StickerSetInfoBuilder.IsArchived | src/types/sticker_set_info.rs:107-110 | sets `is_archived` to the argument and leaves every other field unchanged |
| StickerSetInfoRecord.StickerSetInfoBuilder.IsOfficial | src/types/sticker_set_info.rs:113-116 | sets `is_official` to the argument and leaves every other field unchanged |
| StickerSetInfoRecord.StickerSetInfoBuilder.IsMasks | src/types/sticker_set_info.rs:119-122 | sets `is_masks` to the argument and leaves every other field unchanged |
| StickerSetInfoRecord.StickerSetInfoBuilder.IsViewed | src/types/sticker_set_info.rs:125-128 | sets `is_viewed` to the argument and leaves every other field unchanged |
| StickerSetInfoRecord.StickerSetInfoBuilder.Size | src/types/sticker_set_info.rs:131-134 | sets `size` to the argument and leaves every other field unchanged |
| StickerSetInfoRecord.StickerSetInfoBuilder.Covers | src/types/sticker_set_info.rs:137-140 | replaces `covers` wholesale by the argument and leaves every other field unchanged |
| StickerSetInfoRecord.BuildDefault | src/types/sticker_set_info.rs:46-50 | `builder().build()` gives the record whose `td_name` equals `td_name()` and every other field at its zero value |
| StickerSetInfoRecord.LastSizeWins | src/types/sticker_set_info.rs:131-134 | setting `size` twice keeps the last value, which the `size` getter then returns; nothing else changes |
| StickerSetInfoRecord.SettersCommute | src/types/sticker_set_info.rs:83-92 | the `id` and `title` setters give equal records in either order; the result holds those two values and every other field keeps its `builder()` value |
| StorageStatisticsFastRecord.Encode | src/types/storage_statistics_fast.rs:9-25 | the object has exactly the record's keys; `td_name` is under "@type" and each counter under its own name |
| StorageStatisticsFastRecord.Decode | src/types/storage_statistics_fast.rs:9-25 | a non-object is refused as a non-struct (invalid-type) error; a decoded record came from an object holding every required key, each counter read from the member of its own name and "@type" as `td_name` |
| StorageStatisticsFastRecord.RoundTrip | src/types/storage_statistics_fast.rs:9-25 | decoding the encoding of any record gives back that record, field for field, lists in order |
| StorageStatisticsFastRecord.DecodeThenEncode | src/types/storage_statistics_fast.rs:9-25 | re-encoding a decoded object gives exactly its declared members; any other member is dropped |
| StorageStatisticsFastRecord.DependsOnlyOnDeclared | src/types/storage_statistics_fast.rs:9-25 | for every object, the decode outcome, success or error, is the same once the members the record does not declare are removed |
| StorageStatisticsFastRecord.IgnoresUndeclared | src/types/storage_statistics_fast.rs:9-25 | an encoded record with any undeclared members added, "@extra" among them, still decodes to that record |
| StorageStatisticsFastRecord.Default | src/types/storage_statistics_fast.rs:9 | `#[derive(Default)]`: every field at its zero value and `td_name` empty, so it is not the discriminator `td_name()` reports |
| StorageStatisticsFastRecord.StorageStatisticsFastBuilder.constructor | src/types/storage_statistics_fast.rs:36-40 | `builder()`: `td_name` is `"storageStatisticsFast"` and all five counters are 0 |
| StorageStatisticsFastRecord.StorageStatisticsFastBuilder.Build | src/types/storage_statistics_fast.rs:60 | `build()` returns the accumulated record and only reads the builder |
| StorageStatisticsFastRecord.StorageStatisticsFastBuilder.FilesSize | src/types/storage_statistics_fast.rs:63-66 | sets `files_size` to the argument and leaves every other field unchanged |
| StorageStatisticsFastRecord.StorageStatisticsFastBuilder.FileCount | src/types/storage_statistics_fast.rs:69-72 | sets `file_count` to the argument and leaves every other field unchanged |
| StorageStatisticsFastRecord.StorageStatisticsFastBuilder.DatabaseSize | src/types/storage_statistics_fast.rs:75-78 | sets `database_size` to the argument and leaves every other field unchanged |
| StorageStatisticsFastRecord.StorageStatisticsFastBuilder.LanguagePackDatabaseSize | src/types/storage_statistics_fast.rs:81-84 | sets `language_pack_database_size` to the argument and leaves every other field unchanged |
| StorageStatisticsFastRecord.StorageStatisticsFastBuilder.LogSize | src/types/storage_statistics_fast.rs:87-90 | sets `log_size` to the argument and leaves every other field unchanged |
| StorageStatisticsByChatRecord.Encode | src/types/storage_statistics_by_chat.rs:9-23 | the object has exactly the record's keys; `td_name` is under "@type", each number under its own name and `by_file_type` as an array of its entries' objects, in order |
| StorageStatisticsByChatRecord.Decode | src/types/storage_statistics_by_chat.rs:9-23 | a non-object is refused as a non-struct (invalid-type) error; a decoded record came from an object holding every required key, each field read from the member of its own name and "@type" as `td_name` |
| StorageStatisticsByChatRecord.RoundTrip | src/types/storage_statistics_by_chat.rs:9-23 | decoding the encoding of any record gives back that record, field for field, lists in order |
| StorageStatisticsByChatRecord.DecodeThenEncode | src/types/storage_statistics_by_chat.rs:9-23 | re-encoding a decoded object gives exactly its declared members; any other member is dropped |
| StorageStatisticsByChatRecord.DependsOnlyOnDeclared | src/types/storage_statistics_by_chat.rs:9-23 | for every object, the decode outcome, success or error, is the same once the members the record does not declare are removed |
| StorageStatisticsByChatRecord.IgnoresUndeclared | src/types/storage_statistics_by_chat.rs:9-23 | an encoded record with any undeclared members added, "@extra" among them, still decodes to that record |
| StorageStatisticsByChatRecord.Default | src/types/storage_statistics_by_chat.rs:9 | `#[derive(Default)]`: every field at its zero value and `td_name` empty, so it is not the discriminator `td_name()` reports |
| StorageStatisticsByChatRecord.StorageStatisticsByChatBuilder.constructor | src/types/storage_statistics_by_chat.rs:34-38 | `builder()`: `td_name` is `"storageStatisticsByChat"`, `chat_id`, `size` and `count` are 0 and `by_file_type` is empty |
| StorageStatisticsByChatRecord.StorageStatisticsByChatBuilder.Build | src/types/storage_statistics_by_chat.rs:56 | `build()` returns the accumulated record and only reads the builder |
| StorageStatisticsByChatRecord.StorageStatisticsByChatBuilder.ChatId | src/types/storage_statistics_by_chat.rs:59-62 | sets `chat_id` to the argument and leaves every other field unchanged |
| StorageStatisticsByChatRecord.StorageStatisticsByChatBuilder.Size | src/types/storage_statistics_by_chat.rs:65-68 | sets `size` to the argument and leaves every other field unchanged |
| StorageStatisticsByChatRecord.StorageStatisticsByChatBuilder.Count | src/types/storage_statistics_by_chat.rs:71-74 | sets `count` to the argument and leaves every other field unchanged |
| StorageStatisticsByChatRecord.StorageStatisticsByChatBuilder.ByFileType | src/types/storage_statistics_by_chat.rs:77-80 | replaces `by_file_type` wholesale by the argument and leaves every other field unchanged |
| StorageStatisticsByChatRecord.ReplaceByFileType | src/types/storage_statistics_by_chat.rs:77-80 | a second `by_file_type` call replaces the list rather than appending to it: the result holds exactly the second list, and every other field keeps its `builder()` value |
| VideoNoteRecord.Encode | src/types/video_note.rs:9-23 | the object has exactly the record's keys; `td_name` is under "@type", `duration`, `length` and `video` under their own names, and the thumbnail is `null` when absent and its object when present |
| VideoNoteRecord.Decode | src/types/video_note.rs:9-23 | a non-object is refused as a non-struct (invalid-type) error; a decoded record came from an object holding every required key, each field read from the member of its own name and "@type" as `td_name`; the thumbnail is `None` exactly when the member is absent or `null`, and otherwise the object it holds |
| VideoNoteRecord.RoundTrip | src/types/video_note.rs:9-23 | decoding the encoding of any record gives back that record, field for field, lists in order |
| VideoNoteRecord.DecodeThenEncode | src/types/video_note.rs:9-23 | re-encoding a decoded object gives its declared members, `null` for an absent thumbnail |
| VideoNoteRecord.DependsOnlyOnDeclared | src/types/video_note.rs:9-23 | for every object, the decode outcome, success or error, is the same once the members the record does not declare are removed |
| VideoNoteRecord.IgnoresUndeclared | src/types/video_note.rs:9-23 | an encoded record with any undeclared members added, "@extra" among them, still decodes to that record |
| VideoNoteRecord.Default | src/types/video_note.rs:9 | `#[derive(Default)]`: every field at its zero value and `td_name` empty, so it is not the discriminator `td_name()` reports |
| VideoNoteRecord.VideoNoteBuilder.constructor | src/types/video_note.rs:34-38 | `builder()`: `td_name` is `"videoNote"`, `duration` and `length` are 0, there is no thumbnail and `video` is the default file |
| VideoNoteRecord.VideoNoteBuilder.Build | src/types/video_note.rs:56 | `build()` returns the accumulated record and only reads the builder |
| VideoNoteRecord.VideoNoteBuilder.Duration | src/types/video_note.rs:59-62 | sets `duration` to the argument and leaves every other field unchanged |
| VideoNoteRecord.VideoNoteBuilder.Length | src/types/video_note.rs:65-68 | sets `length` to the argument and leaves every other field unchanged |
| VideoNoteRecord.VideoNoteBuilder.Thumbnail | src/types/video_note.rs:71-74 | stores `Some` of the argument, never `None`, and leaves every other field unchanged |
| VideoNoteRecord.VideoNoteBuilder.Video | src/types/video_note.rs:77-80 | sets `video` to the argument and leaves every other field unchanged |
| VideoNoteRecord.ThumbnailStaysSet | src/types/video_note.rs:71-74 | once set, the thumbnail stays `Some` of the given value through the other setters, which each set their own field |
| NotificationRecord.Encode | src/types/notification.rs:9-21 | the object has exactly the record's keys; `td_name` is under "@type", `id` and `date` under their own names and `type_` under "type" |
| NotificationRecord.Decode | src/types/notification.rs:9-21 | a non-object is refused as a non-struct (invalid-type) error; a decoded record came from an object holding every required key; `id` and `date` are read from their own members, `type_` is the object under "type" and "@type" is `td_name` |
| NotificationRecord.RoundTrip | src/types/notification.rs:9-21 | decoding the encoding of any record gives back that record, field for field, lists in order |
| NotificationRecord.DecodeThenEncode | src/types/notification.rs:9-21 | re-encoding a decoded object gives exactly its declared members; any other member is dropped |
| NotificationRecord.DependsOnlyOnDeclared | src/types/notification.rs:9-21 | for every object, the decode outcome, success or error, is the same once the members the record does not declare are removed |
| NotificationRecord.IgnoresUndeclared | src/types/notification.rs:9-21 | an encoded record with any undeclared members added, "@extra" among them, still decodes to that record |
| NotificationRecord.Default | src/types/notification.rs:9 | `#[derive(Default)]`: every field at its zero value and `td_name` empty, so it is not the discriminator `td_name()` reports |
| NotificationRecord.NotificationBuilder.constructor | src/types/notification.rs:32-36 | `builder()`: `td_name` is `"notification"`, `id` and `date` are 0 and `type_` is the default notification type |
| NotificationRecord.NotificationBuilder.Build | src/types/notification.rs:52 | `build()` returns the accumulated record and only reads the builder |
| NotificationRecord.NotificationBuilder.Id | src/types/notification.rs:55-58 | sets `id` to the argument and leaves every other field unchanged |
| NotificationRecord.NotificationBuilder.Date | src/types/notification.rs:61-64 | sets `date` to the argument and leaves every other field unchanged |
| NotificationRecord.NotificationBuilder.Type | src/types/notification.rs:67-70 | sets `type_` to the argument and leaves every other field unchanged |
| NotificationRecord.MissingTypeFieldRejected | src/types/notification.rs:19 | an object with "@type" but no "type" member does not decode: the two keys are distinct |
| NetworkStatisticsRecord.Encode | src/types/network_statistics.rs:9-19 | the object has exactly the record's keys; `td_name` is under "@type", `since_date` under its own name and `entries` as an array of its entries' objects, in order |
| NetworkStatisticsRecord.Decode | src/types/network_statistics.rs:9-19 | a non-object is refused as a non-struct (invalid-type) error; a decoded record came from an object holding every required key, each field read from the member of its own name and "@type" as `td_name` |
| NetworkStatisticsRecord.RoundTrip | src/types/network_statistics.rs:9-19 | decoding the encoding of any record gives back that record, field for field, lists in order |
| NetworkStatisticsRecord.DecodeThenEncode | src/types/network_statistics.rs:9-19 | re-encoding a decoded object gives exactly its declared members; any other member is dropped |
| NetworkStatisticsRecord.DependsOnlyOnDeclared | src/types/network_statistics.rs:9-19 | for every object, the decode outcome, success or error, is the same once the members the record does not declare are removed |
| NetworkStatisticsRecord.IgnoresUndeclared | src/types/network_statistics.rs:9-19 | an encoded record with any undeclared members added, "@extra" among them, still decodes to that record |
| NetworkStatisticsRecord.Default | src/types/network_statistics.rs:9 | `#[derive(Default)]`: every field at its zero value and `td_name` empty, so it is not the discriminator `td_name()` reports |
| NetworkStatisticsRecord.NetworkStatisticsBuilder.constructor | src/types/network_statistics.rs:30-34 | `builder()`: `td_name` is `"networkStatistics"`, `since_date` is 0 and there are no entries |
| NetworkStatisticsRecord.NetworkStatisticsBuilder.Build | src/types/network_statistics.rs:48 | `build()` returns the accumulated record and only reads the builder |
| NetworkStatisticsRecord.NetworkStatisticsBuilder.SinceDate | src/types/network_statistics.rs:51-54 | sets `since_date` to the argument and leaves every other field unchanged |
| NetworkStatisticsRecord.NetworkStatisticsBuilder.Entries | src/types/network_statistics.rs:57-60 | replaces `entries` wholesale by the argument and leaves every other field unchanged |
| LabeledPricePartRecord.Encode | src/types/labeled_price_part.rs:9-19 | the object has exactly the record's keys; `td_name` is under "@type", `label_` under "label" and `amount` under its own name |
| LabeledPricePartRecord.Decode | src/types/labeled_price_part.rs:9-19 | a non-object is refused as a non-struct (invalid-type) error; a decoded record came from an object holding every required key; `label_` is read from "label", `amount` from "amount" and "@type" is `td_name` |
| LabeledPricePartRecord.RoundTrip | src/types/labeled_price_part.rs:9-19 | decoding the encoding of any record gives back that record, field for field, lists in order |
| LabeledPricePartRecord.DecodeThenEncode | src/types/labeled_price_part.rs:9-19 | re-encoding a decoded object gives exactly its declared members; any other member is dropped |
| LabeledPricePartRecord.DependsOnlyOnDeclared | src/types/labeled_price_part.rs:9-19 | for every object, the decode outcome, success or error, is the same once the members the record does not declare are removed |
| LabeledPricePartRecord.IgnoresUndeclared | src/types/labeled_price_part.rs:9-19 | an encoded record with any undeclared members added, "@extra" among them, still decodes to that record |
| LabeledPricePartRecord.Default | src/types/labeled_price_part.rs:9 | `#[derive(Default)]`: every field at its zero value and `td_name` empty, so it is not the discriminator `td_name()` reports |
| LabeledPricePartRecord.LabeledPricePartBuilder.constructor | src/types/labeled_price_part.rs:30-34 | `builder()`: `td_name` is `"labeledPricePart"`, the label is empty and `amount` is 0 |
| LabeledPricePartRecord.LabeledPricePartBuilder.Build | src/types/labeled_price_part.rs:48 | `build()` returns the accumulated record and only reads the builder |
| LabeledPricePartRecord.LabeledPricePartBuilder.Label | src/types/labeled_price_part.rs:51-54 | sets `label_` to the argument and leaves every other field unchanged |
| LabeledPricePartRecord.LabeledPricePartBuilder.Amount | src/types/labeled_price_part.rs:57-60 | sets `amount` to the argument and leaves every other field unchanged |
| LabeledPricePartRecord.AmountOutOfRangeRejected | src/types/labeled_price_part.rs:17 | an `amount` outside the 32-bit range is refused, not truncated |
| PushReceiverIdRecord.Encode | src/types/push_receiver_id.rs:9-17 | the object has exactly the record's keys; `td_name` is under "@type" and `id` under "id" |
| PushReceiverIdRecord.Decode | src/types/push_receiver_id.rs:9-17 | a non-object is refused as a non-struct (invalid-type) error; a decoded record came from an object holding every required key; `id` is the number under "id" and "@type" is `td_name` |
| PushReceiverIdRecord.RoundTrip | src/types/push_receiver_id.rs:9-17 | decoding the encoding of any record gives back that record, field for field, lists in order |
| PushReceiverIdRecord.DecodeThenEncode | src/types/push_receiver_id.rs:9-17 | re-encoding a decoded object gives exactly its declared members; any other member is dropped |
| PushReceiverIdRecord.DependsOnlyOnDeclared | src/types/push_receiver_id.rs:9-17 | for every object, the decode outcome, success or error, is the same once the members the record does not declare are removed |
| PushReceiverIdRecord.IgnoresUndeclared | src/types/push_receiver_id.rs:9-17 | an encoded record with any undeclared members added, "@extra" among them, still decodes to that record |
| PushReceiverIdRecord.Default | src/types/push_receiver_id.rs:9 | `#[derive(Default)]`: every field at its zero value and `td_name` empty, so it is not the discriminator `td_name()` reports |
| PushReceiverIdRecord.PushReceiverIdBuilder.constructor | src/types/push_receiver_id.rs:28-32 | `builder()`: `td_name` is `"pushReceiverId"` and `id` is 0 |
| PushReceiverIdRecord.PushReceiverIdBuilder.Build | src/types/push_receiver_id.rs:44 | `build()` returns the accumulated record and only reads the builder |
| PushReceiverIdRecord.PushReceiverIdBuilder.Id | src/types/push_receiver_id.rs:47-50 | sets `id` to the argument and leaves every other field unchanged |
| PushReceiverIdRecord.BuiltId | src/types/push_receiver_id.rs:47-50 | after `.id(x)`, `build().id()` is `x` for every 64-bit `x`, and a second `build()` gives the same record |
| TestVectorIntRecord.Encode | src/types/test_vector_int.rs:9-17 | the object has exactly the record's keys; `td_name` is under "@type" and `value` under "value" as an array of its numbers, in order |
| TestVectorIntRecord.Decode | src/types/test_vector_int.rs:9-17 | a non-object is refused as a non-struct (invalid-type) error; a decoded record came from an object holding every required key; `value` is the array under "value", element by element, and "@type" is `td_name` |
| TestVectorIntRecord.RoundTrip | src/types/test_vector_int.rs:9-17 | decoding the encoding of any record gives back that record, field for field, lists in order |
| TestVectorIntRecord.DecodeThenEncode | src/types/test_vector_int.rs:9-17 | re-encoding a decoded object gives exactly its declared members; any other member is dropped |
| TestVectorIntRecord.DependsOnlyOnDeclared | src/types/test_vector_int.rs:9-17 | for every object, the decode outcome, success or error, is the same once the members the record does not declare are removed |
| TestVectorIntRecord.IgnoresUndeclared | src/types/test_vector_int.rs:9-17 | an encoded record with any undeclared members added, "@extra" among them, still decodes to that record |
| TestVectorIntRecord.Default | src/types/test_vector_int.rs:9 | `#[derive(Default)]`: every field at its zero value and `td_name` empty, so it is not the discriminator `td_name()` reports |
| TestVectorIntRecord.TestVectorIntBuilder.constructor | src/types/test_vector_int.rs:28-32 | `builder()`: `td_name` is `"testVectorInt"` and `value` is empty |
| TestVectorIntRecord.TestVectorIntBuilder.Build | src/types/test_vector_int.rs:44 | `build()` returns the accumulated record and only reads the builder |
| TestVectorIntRecord.TestVectorIntBuilder.Value | src/types/test_vector_int.rs:47-50 | replaces `value` wholesale by the argument and leaves every other field unchanged |
| TestVectorIntRecord.DecodeOneTwoThree | src/types/test_vector_int.rs:9-17 | the object holding `[1,2,3]` decodes to the vector `[1,2,3]`, in order |
| TestVectorIntRecord.ElementOutOfRangeRejected | src/types/test_vector_int.rs:15 | one element outside the 32-bit range makes the whole record fail |

## Left out

- Parsing and printing JSON text (`serde_json::from_str`, `to_string`, every `from_json` and `to_json`) belong to serde_json. The model starts and ends at the JSON value. A parse failure is the `None` input of the peek helpers.
- JSON floating-point numbers are not part of the JSON datatype. No modelled member holds one.
- Serde's positional form of a struct, a JSON array of its fields, is not modelled. Records decode from objects only.
- The exact texts of the error messages are not modelled; only the kind of each failure is. `UnknownTag` carries the discriminator, while the source raises a missing-field error whose text does not name it. The source discards the inner record's error when a variant fails to decode. The model keeps it as the `cause` of `VariantFailed`, which is more than the source reports.
- When several members of a record are wrong, the model reports the first one in declaration order. Serde may name a different one.
- Nested record types whose files are not part of this model are opaque JSON objects with a string "@type". These are `Sticker`, `File`, `PhotoSize`, `NotificationType`, `NetworkStatisticsEntry`, `StorageStatisticsByFileType`, and the records of the opaque `TdType` variants. Their `Default` is the stand-in `{"@type": ""}`. The opaque variants of `TdTypes.DecodeVariant` therefore never fail once "@type" is a string.
- TdTypes.Table lists 11 of the union's 145 rows. They include a category entry, some events and some results, in source order. The `AuthorizationState` category lists two of its members: the two named in `src/types/_common.rs`. The category tables themselves are not part of this model.
- Setters return nothing. The source's `&mut Self` return exists only for chaining, and a chain is modelled as consecutive calls.
- `td_name()` of each record is a constant function with no contract. The constructor contracts and the dispatch lemmas state its value.
- The `AsRef` impls and the `&T`/`&mut T` trait impls (`src/types/_common.rs:110-284`) only forward calls. The commented-out macros (`src/types/_common.rs:44-67`) are not code.
- `RObject::extra` is not defined by the records shown. The correlation id is modelled only through `detect_td_type_and_extra`.
- `src/lib.rs` holds only module declarations and the re-export of the native engine's bindings.
- `deserde_from_str` is instantiated only with `T = i32`, through `Codec.DeserdeI32`. The generic `Codec.DeserdeFromStr` takes any `parse` and default.
