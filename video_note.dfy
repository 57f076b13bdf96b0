/** The `videoNote` record: a round video message. */
module VideoNoteRecord {
  import opened Wrappers
  import opened JsonValue

  /** A photo size and a file; their own fields are not part of this model. */
  type PhotoSize = Nested
  type File = Nested

  /** The record; each field's destructor is its getter. `thumbnail` may be absent. */
  datatype VideoNote = VideoNote(
    td_name: string,
    duration: I32,
    length: I32,
    thumbnail: Option<PhotoSize>,
    video: File)
  {
    /** `RObject::td_name`: the schema's fixed discriminator, whatever the fields hold. */
    function TdName(): string {
      Tag
    }
  }

  const Tag := "videoNote"

  const Keys: set<string> := {TypeKey, "duration", "length", "thumbnail", "video"}
  /** The members decoding requires: an `Option` field may be left out. */
  const RequiredKeys: set<string> := Keys - {"thumbnail"}

  /** `#[derive(Default)]`: no thumbnail, and the default file. */
  function Default(): (d: VideoNote)
    ensures d.td_name == "" && d.td_name != d.TdName()
    ensures d.duration == 0 && d.length == 0 && d.thumbnail == None && d.video == DefaultNested
  {
    VideoNote("", 0, 0, None, DefaultNested)
  }

  /** An absent thumbnail is written as `null`. */
  function Encode(r: VideoNote): (j: Json)
    ensures j.JObj? && j.fields.Keys == Keys
    ensures j.fields[TypeKey] == JStr(r.td_name)
    ensures j.fields["thumbnail"] == JNull <==> r.thumbnail.None?
    ensures r.thumbnail.Some? ==> j.fields["thumbnail"] == JObj(r.thumbnail.value)
    ensures j.fields["duration"] == JInt(r.duration) && j.fields["length"] == JInt(r.length)
    ensures j.fields["video"] == JObj(r.video)
  {
    JObj(map[
      TypeKey := JStr(r.td_name),
      "duration" := JInt(r.duration),
      "length" := JInt(r.length),
      "thumbnail" := EncodeOptionalNested(r.thumbnail),
      "video" := JObj(r.video)])
  }

  /** Every member but "thumbnail" required; an absent or null thumbnail reads as `None`. */
  function Decode(j: Json): (r: Result<VideoNote, DecodeError>)
    ensures !j.JObj? ==> r == Failure(NotAStruct)
    ensures r.Success? ==> j.JObj? && RequiredKeys <= j.fields.Keys && j.fields[TypeKey] == JStr(r.value.td_name)
    ensures r.Success? ==> (r.value.thumbnail.None? <==> "thumbnail" !in j.fields || j.fields["thumbnail"] == JNull)
    ensures r.Success? && r.value.thumbnail.Some? ==>
              "thumbnail" in j.fields && j.fields["thumbnail"] == JObj(r.value.thumbnail.value)
    ensures r.Success? ==> j.fields["duration"] == JInt(r.value.duration) && j.fields["length"] == JInt(r.value.length)
    ensures r.Success? ==> j.fields["video"] == JObj(r.value.video)
  {
    if !j.JObj? then Failure(NotAStruct)
    else
      var m := j.fields;
      var td_name :- GetStr(m, TypeKey);
      var duration :- GetI32(m, "duration");
      var length :- GetI32(m, "length");
      var thumbnail :- GetOptionalNested(m, "thumbnail");
      var video :- GetNested(m, "video");
      Success(VideoNote(td_name, duration, length, thumbnail, video))
  }

  /** Decoding an encoded record gives it back: an absent thumbnail stays `None`, a present one `Some`. */
  lemma {:induction false} RoundTrip(r: VideoNote)
    ensures Decode(Encode(r)) == Success(r)
  {
    var m := Encode(r).fields;
    assert GetStr(m, TypeKey) == Success(r.td_name);
    assert GetI32(m, "duration") == Success(r.duration);
    assert GetI32(m, "length") == Success(r.length);
    assert GetOptionalNested(m, "thumbnail") == Success(r.thumbnail);
    assert GetNested(m, "video") == Success(r.video);
  }

  /** Re-encoding a decoded object gives its declared members, with `null` for a thumbnail it left out. */
  lemma {:induction false} DecodeThenEncode(j: Json)
    requires Decode(j).Success?
    ensures Encode(Decode(j).value) == JObj(map k | k in Keys :: if k in j.fields then j.fields[k] else JNull)
  {
  }

  /**
    Members the record does not declare, such as the correlation id "@extra",
    are ignored: the outcome, success or error, depends only on the declared members.
  */
  lemma {:induction false} DependsOnlyOnDeclared(j: Json)
    requires j.JObj?
    ensures Decode(j) == Decode(JObj(Declared(j.fields, Keys)))
  {
    FieldOfDeclared(j.fields, Keys);
  }

  /** An encoded record with any undeclared members added still decodes to that record. */
  lemma {:induction false} IgnoresUndeclared(r: VideoNote, extra: map<string, Json>)
    requires extra.Keys !! Keys
    ensures Decode(JObj(Encode(r).fields + extra)) == Success(r)
  {
    var m := Encode(r).fields + extra;
    DependsOnlyOnDeclared(JObj(m));
    assert Declared(m, Keys) == Encode(r).fields;
    RoundTrip(r);
  }

  /** `RTDVideoNoteBuilder`. */
  class VideoNoteBuilder {
    var inner: VideoNote

    /** `VideoNote::builder()`: zero duration and length, no thumbnail, the default file. */
    constructor ()
      ensures inner.td_name == Tag
      ensures inner.duration == 0 && inner.length == 0
      ensures inner.thumbnail == None && inner.video == DefaultNested
    {
      inner := Default().(td_name := Tag);
    }

    /** `build()`: a copy of the accumulated record; the builder is only read. */
    function Build(): (r: VideoNote)
      reads this
      ensures r == inner
    {
      inner
    }

    method Duration(duration: I32)
      modifies this
      ensures inner == old(inner).(duration := duration)
    {
      inner := inner.(duration := duration);
    }

    method Length(length: I32)
      modifies this
      ensures inner == old(inner).(length := length)
    {
      inner := inner.(length := length);
    }

    /** Always stores `Some`: no setter puts the thumbnail back to `None`. */
    method Thumbnail(thumbnail: PhotoSize)
      modifies this
      ensures inner == old(inner).(thumbnail := Some(thumbnail))
    {
      inner := inner.(thumbnail := Some(thumbnail));
    }

    method Video(video: File)
      modifies this
      ensures inner == old(inner).(video := video)
    {
      inner := inner.(video := video);
    }
  }

  /** Once a thumbnail is set, later calls of the other setters keep it present. */
  method ThumbnailStaysSet(p: PhotoSize, duration: I32, length: I32, video: File) returns (r: VideoNote)
    ensures r.thumbnail == Some(p)
    ensures r.duration == duration && r.length == length && r.video == video
  {
    var b := new VideoNoteBuilder();
    b.Thumbnail(p);
    b.Duration(duration);
    b.Length(length);
    b.Video(video);
    r := b.Build();
  }
}
