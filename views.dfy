/** The media and collection endpoints (`MediaViewSet`,
    `CollectionViewSet`) over an in-memory table of records.

    The requester is the authenticated user's id (`request.user.id`), which
    may be missing. `get_object` and `get_object_or_404` are a search of the
    filtered table that answers 404 when nothing is found. A record's id is
    kept in the canonical text form of its UUID, and a lookup text matches
    it when it parses to the same value. Fresh record ids are
    parameters. */
module Views {
  import opened Text
  import opened Models
  import opened Serializers
  import opened Uuids

  /** The `type` values the listing filters on. */
  const ListedTypes: seq<string> := ["image", "audio", "video"]

  /** `get_queryset`'s conditions on one record. */
  predicate Listed(m: Media, requester: Option<int>, typeParam: Option<string>)
  {
    requester == Some(m.user) && !m.isDeleted &&
    (typeParam.Some? && typeParam.value in ListedTypes ==> m.kind == typeParam.value)
  }

  /** The media listing: the requester's records that are not deleted,
      restricted by type when a known type is asked for, in table order. */
  function MediaQueryset(table: seq<Media>, requester: Option<int>, typeParam: Option<string>): (r: seq<Media>)
    ensures forall m :: m in r <==> m in table && Listed(m, requester, typeParam)
    ensures |r| <= |table|
  {
    if |table| == 0 then []
    else
      assert forall m :: m in table <==> m == table[0] || m in table[1..];
      (if Listed(table[0], requester, typeParam) then [table[0]] else []) + MediaQueryset(table[1..], requester, typeParam)
  }

  /** The collection listing: the requester's collections. */
  function CollectionQueryset(table: seq<Collection>, requester: Option<int>): (r: seq<Collection>)
    ensures forall c :: c in r <==> c in table && requester == Some(c.user)
  {
    if |table| == 0 then []
    else
      assert forall c :: c in table <==> c == table[0] || c in table[1..];
      (if requester == Some(table[0].user) then [table[0]] else []) + CollectionQueryset(table[1..], requester)
  }

  /** The position of the listed record with id `pk`, as `get_object` finds
      it: the pk is read as a UUID, and one that does not parse finds
      nothing, since the framework's lookup answers 404 for it. */
  function FindMedia(table: seq<Media>, pk: string, requester: Option<int>, typeParam: Option<string>): (r: Option<nat>)
    ensures r.None? <==> forall i :: 0 <= i < |table| ==> !(NamesUuid(pk, table[i].id) && Listed(table[i], requester, typeParam))
    ensures r.Some? ==> r.value < |table| && NamesUuid(pk, table[r.value].id) && Listed(table[r.value], requester, typeParam)
    ensures r.Some? ==> forall i :: 0 <= i < r.value ==> !(NamesUuid(pk, table[i].id) && Listed(table[i], requester, typeParam))
  {
    if |table| == 0 then None
    else if NamesUuid(pk, table[0].id) && Listed(table[0], requester, typeParam) then Some(0)
    else match FindMedia(table[1..], pk, requester, typeParam)
      case None => None
      case Some(i) => Some(i + 1)
  }

  /** The position of the collection with id `id` owned by the requester,
      as `get_object_or_404(Collection, id=..., user=...)` finds it among
      the ids naming the same UUID. */
  function FindCollection(table: seq<Collection>, id: string, requester: Option<int>): (r: Option<nat>)
    ensures r.None? <==> forall i :: 0 <= i < |table| ==> !(NamesUuid(id, table[i].id) && requester == Some(table[i].user))
    ensures r.Some? ==> r.value < |table| && NamesUuid(id, table[r.value].id) && requester == Some(table[r.value].user)
    ensures r.Some? ==> forall i :: 0 <= i < r.value ==> !(NamesUuid(id, table[i].id) && requester == Some(table[i].user))
  {
    if |table| == 0 then None
    else if NamesUuid(id, table[0].id) && requester == Some(table[0].user) then Some(0)
    else match FindCollection(table[1..], id, requester)
      case None => None
      case Some(i) => Some(i + 1)
  }

  ghost predicate DistinctMediaIds(table: seq<Media>)
  {
    forall i, j :: 0 <= i < j < |table| ==> table[i].id != table[j].id
  }

  ghost predicate DistinctCollectionIds(table: seq<Collection>)
  {
    forall i, j :: 0 <= i < j < |table| ==> table[i].id != table[j].id
  }

  datatype Body =
    | MediaBody(media: Media)
    | CollectionBody(collection: Collection)
    | ErrorBody(error: string)
    | MessageBody(message: string)
    | NotFoundBody
    | NoContent
    | ServerError

  datatype ApiReply = ApiReply(status: int, body: Body)

  const NotFound := ApiReply(404, NotFoundBody)
  const CollectionIdRequired := ApiReply(400, ErrorBody("collection_id is required"))

  /** The reply of a failed upload: 400 with the error text after a fixed
      prefix. */
  function UploadFailed(message: string): (r: ApiReply)
    ensures r.status == 400 && r.body.ErrorBody? && StartsWith(r.body.error, "Upload failed: ")
    ensures r.body.error[|"Upload failed: "|..] == message
  {
    var error := "Upload failed: " + message;
    assert error[..|"Upload failed: "|] == "Upload failed: ";
    ApiReply(400, ErrorBody(error))
  }

  /** A media record as `Media.objects.create(**fields)` builds it. Missing
      fields take the model's defaults; no field carries a file, so the
      record is created without one. */
  function RecordFromFields(id: string, fields: Fields): Media
  {
    var name := if "name" in fields && fields["name"].Text? then fields["name"].s else "";
    var kind := if "type" in fields && fields["type"].Text? then fields["type"].s else "";
    var user := if "user" in fields && fields["user"].Number? then fields["user"].n else 0;
    var description := if "description" in fields && fields["description"].Text? then Some(fields["description"].s) else None;
    var collection := if "collection" in fields && fields["collection"].Text? then Some(fields["collection"].s) else None;
    NewMedia(id, user, name, kind, description, None).(collection := collection)
  }

  /** The record `create` evidently means to store: the one built from the
      fields, holding the file part the client sent. */
  function IntendedRecord(id: string, fields: Fields, upload: StoredFile): Media
  {
    Saved(RecordFromFields(id, fields).(file := Some(upload)))
  }

  class MediaStore {
    var media: seq<Media>
    var collections: seq<Collection>

    ghost predicate Valid()
      reads this
    {
      DistinctMediaIds(media) && DistinctCollectionIds(collections)
    }

    constructor ()
      ensures media == [] && collections == [] && Valid()
    {
      media := [];
      collections := [];
    }

    function MediaList(requester: Option<int>, typeParam: Option<string>): seq<Media>
      reads this
    {
      MediaQueryset(media, requester, typeParam)
    }

    function CollectionList(requester: Option<int>): seq<Collection>
      reads this
    {
      CollectionQueryset(collections, requester)
    }

    /** `get_object`: a scan of the table for the listed record `pk`. */
    method GetObject(pk: string, requester: Option<int>, typeParam: Option<string>) returns (found: Option<nat>)
      ensures found == FindMedia(media, pk, requester, typeParam)
    {
      var i := 0;
      while i < |media|
        invariant 0 <= i <= |media|
        invariant forall j :: 0 <= j < i ==> !(NamesUuid(pk, media[j].id) && Listed(media[j], requester, typeParam))
      {
        if NamesUuid(pk, media[i].id) && Listed(media[i], requester, typeParam) {
          return Some(i);
        }
        i := i + 1;
      }
      return None;
    }

    /** `get_object_or_404(Collection, id=id, user=requester)`. */
    method GetCollection(id: string, requester: Option<int>) returns (found: Option<nat>)
      ensures found == FindCollection(collections, id, requester)
    {
      var i := 0;
      while i < |collections|
        invariant 0 <= i <= |collections|
        invariant forall j :: 0 <= j < i ==> !(NamesUuid(id, collections[j].id) && requester == Some(collections[j].user))
      {
        if NamesUuid(id, collections[i].id) && requester == Some(collections[i].user) {
          return Some(i);
        }
        i := i + 1;
      }
      return None;
    }

    /** `media.save()` on the record at position `i`: the model's hook fills
        size and storage path from the file, then the framework writes the
        file and the row. */
    method Save(i: nat, record: Media)
      requires Valid() && i < |media| && record.id == media[i].id
      modifies this
      ensures Valid()
      ensures media == old(media)[i := Saved(record)] && collections == old(collections)
    {
      var m := record;
      if HasFile(m) {
        m := m.(size := Some(m.file.value.size));
        m := m.(storagePath := Some(m.file.value.name));
      }
      m := CommitFile(m);
      media := media[i := m];
      assert forall j :: 0 <= j < |media| ==> media[j].id == old(media)[j].id;
    }

    /** `perform_destroy`: a soft delete of the listed record `pk`. */
    method Destroy(pk: string, requester: Option<int>, typeParam: Option<string>) returns (reply: ApiReply)
      requires Valid()
      modifies this
      ensures Valid() && collections == old(collections)
      ensures var found := FindMedia(old(media), pk, requester, typeParam);
        (found.None? ==> reply == NotFound && media == old(media)) &&
        (found.Some? ==> (reply == ApiReply(204, NoContent) &&
          media == old(media)[found.value := Saved(old(media)[found.value].(isDeleted := true))]))
    {
      var found := GetObject(pk, requester, typeParam);
      if found.None? {
        return NotFound;
      }
      var i := found.value;
      Save(i, media[i].(isDeleted := true));
      reply := ApiReply(204, NoContent);
    }

    /** `add_to_collection`: the record must be listed, a collection id must
        be given, and the collection must be the requester's. A collection
        id that is not a UUID makes the lookup raise a validation error
        that no handler maps, so the request ends in a server error. */
    method AddToCollection(pk: string, requester: Option<int>, typeParam: Option<string>, collectionId: Option<string>)
      returns (reply: ApiReply)
      requires Valid()
      modifies this
      ensures Valid() && collections == old(collections)
      ensures var found := FindMedia(old(media), pk, requester, typeParam);
        (found.None? ==> reply == NotFound && media == old(media)) &&
        (found.Some? && (collectionId.None? || collectionId.value == "") ==>
          reply == CollectionIdRequired && media == old(media))
    ensures var found := FindMedia(old(media), pk, requester, typeParam);
        found.Some? && collectionId.Some? && collectionId.value != "" && UuidValue(collectionId.value).None? ==>
        reply == ApiReply(500, ServerError) && media == old(media)
    ensures var found := FindMedia(old(media), pk, requester, typeParam);
        found.Some? && collectionId.Some? && collectionId.value != "" && UuidValue(collectionId.value).Some? ==>
        var owned := FindCollection(collections, collectionId.value, requester);
        (owned.None? ==> reply == NotFound && media == old(media)) &&
        (owned.Some? ==>
          var m := old(media)[found.value];
          var c := collections[owned.value];
          reply == ApiReply(200, MessageBody("Media " + m.name + " added to collection " + c.name)) &&
          media == old(media)[found.value := Saved(m.(collection := Some(c.id)))])
    {
      var found := GetObject(pk, requester, typeParam);
      if found.None? {
        return NotFound;
      }
      var i := found.value;
      if collectionId.None? || collectionId.value == "" {
        return CollectionIdRequired;
      }
      if UuidValue(collectionId.value).None? {
        return ApiReply(500, ServerError);
      }
      var owned := GetCollection(collectionId.value, requester);
      if owned.None? {
        return NotFound;
      }
      var collection := collections[owned.value];
      var m := media[i];
      Save(i, m.(collection := Some(collection.id)));
      reply := ApiReply(200, MessageBody("Media " + m.name + " added to collection " + collection.name));
    }

    /** `remove_from_collection`: clears the collection of the listed record
        `pk`. */
    method RemoveFromCollection(pk: string, requester: Option<int>, typeParam: Option<string>) returns (reply: ApiReply)
      requires Valid()
      modifies this
      ensures Valid() && collections == old(collections)
      ensures var found := FindMedia(old(media), pk, requester, typeParam);
        (found.None? ==> reply == NotFound && media == old(media)) &&
        (found.Some? ==>
          var m := old(media)[found.value];
          reply == ApiReply(200, MessageBody("Media " + m.name + " removed from its collection")) &&
          media == old(media)[found.value := Saved(m.(collection := None))])
    {
      var found := GetObject(pk, requester, typeParam);
      if found.None? {
        return NotFound;
      }
      var i := found.value;
      var m := media[i];
      Save(i, m.(collection := None));
      reply := ApiReply(200, MessageBody("Media " + m.name + " removed from its collection"));
    }

    /** `create`: field validation (its outcome is the parameter
        `validated`), the serializer's `create`, then the insert, all in one
        transaction: any failure is a 400 starting "Upload failed: " and
        leaves the table as it was. */
    method CreateMedia(validated: Result<Fields>, request: Request, freshId: string, dbFailure: Option<string>)
      returns (reply: ApiReply)
      requires Valid() && forall m :: m in media ==> m.id != freshId
      modifies this
      ensures Valid() && collections == old(collections)
      ensures reply.status == 201 || reply.status == 400
      ensures reply.status == 400 ==>
        media == old(media) && reply.body.ErrorBody? && StartsWith(reply.body.error, "Upload failed: ")
      ensures validated.Failure? ==> reply == UploadFailed(validated.message)
      ensures validated.Ok? && request.user.NoUser? ==> reply == UploadFailed(MissingContext)
      ensures validated.Ok? && request.user == User(None) ==> reply == UploadFailed(MissingUserId)
      ensures validated.Ok? && request.user.User? && request.user.id.Some? && dbFailure.Some? ==>
        reply == UploadFailed("Failed to create media: " + dbFailure.value)
      ensures validated.Ok? && request.user.User? && request.user.id.Some? && dbFailure.None? ==>
        var record := Saved(RecordFromFields(freshId, validated.value["user" := Number(request.user.id.value)]));
        reply == ApiReply(201, MediaBody(record)) && media == old(media) + [record]
      ensures reply.status == 201 ==>
        reply.body.MediaBody? && !HasFile(reply.body.media) &&
        reply.body.media.size.None? && reply.body.media.storagePath.None?
    {
      if validated.Failure? {
        return UploadFailed(validated.message);
      }
      var fields := Create(validated.value, Some(request));
      if fields.Failure? {
        return UploadFailed(fields.message);
      }
      if dbFailure.Some? {
        return UploadFailed("Failed to create media: " + dbFailure.value);
      }
      assert fields.value == validated.value["user" := Number(request.user.id.value)];
      var record := Saved(RecordFromFields(freshId, fields.value));
      media := media + [record];
      assert DistinctMediaIds(media) by {
        forall i, j | 0 <= i < j < |media| ensures media[i].id != media[j].id {
          if j == |media| - 1 {
            assert media[i] in old(media);
            SaveFillsFromFile(RecordFromFields(freshId, fields.value));
          }
        }
      }
      reply := ApiReply(201, MediaBody(record));
    }

    /** `perform_create` of the collection endpoint: the owner is the
        requester; without a requester id the insert fails on the not-null
        owner column and nothing is stored. */
    method CreateCollection(requester: Option<int>, name: string, description: Option<string>, freshId: string)
      returns (reply: ApiReply)
      requires Valid() && forall c :: c in collections ==> c.id != freshId
      modifies this
      ensures Valid() && media == old(media)
      ensures requester.None? ==> reply == ApiReply(500, ServerError) && collections == old(collections)
      ensures requester.Some? ==>
        var c := Collection(freshId, requester.value, name, description);
        reply == ApiReply(201, CollectionBody(c)) && collections == old(collections) + [c]
    {
      if requester.None? {
        return ApiReply(500, ServerError);
      }
      var c := Collection(freshId, requester.value, name, description);
      collections := collections + [c];
      reply := ApiReply(201, CollectionBody(c));
    }
  }

  // ---------------------------------------------------------------------
  // Properties

  /** A `type` value outside image, audio and video is ignored: the listing
      is the unfiltered one. */
  lemma {:induction false} UnknownTypeIgnored(table: seq<Media>, requester: Option<int>, typeParam: Option<string>)
    requires typeParam.None? || typeParam.value !in ListedTypes
    ensures MediaQueryset(table, requester, typeParam) == MediaQueryset(table, requester, None)
    decreases |table|
  {
    if |table| > 0 {
      UnknownTypeIgnored(table[1..], requester, typeParam);
    }
  }

  /** `queryset.filter(type=kind)`. */
  function OfKind(s: seq<Media>, kind: string): (r: seq<Media>)
    ensures forall m :: m in r <==> m in s && m.kind == kind
  {
    if |s| == 0 then []
    else
      assert forall m :: m in s <==> m == s[0] || m in s[1..];
      (if s[0].kind == kind then [s[0]] else []) + OfKind(s[1..], kind)
  }

  /** A known `type` value narrows the owner's listing to the records of
      that type, in the same order. */
  lemma {:induction false} KnownTypeFilters(table: seq<Media>, requester: Option<int>, kind: string)
    requires kind in ListedTypes
    ensures MediaQueryset(table, requester, Some(kind)) == OfKind(MediaQueryset(table, requester, None), kind)
    decreases |table|
  {
    if |table| > 0 {
      KnownTypeFilters(table[1..], requester, kind);
      var head := if Listed(table[0], requester, None) then [table[0]] else [];
      var rest := MediaQueryset(table[1..], requester, None);
      OfKindConcat(head, rest, kind);
    }
  }

  lemma {:induction false} OfKindConcat(a: seq<Media>, b: seq<Media>, kind: string)
    ensures OfKind(a + b, kind) == OfKind(a, kind) + OfKind(b, kind)
    decreases |a|
  {
    if |a| == 0 {
      assert a + b == b;
    } else {
      assert (a + b)[1..] == a[1..] + b;
      OfKindConcat(a[1..], b, kind);
    }
  }

  /** Other users' records are never listed, nor anything without a
      requester id. */
  lemma {:induction false} OnlyOwnRecords(table: seq<Media>, requester: Option<int>, typeParam: Option<string>)
    ensures requester.None? ==> MediaQueryset(table, requester, typeParam) == []
    ensures forall m :: m in MediaQueryset(table, requester, typeParam) ==> requester == Some(m.user) && !m.isDeleted
    decreases |table|
  {
    if |table| > 0 {
      OnlyOwnRecords(table[1..], requester, typeParam);
    }
  }

  /** After a soft delete the record is still in the table with its id, and
      no listing shows it again. */
  lemma DeletedStaysHidden(table: seq<Media>, i: nat, requester: Option<int>, typeParam: Option<string>)
    requires DistinctMediaIds(table) && i < |table|
    ensures var after := table[i := Saved(table[i].(isDeleted := true))];
      |after| == |table| && after[i].id == table[i].id && after[i].isDeleted &&
      forall m :: m in MediaQueryset(after, requester, typeParam) ==> m.id != table[i].id
  {
    var after := table[i := Saved(table[i].(isDeleted := true))];
    SaveFillsFromFile(table[i].(isDeleted := true));
    forall m | m in MediaQueryset(after, requester, typeParam) ensures m.id != table[i].id {
      var j :| 0 <= j < |after| && after[j] == m;
      if j != i {
        assert after[j] == table[j];
      }
    }
  }

  /** A lookup depends only on the UUID the text names: the canonical
      form, the braced form and the bare digits find the same record, and a
      text that names no UUID finds none. */
  lemma {:induction false} FindMediaByValue(table: seq<Media>, x: string, y: string, requester: Option<int>, typeParam: Option<string>)
    requires UuidValue(x) == UuidValue(y)
    ensures FindMedia(table, x, requester, typeParam) == FindMedia(table, y, requester, typeParam)
    ensures UuidValue(x).None? ==> FindMedia(table, x, requester, typeParam).None?
    decreases |table|
  {
    if |table| > 0 {
      FindMediaByValue(table[1..], x, y, requester, typeParam);
    }
  }

  lemma {:induction false} FindCollectionByValue(table: seq<Collection>, x: string, y: string, requester: Option<int>)
    requires UuidValue(x) == UuidValue(y)
    ensures FindCollection(table, x, requester) == FindCollection(table, y, requester)
    ensures UuidValue(x).None? ==> FindCollection(table, x, requester).None?
    decreases |table|
  {
    if |table| > 0 {
      FindCollectionByValue(table[1..], x, y, requester);
    }
  }

  /** Adding to a collection and removing from it change the record's
      collection and leave every other field as saving leaves it. */
  lemma CollectionMoves(m: Media, c: string)
    ensures Saved(m.(collection := Some(c))).collection == Some(c)
    ensures Saved(m.(collection := None)).collection.None?
    ensures var a := Saved(m.(collection := Some(c)));
      a.id == m.id && a.user == m.user && a.name == m.name && a.kind == m.kind &&
      a.isDeleted == m.isDeleted && a.description == m.description
  {
    SaveFillsFromFile(m.(collection := Some(c)));
    SaveFillsFromFile(m.(collection := None));
  }

  /** An uploaded record belongs to the requester whatever `user` the data
      carried, is not deleted and is in the collection given, if any. */
  lemma CreatedBelongsToRequester(id: string, fields: Fields, user: int)
    ensures var r := Saved(RecordFromFields(id, fields["user" := Number(user)]));
      r.user == user && !r.isDeleted && r.id == id
    ensures var r := Saved(RecordFromFields(id, fields["user" := Number(user)]));
      r.collection == if "collection" in fields && fields["collection"].Text? then Some(fields["collection"].s) else None
  {
  }

  /** Whatever the request carried, a created record has no file, no size
      and no storage path, and no URL is reported for it. */
  lemma CreatedWithoutFile(id: string, fields: Fields, user: int, context: Option<Request>)
    ensures var r := Saved(RecordFromFields(id, fields["user" := Number(user)]));
      r.file.None? && r.size.None? && r.storagePath.None? && GetFile(r, context).None?
  {
    SaveFillsFromFile(RecordFromFields(id, fields["user" := Number(user)]));
  }

  /** Had the file part been kept, the new record would hold it under the
      upload path `<type>/<id>.<ext>` with its size, and for an allowed type
      its URL would name that path on the gateway. */
  lemma IntendedUploadStored(id: string, fields: Fields, user: int, upload: StoredFile, context: Option<Request>)
    requires upload.name != "" && !upload.committed
    ensures var r := IntendedRecord(id, fields["user" := Number(user)], upload);
      r.user == user && !r.isDeleted && r.size == Some(upload.size) &&
      r.file == Some(StoredFile(MediaUploadPath(id, r.kind, upload.name), upload.size, true))
    ensures var r := IntendedRecord(id, fields["user" := Number(user)], upload);
      r.kind in MediaTypes && !StartsWith(id, "/") ==>
      GetFile(r, context) == Some("http://" + GatewayHost(context) + ":3000/media/" + r.kind + "/" + id + "." + Extension(upload.name))
  {
    var m := RecordFromFields(id, fields["user" := Number(user)]).(file := Some(upload));
    CreatedRecord(m.id, m.user, m.name, m.kind, m.description, Some(upload));
    assert m == NewMedia(m.id, m.user, m.name, m.kind, m.description, Some(upload)).(collection := m.collection);
    var r := Saved(m);
    if r.kind in MediaTypes && !StartsWith(id, "/") {
      StoredUnderType(r, id, upload.name, context);
    }
  }

  lemma SeqAppendFive(p: string, a: string, b: string, c: string, d: string, e: string)
    ensures p + (a + b + c + d + e) == p + a + b + c + d + e
  {
  }

  /** A stored file under `<type>/<id>.<ext>` is served at that path. */
  lemma StoredUnderType(r: Media, id: string, filename: string, context: Option<Request>)
    requires r.kind in MediaTypes && !StartsWith(id, "/")
    requires r.file.Some? && r.file.value.name == MediaUploadPath(id, r.kind, filename)
    ensures GetFile(r, context) == Some("http://" + GatewayHost(context) + ":3000/media/" + r.kind + "/" + id + "." + Extension(filename))
  {
    var ext := Extension(filename);
    UploadPathShape(id, r.kind, filename);
    var path := r.kind + "/" + id + "." + ext;
    assert path[|r.kind|] == '/';
    GetFileUrl(r, context);
    var prefix := "http://" + GatewayHost(context) + ":3000/media/";
    SeqAppendFive(prefix, r.kind, "/", id, ".", ext);
  }

}
