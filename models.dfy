/** The backend's records: media items and the collections that group them
    (`media_handler.models`), the upload path builder and what saving a
    media record does to it. */
module Models {
  import opened Text

  /** `os.path.join(a, b)` on POSIX paths. */
  function PathJoin(a: string, b: string): string
  {
    if StartsWith(b, "/") then b
    else if a == "" || a[|a| - 1] == '/' then a + b
    else a + "/" + b
  }

  /** `filename.split(".")[-1]`. */
  function Extension(filename: string): string
  {
    Last(Split(filename, '.'))
  }

  /** `media_upload_path`: the file is stored as `<id>.<ext>` under a
      directory named after the media type. */
  function MediaUploadPath(id: string, kind: string, filename: string): string
  {
    PathJoin(kind, id + "." + Extension(filename))
  }

  /** The allowed media types (`MEDIA_TYPES`). */
  const MediaTypes: set<string> := {"image", "video", "audio"}

  /** The file of a record: its name (the client's file name until the
      storage has written it, its stored path afterwards) and its size. */
  datatype StoredFile = StoredFile(name: string, size: int, committed: bool)

  datatype Media = Media(
    id: string,
    user: int,
    name: string,
    kind: string,
    size: Option<int>,
    file: Option<StoredFile>,
    storagePath: Option<string>,
    description: Option<string>,
    isDeleted: bool,
    collection: Option<string>)

  datatype Collection = Collection(id: string, user: int, name: string, description: Option<string>)

  /** `str(media)` and `str(collection)`. */
  function MediaString(m: Media): string
  {
    m.name
  }

  function CollectionString(c: Collection): string
  {
    c.name
  }

  /** `if self.file:` — a file field is true when it has a name. */
  predicate HasFile(m: Media)
  {
    m.file.Some? && m.file.value.name != ""
  }

  /** A new record as `Media.objects.create` builds it before saving: not
      deleted, in no collection, size and storage path unset. */
  function NewMedia(id: string, user: int, name: string, kind: string,
                    description: Option<string>, upload: Option<StoredFile>): Media
  {
    Media(id, user, name, kind, None, upload, None, description, false, None)
  }

  /** The body of `Media.save` before it calls the framework's save. */
  function FillFromFile(m: Media): Media
  {
    if HasFile(m) then m.(size := Some(m.file.value.size), storagePath := Some(m.file.value.name))
    else m
  }

  /** What the framework's save does to a file not yet written: it stores it
      under `media_upload_path` and the field takes that name. */
  function CommitFile(m: Media): Media
  {
    if HasFile(m) && !m.file.value.committed then
      m.(file := Some(StoredFile(MediaUploadPath(m.id, m.kind, m.file.value.name), m.file.value.size, true)))
    else m
  }

  /** The record as stored by one `save()`. */
  function Saved(m: Media): Media
  {
    CommitFile(FillFromFile(m))
  }

  // ---------------------------------------------------------------------
  // Properties

  /** The extension is the text after the last dot, or the whole name when
      there is no dot; it never holds a dot. */
  lemma ExtensionAfterLastDot(filename: string)
    ensures '.' !in filename ==> Extension(filename) == filename
    ensures '.' in filename ==>
      '.' !in Extension(filename) &&
      exists i :: 0 <= i < |filename| && filename[i] == '.' && Extension(filename) == filename[i + 1..]
  {
    SplitPartsFree(filename, '.');
    if '.' in filename {
      SplitLast(filename, '.');
    }
  }

  /** For a type directory and an id of the usual form, the upload path is
      `<type>/<id>.<ext>`. */
  lemma UploadPathShape(id: string, kind: string, filename: string)
    requires kind != "" && kind[|kind| - 1] != '/' && !StartsWith(id, "/")
    ensures MediaUploadPath(id, kind, filename) == kind + "/" + id + "." + Extension(filename)
  {
    var b := id + "." + Extension(filename);
    if |id| > 0 {
      assert b[0] == id[0];
    } else {
      assert b[0] == '.';
    }
  }

  /** Only the extension of the client's file name survives: two names
      with the same extension give the same path. */
  lemma BaseNameDiscarded(id: string, kind: string, base1: string, base2: string, ext: string)
    requires '.' !in ext
    ensures MediaUploadPath(id, kind, base1 + "." + ext) == MediaUploadPath(id, kind, base2 + "." + ext)
  {
    ExtensionOf(base1, ext);
    ExtensionOf(base2, ext);
  }

  /** `test_image.jpg` uploaded as an image is stored as `image/<id>.jpg`. */
  lemma UploadPathExample(id: string)
    requires !StartsWith(id, "/")
    ensures MediaUploadPath(id, "image", "test_image.jpg") == "image" + "/" + id + "." + "jpg"
  {
    var name := "test_image.jpg";
    ExtensionOf("test_image", "jpg");
    assert "test_image" + "." + "jpg" == name;
    assert Extension(name) == "jpg";
    UploadPathShape(id, "image", name);
  }

  lemma ExtensionOf(base: string, ext: string)
    requires '.' !in ext
    ensures Extension(base + "." + ext) == ext
  {
    SplitLastPart(base, ext, '.');
  }

  /** Saving a record with a file sets its size from the file and its
      storage path from the file's name at that moment; saving one without
      a file changes nothing. No other field is touched. */
  lemma SaveFillsFromFile(m: Media)
    ensures HasFile(m) ==> Saved(m).size == Some(m.file.value.size) && Saved(m).storagePath == Some(m.file.value.name)
    ensures !HasFile(m) ==> Saved(m) == m
    ensures var s := Saved(m);
      s.id == m.id && s.user == m.user && s.name == m.name && s.kind == m.kind &&
      s.description == m.description && s.isDeleted == m.isDeleted && s.collection == m.collection
  {
  }

  /** A new record is not deleted and in no collection. Created without a
      file, its size and storage path stay unset; created with a file, the
      file is stored under the upload path while the storage path keeps the
      client's file name, because the hook runs before the file is
      written. */
  lemma CreatedRecord(id: string, user: int, name: string, kind: string,
                      description: Option<string>, upload: Option<StoredFile>)
    ensures var s := Saved(NewMedia(id, user, name, kind, description, upload));
      !s.isDeleted && s.collection.None? && s.user == user && s.name == name && s.kind == kind
    ensures (upload.None? || upload.value.name == "") ==>
      var s := Saved(NewMedia(id, user, name, kind, description, upload));
      s.size.None? && s.storagePath.None?
    ensures upload.Some? && upload.value.name != "" && !upload.value.committed ==>
      var s := Saved(NewMedia(id, user, name, kind, description, upload));
      s.size == Some(upload.value.size) && s.storagePath == Some(upload.value.name) &&
      s.file == Some(StoredFile(MediaUploadPath(id, kind, upload.value.name), upload.value.size, true))
  {
  }

  /** From the second save on, the storage path is the stored file's name,
      and saving again changes nothing more. */
  lemma ResaveSettles(m: Media)
    ensures HasFile(Saved(m)) ==> Saved(Saved(m)).storagePath == Some(Saved(m).file.value.name)
    ensures Saved(Saved(Saved(m))) == Saved(Saved(m))
  {
    var once := Saved(m);
    if HasFile(m) {
      assert once.file.value.committed;
      if once.file.value.name != "" {
        assert Saved(once) == FillFromFile(once);
      }
    }
  }

  /** A media record prints as its name. */
  lemma MediaStringIsName(m: Media)
    ensures MediaString(m) == m.name
  {
  }

  /** A collection prints as its name. */
  lemma CollectionStringIsName(c: Collection)
    ensures CollectionString(c) == c.name
  {
  }
}
