/**
 * The in-memory track library (class TrackLibrary of track_library.py): a map
 * from track name to track, saved to and loaded from a backing file as a whole.
 */
module Library {
  import opened Wrappers
  import opened Tracks

  /** What the backing file holds once decoded: one record per library key. */
  type Stored = map<string, Record>

  /** Why loading fails: every stored record that cannot be read back, with its error. */
  datatype LoadError = CorruptRecords(errors: map<string, FieldError>)

  /** The backing file. `contents` is None while the file does not exist. */
  class FileStore {
    var contents: Option<Stored>

    constructor (contents: Option<Stored>)
      ensures this.contents == contents
    {
      this.contents := contents;
    }
  }

  /** The whole library as it is written to the file: every key kept as it is,
      each track stored as ToDict gives it. */
  function Serialize(tracks: map<string, Track>): (data: Stored)
    ensures data.Keys == tracks.Keys
    ensures forall k :: k in data ==> data[k] == ToDict(tracks[k])
  {
    map k | k in tracks :: ToDict(tracks[k])
  }

  /** The stored records that cannot be read back, each with the error FromDict reports. */
  function Failures(data: Stored): (bad: map<string, FieldError>)
    ensures bad.Keys <= data.Keys
    ensures forall k :: k in data ==> (k in bad <==> FromDict(data[k]).Err?)
    ensures forall k :: k in bad ==> FromDict(data[k]) == Err(bad[k])
  {
    map k | k in data && FromDict(data[k]).Err? :: FromDict(data[k]).error
  }

  /** Reads a whole stored map back: either every record yields its track under
      the same key, or nothing is produced and the failing records are reported. */
  function Deserialize(data: Stored): (r: Result<map<string, Track>, LoadError>)
    ensures r.Ok? <==> forall k :: k in data ==> FromDict(data[k]).Ok?
    ensures r.Ok? ==> r.value.Keys == data.Keys && forall k :: k in data ==> FromDict(data[k]) == Ok(r.value[k])
    ensures r.Err? ==> r.error.errors == Failures(data) && r.error.errors != map[]
  {
    var bad := Failures(data);
    if bad == map[] then
      assert forall k :: k in data ==> k !in bad;
      Ok(map k | k in data :: FromDict(data[k]).value)
    else
      assert exists k :: k in data && k in bad;
      Err(CorruptRecords(bad))
  }

  /** What loading yields from the file: an empty library when there is no file. */
  function Load(contents: Option<Stored>): (r: Result<map<string, Track>, LoadError>)
    ensures contents.None? ==> r == Ok(map[])
    ensures contents.Some? ==> (r.Ok? <==> forall k :: k in contents.value ==> FromDict(contents.value[k]).Ok?)
    ensures contents.Some? && r.Ok? ==>
      r.value.Keys == contents.value.Keys && forall k :: k in contents.value ==> FromDict(contents.value[k]) == Ok(r.value[k])
  {
    match contents
    case None => Ok(map[])
    case Some(data) => Deserialize(data)
  }

  /** A library owns its tracks, keyed by name, and works against one backing file. */
  class TrackLibrary {
    var tracks: map<string, Track>
    const file: FileStore

    /** A new library is empty. */
    constructor (file: FileStore)
      ensures tracks == map[] && this.file == file
    {
      tracks := map[];
      this.file := file;
    }

    /** Overwrites the file with the whole library; the library itself is unchanged. */
    method SaveToFile()
      modifies file
      ensures file.contents == Some(Serialize(tracks))
    {
      file.contents := Some(Serialize(tracks));
    }

    /**
     * Replaces the whole library with what the file holds. A missing file empties
     * the library and is not an error. If any stored record cannot be read back,
     * the call fails and the library is left as it was.
     */
    method LoadFromFile() returns (r: Result<(), LoadError>)
      modifies this
      ensures r.Ok? <==> Load(file.contents).Ok?
      ensures r.Ok? ==> tracks == Load(file.contents).value
      ensures r.Err? ==> r.error == Load(file.contents).error && tracks == old(tracks)
    {
      match file.contents
      case None =>
        tracks := map[];
        r := Ok(());
      case Some(data) =>
        var loaded := Deserialize(data);
        match loaded
        case Ok(m) =>
          tracks := m;
          r := Ok(());
        case Err(e) =>
          r := Err(e);
    }
  }

  /** Whatever library was saved loads back unchanged: same keys, same tracks. */
  lemma LoadAfterSave(tracks: map<string, Track>)
    ensures Load(Some(Serialize(tracks))) == Ok(tracks)
  {
    var data := Serialize(tracks);
    forall k | k in data
      ensures FromDict(data[k]) == Ok(tracks[k])
    {
      RoundTrip(tracks[k]);
    }
    var m := Deserialize(data).value;
    assert m.Keys == tracks.Keys;
    assert forall k :: k in m ==> m[k] == tracks[k];
    assert m == tracks;
    assert Load(Some(data)) == Deserialize(data);
  }

  /** Loading with no file gives the empty library and never fails. */
  lemma LoadMissingFile()
    ensures Load(None) == Ok(map[])
  {
  }

  /** Loading fails exactly when some stored record cannot be read back, and it
      reports each such record with its error. */
  lemma LoadFailsIff(data: Stored)
    ensures Load(Some(data)).Err? <==> exists k :: k in data && FromDict(data[k]).Err?
    ensures Load(Some(data)).Err? ==> Load(Some(data)).error.errors == Failures(data)
  {
  }

  /** A successful load is undone by saving: what is written back has the file's
      keys and agrees with the file on every field key of every record. */
  lemma SaveAfterLoad(data: Stored, tracks: map<string, Track>)
    requires Deserialize(data) == Ok(tracks)
    ensures Serialize(tracks).Keys == data.Keys
    ensures forall k :: k in data ==> Serialize(tracks)[k] == Fields(data[k])
  {
    forall k | k in data
      ensures Serialize(tracks)[k] == Fields(data[k])
    {
      FromDictInverse(data[k]);
    }
  }

  /** Saving one library and loading a new library over the same file gives the
      new library the first one's tracks. */
  method SaveThenReload(lib: TrackLibrary) returns (copy: TrackLibrary, r: Result<(), LoadError>)
    modifies lib.file
    ensures r.Ok? && copy.tracks == lib.tracks && copy.file == lib.file
  {
    lib.SaveToFile();
    copy := new TrackLibrary(lib.file);
    r := copy.LoadFromFile();
    LoadAfterSave(lib.tracks);
  }
}
