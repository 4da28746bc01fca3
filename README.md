# JKBOX track library, modelled in Dafny

The JKBOX jukebox keeps a catalogue of songs. Each song is a *track*: its name, its artist, a YouTube link, a play count and a rating. A *track library* holds the tracks in a map keyed by name. It saves the whole map to a JSON file and loads it back from that file. This project models that core (`JKBOX.py/track_library.py`) and proves its properties:

- `wrappers.dfy`: `Option` and `Result`, used for the missing file and for the error paths.
- `tracks.dfy` (module `Tracks`): the `Track` record, its default values, and the conversion to and from a flat string-keyed record (`to_dict` / `from_dict`). A record is `map<string, Value>`, where `Value` is text or a whole number.
- `library.dfy` (module `Library`): the class `TrackLibrary`. It has a `tracks` map field and a backing file, `FileStore`, whose `contents` is `None` while the file does not exist. `SaveToFile` overwrites the file with the whole serialized map. `LoadFromFile` replaces the whole map with what the file holds.
- `player.dfy` (module `Player`): the play handler of the viewer window (`JKBOX.py/track_player.py`). It bumps a track's play count and returns its link. This is user-interface code, modelled only for its effect on the library.

The Python code passes no file to `TrackLibrary()`; it always uses `library.json` in the working directory. The model passes the file to the constructor as a `FileStore` object instead. Two libraries built on the same `FileStore` then share one file, as two Python libraries share `library.json`.

How the Python code and the model behave on the points where they differ:
- `from_dict` checks no types (`JKBOX.py/track_library.py:26-32`). It raises `KeyError` only when a key is missing, and that propagates out of `load_from_file`. The model's `Track` fields have fixed types, so `FromDict` also checks the kind of each value and rejects a mismatch with `WrongKind`. A file that Python would load can therefore fail to load in the model. `Tracks.FromDictSucceedsOnKeys` shows this is the only difference: when every value has its field's kind, reading back fails exactly when a key is missing. In the model, a failed load returns `LoadError.CorruptRecords`, which collects the error of each failing record.
- `save_to_file` opens the file for writing, which truncates it, before dumping the data (`JKBOX.py/track_library.py:41-44`).

## Model

| member | source | states |
|---|---|---|
| `Tracks.NewTrack` | JKBOX.py/track_library.py:5-11 | each field of the new track holds the matching argument; play count and rating default to 0 |
| `Tracks.NewTrackDefaults` | JKBOX.py/track_library.py:5 | a track built from a name, an artist and a link alone has play count 0 and rating 0 |
| `Tracks.ToDict` | JKBOX.py/track_library.py:13-21 | the record has exactly the keys name, artist, youtube_url, play_count and rating, each holding the matching field |
| `Tracks.FromDict` | JKBOX.py/track_library.py:23-32 | a successful read means every one of the five field keys was present |
| `Tracks.Fields` | JKBOX.py/track_library.py:26-32 | the part of a record that reading back looks at: exactly its entries under the five field keys |
| `Tracks.FieldKeysAgree` | JKBOX.py/track_library.py:15-21 | the ordered list of field keys and the key set name the same five keys, with none repeated |
| `Tracks.FromDictSucceedsOnKeys` | JKBOX.py/track_library.py:24-32 | on a record whose values have their fields' kinds, reading back succeeds if and only if all five keys are present, which is Python's own success condition |
| `Tracks.RoundTrip` | JKBOX.py/track_library.py:13-32 | reading back a stored track succeeds and gives the same track, field for field |
| `Tracks.FromDictSucceedsIff` | JKBOX.py/track_library.py:24-32 | reading back succeeds if and only if all five keys are present with values of their fields' kinds |
| `Tracks.FromDictMissingKey` | JKBOX.py/track_library.py:26-32 | reading back fails with a missing key if and only if some field key is absent; the key reported is the first absent one in the order name, artist, youtube_url, play_count, rating |
| `Tracks.FromDictIgnoresExtraKeys` | JKBOX.py/track_library.py:26-32 | two records that agree on the five field keys read back the same, whatever other keys they hold |
| `Tracks.FromDictInverse` | JKBOX.py/track_library.py:13-32 | a record that reads back as track t equals ToDict(t) once its extra keys are dropped |
| `Library.Serialize` | JKBOX.py/track_library.py:43 | the stored map has exactly the library's keys, copied as they are even when a key differs from its track's name; each key holds ToDict of its track |
| `Library.Failures` | JKBOX.py/track_library.py:52 | exactly the stored keys whose record cannot be read back, each with the error reading it back reports |
| `Library.Deserialize` | JKBOX.py/track_library.py:51-52 | succeeds if and only if every stored record reads back; then it has the stored keys, each holding its record's track; otherwise it reports every failing record and produces no map |
| `Library.Load` | JKBOX.py/track_library.py:46-54 | with no file the result is the empty map; with a file it succeeds if and only if every stored record reads back, and then has the stored keys, each holding its record's track |
| `Library.FileStore.constructor` | JKBOX.py/track_library.py:41-53 | the backing file, which stands for `library.json`, starts with the given contents; no contents means the file does not exist |
| `Library.TrackLibrary.constructor` | JKBOX.py/track_library.py:36-37 | a new library has an empty track map |
| `Library.TrackLibrary.SaveToFile` | JKBOX.py/track_library.py:39-44 | the file afterwards holds the serialized whole library, replacing what it held; the track map is unchanged |
| `Library.TrackLibrary.LoadFromFile` | JKBOX.py/track_library.py:46-54 | a missing file empties the map and succeeds; a file whose records all read back replaces the whole map; a file with a failing record fails and leaves the map as it was |
| `Library.LoadAfterSave` | JKBOX.py/track_library.py:39-54 | loading what was saved succeeds and gives back the same map: same keys, same tracks |
| `Library.LoadMissingFile` | JKBOX.py/track_library.py:53-54 | loading with no file gives the empty map and does not fail |
| `Library.LoadFailsIff` | JKBOX.py/track_library.py:51-52 | loading an existing file fails if and only if some stored record cannot be read back, and the failure names every such record |
| `Library.SaveAfterLoad` | JKBOX.py/track_library.py:39-52 | saving right after a successful load writes the same keys, and each record agrees with the file on its five field keys |
| `Library.SaveThenReload` | JKBOX.py/track_library.py:36-54 | saving a library and loading a new library over the same file succeeds and gives the new library the same tracks |
| `Player.Played` | JKBOX.py/track_player.py:70 | one play raises the play count by one and changes no other field |
| `Player.PlayedTimesCount` | JKBOX.py/track_player.py:70 | n plays raise the play count by exactly n and leave the other fields as they were |
| `Player.PlaySelectedTrack` | JKBOX.py/track_player.py:63-74 | an unknown key fails and changes nothing; otherwise only that track changes, by one play, and its link is returned |

## Left out

- Add, find, update and remove operations. They live in `create_track_list.py` and `update_track.py`, which are not part of this model.
- JSON text: encoding, decoding, indentation and malformed-JSON errors belong to Python's `json` library. The file is modelled as the decoded map it holds, and other JSON kinds (floats, booleans, null, lists, nested objects) as field values are not modelled.
- Ratings are whole numbers only. Python would also accept a float.
- File I/O failures other than a missing file: opening errors, permission errors and partial writes. Because the file is truncated before writing, a write that fails partway would destroy the old contents. The model has no failing write.
- Tracks.FromDict: Python checks no types, so a text play count or a numeric name would be stored in the track as it is. The model's fields have fixed types, so the model reports such a record as `WrongKind`. This error has no counterpart in the source. It is checked only after all five keys are found present, so every record that Python rejects with `KeyError` is rejected here with the same key.
- Library.Deserialize: Python raises the `KeyError` of the first failing record in file order. The model's stored map has no order, so it reports every failing record with its error instead of picking one.
- The start-up fallback in `MainApplication` (`JKBOX.py/track_player.py:85-89`). It catches any load failure and sets `tracks` to an empty list rather than a map. This is UI code, and it turns the library's field into a different type.
- Player.PlaySelectedTrack: the tkinter selection lookup, the refresh of the tree view and the `webbrowser.open` call are user-interface effects and are not modelled. The link that would be opened is returned instead. An empty selection, which would raise `IndexError`, is not modelled.
- The rest of `track_player.py`: windows, layouts and theming.
