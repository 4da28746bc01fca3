/**
 * The track record of the jukebox (class Track of track_library.py) and its
 * conversion to and from the flat, string-keyed record the store holds.
 */
module Tracks {
  import opened Wrappers

  /** A value held under one key of a stored record. Only the two kinds a track's
      fields take are modelled: text, and whole numbers. */
  datatype Value = VStr(s: string) | VInt(i: int)

  /** A flat record keyed by field name, as one track appears in the store. */
  type Record = map<string, Value>

  /** One catalogue entry: the song's metadata and its usage counters. */
  datatype Track = Track(name: string, artist: string, youtubeUrl: string, playCount: int, rating: int)

  /** The keys of a stored track, in the order the track's fields are read back. */
  const FieldKeys: seq<string> := ["name", "artist", "youtube_url", "play_count", "rating"]

  /** The same keys as a set (FieldKeysAgree proves the two agree). */
  const RequiredKeys: set<string> := {"name", "artist", "youtube_url", "play_count", "rating"}

  /** The two spellings of the field keys name the same five keys. */
  lemma FieldKeysAgree()
    ensures RequiredKeys == set k | k in FieldKeys
    ensures |FieldKeys| == |RequiredKeys|
  {
  }

  /** Why a record cannot be turned back into a track. */
  datatype FieldError =
    | MissingKey(key: string)   // the key is absent from the record
    | WrongKind(key: string)    // the key holds text where a number belongs, or the reverse

  /** Builds a track; the play count and the rating default to zero. */
  function NewTrack(name: string, artist: string, youtubeUrl: string, playCount: int := 0, rating: int := 0): (t: Track)
    ensures t.name == name && t.artist == artist && t.youtubeUrl == youtubeUrl
    ensures t.playCount == playCount && t.rating == rating
  {
    Track(name, artist, youtubeUrl, playCount, rating)
  }

  /** A track made from a name, an artist and a link alone has never been played and is unrated. */
  lemma NewTrackDefaults(name: string, artist: string, youtubeUrl: string)
    ensures NewTrack(name, artist, youtubeUrl).playCount == 0
    ensures NewTrack(name, artist, youtubeUrl).rating == 0
  {
  }

  /** The record that stores a track: each field under its own key, and nothing else. */
  function ToDict(t: Track): (d: Record)
    ensures d.Keys == RequiredKeys
    ensures d["name"] == VStr(t.name) && d["artist"] == VStr(t.artist) && d["youtube_url"] == VStr(t.youtubeUrl)
    ensures d["play_count"] == VInt(t.playCount) && d["rating"] == VInt(t.rating)
  {
    map["name" := VStr(t.name), "artist" := VStr(t.artist), "youtube_url" := VStr(t.youtubeUrl),
        "play_count" := VInt(t.playCount), "rating" := VInt(t.rating)]
  }

  /**
   * Rebuilds a track from a record. The five fields are looked up in turn, so a
   * record lacking several keys fails on the first of them; keys beyond the
   * five are never looked at.
   */
  function FromDict(d: Record): (r: Result<Track, FieldError>)
    ensures r.Ok? ==> RequiredKeys <= d.Keys
  {
    if "name" !in d then Err(MissingKey("name"))
    else if "artist" !in d then Err(MissingKey("artist"))
    else if "youtube_url" !in d then Err(MissingKey("youtube_url"))
    else if "play_count" !in d then Err(MissingKey("play_count"))
    else if "rating" !in d then Err(MissingKey("rating"))
    else if !d["name"].VStr? then Err(WrongKind("name"))
    else if !d["artist"].VStr? then Err(WrongKind("artist"))
    else if !d["youtube_url"].VStr? then Err(WrongKind("youtube_url"))
    else if !d["play_count"].VInt? then Err(WrongKind("play_count"))
    else if !d["rating"].VInt? then Err(WrongKind("rating"))
    else Ok(Track(d["name"].s, d["artist"].s, d["youtube_url"].s, d["play_count"].i, d["rating"].i))
  }

  /** The part of a record that FromDict reads: its entries under the five field keys. */
  function Fields(d: Record): (f: Record)
    ensures f.Keys == d.Keys * RequiredKeys
    ensures forall k :: k in f ==> f[k] == d[k]
  {
    map k | k in d && k in RequiredKeys :: d[k]
  }

  /** A record that a track can be rebuilt from: every field key present, holding a value of its field's kind. */
  predicate Conforms(d: Record)
  {
    && RequiredKeys <= d.Keys
    && d["name"].VStr? && d["artist"].VStr? && d["youtube_url"].VStr?
    && d["play_count"].VInt? && d["rating"].VInt?
  }

  /** A record in which every field key that is present holds a value of its field's kind. */
  predicate WellKinded(d: Record)
  {
    && ("name" in d ==> d["name"].VStr?)
    && ("artist" in d ==> d["artist"].VStr?)
    && ("youtube_url" in d ==> d["youtube_url"].VStr?)
    && ("play_count" in d ==> d["play_count"].VInt?)
    && ("rating" in d ==> d["rating"].VInt?)
  }

  /** On records whose values have their fields' kinds, reading back fails only as
      the Python code does: exactly when a field key is missing. */
  lemma FromDictSucceedsOnKeys(d: Record)
    requires WellKinded(d)
    ensures FromDict(d).Ok? <==> RequiredKeys <= d.Keys
  {
  }

  /** Storing a track and reading it back gives the same track, field for field. */
  lemma RoundTrip(t: Track)
    ensures FromDict(ToDict(t)) == Ok(t)
  {
  }

  /** Reading back succeeds exactly on the records that conform. */
  lemma FromDictSucceedsIff(d: Record)
    ensures FromDict(d).Ok? <==> Conforms(d)
  {
  }

  /** A missing field key is the failure reported whenever one is missing, and only then;
      the reported key is the first one absent in field order. */
  lemma FromDictMissingKey(d: Record)
    ensures (FromDict(d).Err? && FromDict(d).error.MissingKey?) <==> !(RequiredKeys <= d.Keys)
    ensures FromDict(d).Err? && FromDict(d).error.MissingKey? ==>
      exists i :: 0 <= i < |FieldKeys| && FieldKeys[i] == FromDict(d).error.key && FieldKeys[i] !in d &&
        forall j :: 0 <= j < i ==> FieldKeys[j] in d
  {
    var i := if "name" !in d then 0 else if "artist" !in d then 1 else if "youtube_url" !in d then 2
             else if "play_count" !in d then 3 else 4;
    if !(RequiredKeys <= d.Keys) {
      assert FieldKeys[i] == FromDict(d).error.key && FieldKeys[i] !in d;
    }
  }

  /** Keys other than the five fields make no difference to reading a record back. */
  lemma FromDictIgnoresExtraKeys(d: Record, e: Record)
    requires Fields(d) == Fields(e)
    ensures FromDict(d) == FromDict(e)
  {
    forall k | k in RequiredKeys
      ensures (k in d <==> k in e) && (k in d ==> d[k] == e[k])
    {
      assert k in d <==> k in Fields(d);
      assert k in e <==> k in Fields(e);
    }
  }

  /** Reading back is a left inverse of storing: a record that reads back as t is
      ToDict(t) plus keys that are ignored. */
  lemma FromDictInverse(d: Record)
    requires FromDict(d).Ok?
    ensures ToDict(FromDict(d).value) == Fields(d)
  {
  }
}
