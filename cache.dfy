/**
 * The resolution store: user-confirmed song-to-track overrides, keyed by the lowercased
 * `title|artist|album` of the song, and the dictionary form songs are cached in
 * (src/kutx2spotify/cache.py). The JSON file behind the store is abstract: it is absent, or
 * present with contents that either decode to a map of entries or do not decode at all.
 */
module Cache {
  import opened Wrappers
  import opened Text
  import opened Models

  // ---------------------------------------------------------------------------
  // Songs as dictionaries (_song_to_dict / _dict_to_song)
  // ---------------------------------------------------------------------------

  /**
   * A value in a song dictionary. `Iso` stands for the `isoformat()` text of the play time,
   * which `fromisoformat` turns back into the same moment.
   */
  datatype Field = Str(s: string) | Int(n: int) | Iso(t: DateTime)

  type SongDict = map<string, Field>

  function SongToDict(song: Song): (d: SongDict)
    ensures d.Keys == {"title", "artist", "album", "duration_ms", "played_at"}
  {
    map["title" := Str(song.title), "artist" := Str(song.artist), "album" := Str(song.album),
        "duration_ms" := Int(song.durationMs), "played_at" := Iso(song.playedAt)]
  }

  /** The song a dictionary describes; a missing key is Python's `KeyError`, a value of the wrong kind an error too. */
  function DictToSong(d: SongDict): Result<Song, string> {
    if "title" !in d then Err("title")
    else if "artist" !in d then Err("artist")
    else if "album" !in d then Err("album")
    else if "duration_ms" !in d then Err("duration_ms")
    else if "played_at" !in d then Err("played_at")
    else
      match (d["title"], d["artist"], d["album"], d["duration_ms"], d["played_at"])
      case (Str(t), Str(a), Str(b), Int(n), Iso(p)) => Ok(Song(t, a, b, n, p))
      case _ => Err("type")
  }

  /** Song -> dict -> Song is the identity. */
  lemma SongDictRoundTrip(song: Song)
    ensures DictToSong(SongToDict(song)) == Ok(song)
  {
  }

  /** A dictionary that lacks one of the five keys is rejected, naming a missing key. */
  lemma DictMissingKeyRejected(d: SongDict)
    requires !({"title", "artist", "album", "duration_ms", "played_at"} <= d.Keys)
    ensures DictToSong(d).Err? && DictToSong(d).error !in d
  {
  }

  // ---------------------------------------------------------------------------
  // Resolutions and their key
  // ---------------------------------------------------------------------------

  /** A stored decision: the catalog URI to use, the album it belongs to, and a free-text note. */
  datatype Resolution = Resolution(spotifyUri: string, resolvedAlbum: string, note: string := "")

  /** One entry of the persisted map; `note` may be missing from an entry written by hand or by an older version. */
  datatype Entry = Entry(spotifyUri: string, resolvedAlbum: string, note: Option<string>)

  /** `_make_resolution_key`: `title|artist|album`, lowercased as a whole. */
  function ResolutionKey(song: Song): string {
    Lower(song.title + "|" + song.artist + "|" + song.album)
  }

  /** The key is the lowercased title, a '|', the lowercased artist, a '|' and the lowercased album. */
  lemma ResolutionKeyShape(song: Song)
    ensures ResolutionKey(song) == Lower(song.title) + "|" + Lower(song.artist) + "|" + Lower(song.album)
  {
    LowerConcat(song.title + "|" + song.artist + "|", song.album);
    LowerConcat(song.title + "|", song.artist);
    LowerConcat(song.title, "|");
    LowerConcat(song.title + "|" + song.artist, "|");
  }

  /** Songs whose title, artist and album differ only in letter case share one key. */
  lemma KeyIgnoresCase(s1: Song, s2: Song)
    requires Lower(s1.title) == Lower(s2.title)
    requires Lower(s1.artist) == Lower(s2.artist)
    requires Lower(s1.album) == Lower(s2.album)
    ensures ResolutionKey(s1) == ResolutionKey(s2)
  {
    ResolutionKeyShape(s1);
    ResolutionKeyShape(s2);
  }

  /** The key does not tell every two songs apart: a '|' inside a field can move between fields. */
  lemma KeyCanCollide(p: DateTime)
    ensures ResolutionKey(Song("a|b", "c", "", 0, p)) == ResolutionKey(Song("a", "b|c", "", 0, p))
  {
    ResolutionKeyShape(Song("a|b", "c", "", 0, p));
    ResolutionKeyShape(Song("a", "b|c", "", 0, p));
    assert Lower("a|b") == "a|b";
    assert Lower("c") == "c";
    assert Lower("a") == "a";
    assert Lower("b|c") == "b|c";
    assert Lower("") == "";
  }

  /** What `get` builds from a stored entry: a missing note reads as "". */
  function EntryResolution(e: Entry): (r: Resolution)
    ensures r.spotifyUri == e.spotifyUri && r.resolvedAlbum == e.resolvedAlbum
    ensures e.note.None? ==> r.note == ""
    ensures e.note.Some? ==> r.note == e.note.value
  {
    Resolution(e.spotifyUri, e.resolvedAlbum, e.note.GetOr(""))
  }

  /** What `set` writes for a resolution. */
  function StoredEntry(r: Resolution): (e: Entry)
    ensures EntryResolution(e) == r
  {
    Entry(r.spotifyUri, r.resolvedAlbum, Some(r.note))
  }

  /** `get` on the in-memory map. */
  function Lookup(data: map<string, Entry>, song: Song): (r: Option<Resolution>)
    ensures r.Some? <==> ResolutionKey(song) in data
    ensures r.Some? ==> r.value == EntryResolution(data[ResolutionKey(song)])
  {
    var key := ResolutionKey(song);
    if key in data then Some(EntryResolution(data[key])) else None
  }

  /** After storing `r` for a song, looking up that song or any case variant of it yields `r`. */
  lemma SetThenGet(data: map<string, Entry>, song: Song, r: Resolution, variant: Song)
    requires Lower(variant.title) == Lower(song.title)
    requires Lower(variant.artist) == Lower(song.artist)
    requires Lower(variant.album) == Lower(song.album)
    ensures Lookup(data[ResolutionKey(song) := StoredEntry(r)], variant) == Some(r)
  {
    KeyIgnoresCase(song, variant);
  }

  /** Storing under one key leaves every other key's lookup as it was. */
  lemma SetKeepsOthers(data: map<string, Entry>, song: Song, e: Entry, other: Song)
    requires ResolutionKey(other) != ResolutionKey(song)
    ensures Lookup(data[ResolutionKey(song) := e], other) == Lookup(data, other)
  {
  }

  /** `set` is an upsert: the count grows by one exactly when the key was new. */
  lemma SetCount(data: map<string, Entry>, key: string, e: Entry)
    ensures |data[key := e]| == |data| + (if key in data then 0 else 1)
  {
    if key in data {
      assert data[key := e].Keys == data.Keys;
    } else {
      assert data[key := e].Keys == data.Keys + {key};
    }
  }

  /** Removing a present key lowers the count by one and nothing else changes. */
  lemma RemoveCount(data: map<string, Entry>, key: string)
    requires key in data
    ensures |data - {key}| == |data| - 1
    ensures forall k :: k in data && k != key ==> k in data - {key} && (data - {key})[k] == data[k]
  {
    assert (data - {key}).Keys == data.Keys - {key};
  }

  // ---------------------------------------------------------------------------
  // The store object
  // ---------------------------------------------------------------------------

  /** The file behind the store: absent, or present with contents that decode (Some) or do not (None). */
  datatype StoreFile = Absent | Present(decoded: Option<map<string, Entry>>)

  /** `_load` reading the file: a missing or undecodable file counts as an empty store. */
  function LoadFile(f: StoreFile): (m: map<string, Entry>)
    ensures f.Absent? || f.decoded.None? ==> m == map[]
    ensures f.Present? && f.decoded.Some? ==> m == f.decoded.value
  {
    match f
    case Absent => map[]
    case Present(d) => d.GetOr(map[])
  }

  /** `ResolutionCache`: the map is read from the file on first use and the whole file is rewritten after every change. */
  class ResolutionCache {
    var file: StoreFile
    var data: Option<map<string, Entry>>

    /** The entries the store holds, read from the file if it has not been read yet. */
    function Contents(): map<string, Entry>
      reads this
    {
      if data.Some? then data.value else LoadFile(file)
    }

    constructor(file: StoreFile)
      ensures this.file == file && data.None?
      ensures Contents() == LoadFile(file)
    {
      this.file := file;
      data := None;
    }

    /** `_load`: fills the in-memory map on first use; never changes what the store holds. */
    method Load() returns (m: map<string, Entry>)
      modifies this`data
      ensures m == old(Contents()) && data == Some(m)
      ensures Contents() == old(Contents())
    {
      if data.Some? {
        return data.value;
      }
      m := LoadFile(file);
      data := Some(m);
    }

    /** `_save`: a whole-file rewrite of the in-memory map, if it has been loaded. */
    method Save()
      modifies this`file
      ensures data.Some? ==> file == Present(Some(data.value))
      ensures data.None? ==> file == old(file)
      ensures Contents() == old(Contents())
    {
      if data.None? {
        return;
      }
      file := Present(Some(data.value));
    }

    method Has(song: Song) returns (b: bool)
      modifies this`data
      ensures b <==> ResolutionKey(song) in old(Contents())
      ensures Contents() == old(Contents()) && file == old(file)
    {
      var m := Load();
      b := ResolutionKey(song) in m;
    }

    method Get(song: Song) returns (r: Option<Resolution>)
      modifies this`data
      ensures r == Lookup(old(Contents()), song)
      ensures Contents() == old(Contents()) && file == old(file)
    {
      var key := ResolutionKey(song);
      var m := Load();
      if key !in m {
        return None;
      }
      var entry := m[key];
      r := Some(Resolution(entry.spotifyUri, entry.resolvedAlbum, entry.note.GetOr("")));
    }

    /** `set`: upserts the entry for the song's key and persists the whole map. */
    method Set(song: Song, resolution: Resolution)
      modifies this
      ensures Contents() == old(Contents())[ResolutionKey(song) := StoredEntry(resolution)]
      ensures file == Present(Some(Contents()))
    {
      var key := ResolutionKey(song);
      var m := Load();
      data := Some(m[key := Entry(resolution.spotifyUri, resolution.resolvedAlbum, Some(resolution.note))]);
      Save();
    }

    /** `remove`: true iff the song's key was present; only then is the file rewritten. */
    method Remove(song: Song) returns (removed: bool)
      modifies this
      ensures removed <==> ResolutionKey(song) in old(Contents())
      ensures Contents() == old(Contents()) - {ResolutionKey(song)}
      ensures removed ==> file == Present(Some(Contents()))
      ensures !removed ==> file == old(file)
    {
      var key := ResolutionKey(song);
      var m := Load();
      if key !in m {
        return false;
      }
      data := Some(m - {key});
      Save();
      removed := true;
    }

    /** `clear`: empties the store and returns how many entries it held. */
    method Clear() returns (n: nat)
      modifies this
      ensures n == |old(Contents())|
      ensures Contents() == map[] && file == Present(Some(map[]))
    {
      var m := Load();
      n := |m|;
      data := Some(map[]);
      Save();
    }

    method Count() returns (n: nat)
      modifies this`data
      ensures n == |old(Contents())|
      ensures Contents() == old(Contents()) && file == old(file)
    {
      var m := Load();
      n := |m|;
    }
  }

  /** A store opened on the file a store has written holds what that store held. */
  lemma ReopenAfterSave(m: map<string, Entry>)
    ensures LoadFile(Present(Some(m))) == m
  {
  }
}
