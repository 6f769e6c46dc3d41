/** The catalog tables that name tracks, and what it means to rename tracks in all of them at once. */
module TrackTables {

  datatype Track = Track(
    title: string, artist: string, artistId: string, album: string, albumId: string, albumArtist: string,
    albumArtistId: string, trackNumber: int, discNumber: int, year: int, genre: string, durationMs: int, size: int,
    bitRate: int, suffix: string, contentType: string, coverArtId: string)

  /** Rows are keyed by whatever identifies them; the values are the track ids they name. `albumAliases` has no other
      column than its key, and `aliases` maps an old track id to the track it stands for. */
  datatype Tables = Tables(
    tracks: map<string, Track>,
    sources: map<string, string>,
    albumAliases: set<(string, string, string)>,
    playlists: map<string, string>,
    queues: map<string, string>,
    current: map<string, string>,
    aliases: map<string, string>)

  /** The substitution given by `names`. */
  function Sub(names: map<string, string>, id: string): string {
    if id in names then names[id] else id
  }

  function RenamedRefs(refs: map<string, string>, names: map<string, string>): map<string, string> {
    map r | r in refs :: Sub(names, refs[r])
  }

  function RenamedAlbums(rows: set<(string, string, string)>,
                         names: map<string, string>): set<(string, string, string)> {
    set row | row in rows :: (row.0, row.1, Sub(names, row.2))
  }

  /** Old aliases follow their track, and every renamed id becomes an alias itself. */
  function RenamedAliases(aliases: map<string, string>, names: map<string, string>): map<string, string> {
    map a | a in aliases.Keys + names.Keys :: if a in names then names[a] else Sub(names, aliases[a])
  }

  /** One simultaneous renaming of everything that refers to tracks. */
  function Renamed(t: Tables, names: map<string, string>): Tables {
    Tables(t.tracks, RenamedRefs(t.sources, names), RenamedAlbums(t.albumAliases, names),
           RenamedRefs(t.playlists, names),
           RenamedRefs(t.queues, names), RenamedRefs(t.current, names), RenamedAliases(t.aliases, names))
  }

  // One rename, as the statements of the migration do it.

  /** UPDATE ... SET track_id = new WHERE track_id = old */
  function Updated(refs: map<string, string>, oldId: string, newId: string): map<string, string> {
    map r | r in refs :: if refs[r] == oldId then newId else refs[r]
  }

  /** INSERT OR IGNORE copies of the old track's rows. */
  function Copied(rows: set<(string, string, string)>, oldId: string, newId: string): set<(string, string, string)> {
    rows + set row | row in rows && row.2 == oldId :: (row.0, row.1, newId)
  }

  function Without(rows: set<(string, string, string)>, oldId: string): set<(string, string, string)> {
    set row | row in rows && row.2 != oldId
  }

  function Moved(t: Tables, oldId: string, newId: string): Tables {
    Tables(
      t.tracks - {oldId},
      Updated(t.sources, oldId, newId),
      Without(Copied(t.albumAliases, oldId, newId), oldId),
      Updated(t.playlists, oldId, newId),
      Updated(t.queues, oldId, newId),
      Updated(t.current, oldId, newId),
      Updated(t.aliases, oldId, newId)[oldId := newId])
  }

  lemma UpdateIsRename(refs: map<string, string>, oldId: string, newId: string)
    ensures Updated(refs, oldId, newId) == RenamedRefs(refs, map[oldId := newId])
  {
  }

  lemma AlbumMoveIsRename(rows: set<(string, string, string)>, oldId: string, newId: string)
    requires oldId != newId
    ensures Without(Copied(rows, oldId, newId), oldId) == RenamedAlbums(rows, map[oldId := newId])
  {
    var names := map[oldId := newId];
    forall row | row in Without(Copied(rows, oldId, newId), oldId) ensures row in RenamedAlbums(rows, names) {
      if row in rows {
        assert row == (row.0, row.1, Sub(names, row.2));
      } else {
        var was :| was in rows && was.2 == oldId && row == (was.0, was.1, newId);
        assert row == (was.0, was.1, Sub(names, was.2));
      }
    }
    forall row | row in RenamedAlbums(rows, names) ensures row in Without(Copied(rows, oldId, newId), oldId) {
      var was :| was in rows && row == (was.0, was.1, Sub(names, was.2));
    }
  }

  lemma AliasMoveIsRename(aliases: map<string, string>, oldId: string, newId: string)
    ensures Updated(aliases, oldId, newId)[oldId := newId] == RenamedAliases(aliases, map[oldId := newId])
  {
  }

  lemma MoveIsRename(t: Tables, oldId: string, newId: string)
    requires oldId != newId
    ensures Moved(t, oldId, newId) == Renamed(t, map[oldId := newId]).(tracks := t.tracks - {oldId})
  {
    AlbumMoveIsRename(t.albumAliases, oldId, newId);
    UpdateIsRename(t.sources, oldId, newId);
    UpdateIsRename(t.playlists, oldId, newId);
    UpdateIsRename(t.queues, oldId, newId);
    UpdateIsRename(t.current, oldId, newId);
    AliasMoveIsRename(t.aliases, oldId, newId);
    hide Updated, RenamedRefs, RenamedAlbums, RenamedAliases, Copied, Without;
  }

  // Renaming step by step.

  /** One more rename may follow if it neither renames a name given before nor gives a name taken away. */
  predicate Compatible(names: map<string, string>, oldId: string, newId: string) {
    && oldId != newId && oldId !in names && newId !in names
    && forall id :: id in names ==> names[id] != oldId
  }

  lemma SubTwice(names: map<string, string>, oldId: string, newId: string, id: string)
    requires Compatible(names, oldId, newId)
    ensures Sub(map[oldId := newId], Sub(names, id)) == Sub(names[oldId := newId], id)
  {
  }

  lemma RefsRenamedTwice(refs: map<string, string>, names: map<string, string>, oldId: string, newId: string)
    requires Compatible(names, oldId, newId)
    ensures RenamedRefs(RenamedRefs(refs, names), map[oldId := newId]) == RenamedRefs(refs, names[oldId := newId])
  {
  }

  lemma AlbumsRenamedTwice(rows: set<(string, string, string)>, names: map<string, string>, oldId: string,
                           newId: string)
    requires Compatible(names, oldId, newId)
    ensures RenamedAlbums(RenamedAlbums(rows, names), map[oldId := newId]) == RenamedAlbums(rows, names[oldId := newId])
  {
    var once := RenamedAlbums(rows, names);
    forall row | row in RenamedAlbums(once, map[oldId := newId])
      ensures row in RenamedAlbums(rows, names[oldId := newId]) {
      var mid :| mid in once && row == (mid.0, mid.1, Sub(map[oldId := newId], mid.2));
      var was :| was in rows && mid == (was.0, was.1, Sub(names, was.2));
      SubTwice(names, oldId, newId, was.2);
      assert row == (was.0, was.1, Sub(names[oldId := newId], was.2));
    }
    forall row | row in RenamedAlbums(rows, names[oldId := newId])
      ensures row in RenamedAlbums(once, map[oldId := newId]) {
      var was :| was in rows && row == (was.0, was.1, Sub(names[oldId := newId], was.2));
      SubTwice(names, oldId, newId, was.2);
      var mid := (was.0, was.1, Sub(names, was.2));
      assert mid in once;
      assert row == (mid.0, mid.1, Sub(map[oldId := newId], mid.2));
    }
  }

  lemma AliasesRenamedTwice(aliases: map<string, string>, names: map<string, string>, oldId: string, newId: string)
    requires Compatible(names, oldId, newId)
    ensures RenamedAliases(RenamedAliases(aliases, names), map[oldId := newId])
            == RenamedAliases(aliases, names[oldId := newId])
  {
  }

  /** Renaming one id after the others is renaming all of them at once. */
  lemma RenamedTwice(t: Tables, names: map<string, string>, oldId: string, newId: string)
    requires Compatible(names, oldId, newId)
    ensures Renamed(Renamed(t, names), map[oldId := newId]) == Renamed(t, names[oldId := newId])
  {
    RefsRenamedTwice(t.sources, names, oldId, newId);
    AlbumsRenamedTwice(t.albumAliases, names, oldId, newId);
    RefsRenamedTwice(t.playlists, names, oldId, newId);
    RefsRenamedTwice(t.queues, names, oldId, newId);
    RefsRenamedTwice(t.current, names, oldId, newId);
    AliasesRenamedTwice(t.aliases, names, oldId, newId);
    hide RenamedRefs, RenamedAlbums, RenamedAliases;
  }
}
