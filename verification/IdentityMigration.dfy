/** The migration to canonical artist and album ids: legacy ids are mapped when every track agrees on what they mean. */
module IdentityMigration {
  import opened Common
  import opened Annotations

  /** What the migration reads of a track. */
  datatype Row = Row(trackId: string, artist: string, artistId: string, album: string, albumId: string,
                     albumArtist: string, albumArtistId: string)

  /** The identity columns of a track. */
  datatype Identity = Identity(artistId: string, albumId: string, albumArtistId: string)

  /** Canonical ids are hashes of names and never empty. */
  datatype Canon = Canon(artist: string -> string, album: (string, string) -> string)

  ghost predicate Proper(canon: Canon) {
    (forall name :: canon.artist(name) != "") && (forall artist, album :: canon.album(artist, album) != "")
  }

  /** A legacy id and what one track says it means. */
  datatype Claim = Claim(legacy: string, canonical: string)

  function Added(mappings: map<string, string>, claim: Claim): map<string, string> {
    if claim.legacy == "" then mappings
    else if claim.legacy in mappings && mappings[claim.legacy] != claim.canonical then mappings[claim.legacy := ""]
    else if claim.legacy !in mappings then mappings[claim.legacy := claim.canonical]
    else mappings
  }

  function AllAdded(claims: seq<Claim>): map<string, string> {
    if claims == [] then map[] else Added(AllAdded(claims[..|claims| - 1]), claims[|claims| - 1])
  }

  /** Everything that is claimed about a legacy id. */
  function Meanings(claims: seq<Claim>, legacy: string): set<string> {
    set claim | claim in claims && claim.legacy == legacy :: claim.canonical
  }

  /** No claim says nothing, one opinion counts, two cancel out. */
  ghost function Verdict(meanings: set<string>): Option<string> {
    if meanings == {} then None
    else
      var one :| one in meanings;
      Some(if meanings == {one} then one else "")
  }

  lemma VerdictWithOneMore(meanings: set<string>, more: string)
    requires "" !in meanings && more != ""
    ensures Verdict(meanings + {more}) ==
            if meanings == {} || Verdict(meanings) == Some(more) then Some(more) else Some("")
  {
    var one :| one in meanings + {more}
               && Verdict(meanings + {more}) == Some(if meanings + {more} == {one} then one else "");
    if meanings != {} {
      var two :| two in meanings && Verdict(meanings) == Some(if meanings == {two} then two else "");
      if meanings == {two} && two == more {
        assert meanings + {more} == {more};
      } else {
        assert meanings + {more} != {one} by {
          if meanings == {two} {
            assert two in meanings + {more} && more in meanings + {more};
          } else {
            var three :| three in meanings && three != two;
            assert two in meanings + {more} && three in meanings + {more};
          }
        }
      }
    }
  }

  ghost predicate Meaningful(claims: seq<Claim>) {
    forall claim :: claim in claims ==> claim.canonical != ""
  }

  /** A legacy id is mapped to its meaning exactly if all claims about it agree, to nothing exactly if two differ,
      and is absent exactly if none is made. */
  lemma {:induction false} MappingIsVerdict(claims: seq<Claim>, legacy: string)
    requires Meaningful(claims) && legacy != ""
    ensures Lookup(AllAdded(claims), legacy) == Verdict(Meanings(claims, legacy))
  {
    if claims != [] {
      var few, last := claims[..|claims| - 1], claims[|claims| - 1];
      assert claims == few + [last] && last in claims;
      MappingIsVerdict(few, legacy);
      if last.legacy == legacy {
        assert Meanings(claims, legacy) == Meanings(few, legacy) + {last.canonical};
        VerdictWithOneMore(Meanings(few, legacy), last.canonical);
      } else {
        assert Meanings(claims, legacy) == Meanings(few, legacy);
      }
    }
  }

  lemma {:induction false} EmptyIsNeverMapped(claims: seq<Claim>)
    ensures "" !in AllAdded(claims)
  {
    if claims != [] {
      EmptyIsNeverMapped(claims[..|claims| - 1]);
    }
  }

  /** Only what is claimed matters, not in which order or how often. */
  lemma MappingIgnoresOrder(claims: seq<Claim>, other: seq<Claim>)
    requires Meaningful(claims) && forall claim :: claim in claims <==> claim in other
    ensures AllAdded(claims) == AllAdded(other)
  {
    EmptyIsNeverMapped(claims);
    EmptyIsNeverMapped(other);
    forall legacy ensures Lookup(AllAdded(claims), legacy) == Lookup(AllAdded(other), legacy) {
      if legacy != "" {
        MappingIsVerdict(claims, legacy);
        MappingIsVerdict(other, legacy);
        assert Meanings(claims, legacy) == Meanings(other, legacy);
      }
    }
    SameLookups(AllAdded(claims), AllAdded(other));
  }

  // What the tracks claim.

  function AlbumArtist(row: Row): string {
    if row.albumArtist == "" then row.artist else row.albumArtist
  }

  function Canonical(canon: Canon, row: Row): Identity {
    Identity(canon.artist(row.artist), canon.album(AlbumArtist(row), row.album), canon.artist(AlbumArtist(row)))
  }

  function ArtistClaims(canon: Canon, rows: seq<Row>): seq<Claim> {
    if rows == [] then []
    else
      var row := rows[|rows| - 1];
      ArtistClaims(canon, rows[..|rows| - 1])
      + [Claim(row.artistId, canon.artist(row.artist)), Claim(row.albumArtistId, canon.artist(AlbumArtist(row)))]
  }

  function AlbumClaims(canon: Canon, rows: seq<Row>): seq<Claim> {
    if rows == [] then []
    else
      var row := rows[|rows| - 1];
      AlbumClaims(canon, rows[..|rows| - 1]) + [Claim(row.albumId, canon.album(AlbumArtist(row), row.album))]
  }

  lemma {:induction false} ClaimsAreMeaningful(canon: Canon, rows: seq<Row>)
    requires Proper(canon)
    ensures Meaningful(ArtistClaims(canon, rows)) && Meaningful(AlbumClaims(canon, rows))
  {
    if rows != [] {
      ClaimsAreMeaningful(canon, rows[..|rows| - 1]);
    }
  }

  // The tables.

  class Catalog {
    var identities: map<string, Identity>
    var annotations: seq<Annotation>

    method AddIdentityMapping(mappings: map<string, string>, oldId: string, newId: string)
      returns (added: map<string, string>)
      ensures added == Added(mappings, Claim(oldId, newId))
    {
      added := mappings;
      if oldId == "" {
        return;
      }
      if oldId in added && added[oldId] != newId {
        added := added[oldId := ""];
        return;
      }
      if oldId !in added {
        added := added[oldId := newId];
      }
    }

    method CatalogIdentityUpdates(canon: Canon, rows: seq<Row>)
      returns (updates: seq<Identity>, artistIds: map<string, string>, albumIds: map<string, string>)
      ensures |updates| == |rows| && forall k :: 0 <= k < |rows| ==> updates[k] == Canonical(canon, rows[k])
      ensures artistIds == AllAdded(ArtistClaims(canon, rows)) && albumIds == AllAdded(AlbumClaims(canon, rows))
    {
      hide AllAdded, Added;
      updates, artistIds, albumIds := [], map[], map[];
      var n := 0;
      NothingAdded();
      while n < |rows|
        invariant n <= |rows| && |updates| == n
        invariant forall k :: 0 <= k < n ==> updates[k] == Canonical(canon, rows[k])
        invariant artistIds == AllAdded(ArtistClaims(canon, rows[..n]))
                  && albumIds == AllAdded(AlbumClaims(canon, rows[..n]))
      {
        var row := rows[n];
        var albumArtist := row.albumArtist;
        if albumArtist == "" {
          albumArtist := row.artist;
        }
        var artistId := canon.artist(row.artist);
        var albumArtistId := canon.artist(albumArtist);
        var albumId := canon.album(albumArtist, row.album);
        updates := updates + [Identity(artistId, albumId, albumArtistId)];
        ClaimsOfOneMore(canon, rows, n);
        artistIds := AddIdentityMapping(artistIds, row.artistId, artistId);
        artistIds := AddIdentityMapping(artistIds, row.albumArtistId, albumArtistId);
        albumIds := AddIdentityMapping(albumIds, row.albumId, albumId);
        n := n + 1;
      }
      assert rows[..n] == rows;
    }

    /** The rows are updated one by one; together that is one assignment to all of them. */
    method UpdateTracks(rows: seq<Row>, updates: seq<Identity>)
      requires |updates| == |rows|
      requires forall k, l :: 0 <= k < l < |rows| ==> rows[k].trackId != rows[l].trackId
      modifies this`identities
      ensures identities.Keys == old(identities).Keys
      ensures forall k :: 0 <= k < |rows| && rows[k].trackId in identities ==> identities[rows[k].trackId] == updates[k]
      ensures forall id :: id in identities && (forall k :: 0 <= k < |rows| ==> rows[k].trackId != id) ==>
                identities[id] == old(identities)[id]
    {
      var n := 0;
      while n < |rows|
        invariant n <= |rows| && identities.Keys == old(identities).Keys
        invariant forall k :: 0 <= k < n && rows[k].trackId in identities ==> identities[rows[k].trackId] == updates[k]
        invariant forall id :: id in identities && (forall k :: 0 <= k < n ==> rows[k].trackId != id) ==>
                    identities[id] == old(identities)[id]
      {
        if rows[n].trackId in identities {
          identities := identities[rows[n].trackId := updates[n]];
        }
        n := n + 1;
      }
    }

    /** Artist and album annotations are renamed, merged and inserted again, in any order. Other rows stay. */
    method MigrateIdentityAnnotations(artistIds: map<string, string>, albumIds: map<string, string>, keys: seq<string>)
      returns (ghost inserted: seq<Annotation>)
      requires Enumerates(keys, Merged(RenamedRows(IdentityRows(annotations), Mappings(artistIds, albumIds)),
                                       IdentityKey))
      modifies this`annotations
      ensures annotations == SongRows(old(annotations)) + inserted
      ensures Lists(inserted, Merged(RenamedRows(IdentityRows(old(annotations)), Mappings(artistIds, albumIds)),
                                     IdentityKey), keys)
      ensures AllPlays(inserted) == AllPlays(IdentityRows(old(annotations)))
    {
      ghost var renamed := RenamedRows(IdentityRows(annotations), Mappings(artistIds, albumIds));
      var merged := MergeRows(IdentityRows(annotations), Mappings(artistIds, albumIds), IdentityKey);
      hide Merged, Sums, Mappings, IdentityRows, SongRows;
      var written := InsertAll(merged, keys);
      inserted := written;
      PlaysAreConserved(renamed, IdentityKey, inserted, keys);
      RenamingKeepsPlays(IdentityRows(annotations), Mappings(artistIds, albumIds));
      annotations := SongRows(annotations) + written;
    }
  }

  function Mappings(artistIds: map<string, string>, albumIds: map<string, string>): Annotation -> map<string, string> {
    (a: Annotation) => if a.media == Album then albumIds else artistIds
  }

  lemma NothingAdded()
    ensures AllAdded([]) == map[]
  {
  }

  lemma ClaimsOfOneMore(canon: Canon, rows: seq<Row>, n: nat)
    requires n < |rows|
    ensures var row, artists, albums :=
              rows[n], AllAdded(ArtistClaims(canon, rows[..n])), AllAdded(AlbumClaims(canon, rows[..n]));
            && AllAdded(ArtistClaims(canon, rows[..n + 1]))
               == Added(Added(artists, Claim(row.artistId, canon.artist(row.artist))),
                        Claim(row.albumArtistId, canon.artist(AlbumArtist(row))))
            && AllAdded(AlbumClaims(canon, rows[..n + 1]))
               == Added(albums, Claim(row.albumId, canon.album(AlbumArtist(row), row.album)))
  {
    var row := rows[n];
    assert rows[..n + 1][..n] == rows[..n];
    TwoMore(ArtistClaims(canon, rows[..n]), Claim(row.artistId, canon.artist(row.artist)),
            Claim(row.albumArtistId, canon.artist(AlbumArtist(row))));
    OneMore(AlbumClaims(canon, rows[..n]), Claim(row.albumId, canon.album(AlbumArtist(row), row.album)));
  }

  lemma OneMore(claims: seq<Claim>, a: Claim)
    ensures AllAdded(claims + [a]) == Added(AllAdded(claims), a)
  {
    assert (claims + [a])[..|claims|] == claims;
  }

  lemma TwoMore(claims: seq<Claim>, a: Claim, b: Claim)
    ensures AllAdded(claims + [a, b]) == Added(Added(AllAdded(claims), a), b)
  {
    assert claims + [a, b] == claims + [a] + [b];
    hide *;
    OneMore(claims, a);
    OneMore(claims + [a], b);
  }

  /** A legacy id that two tracks read differently keeps its annotations; one they agree on gives them up. */
  lemma AnnotationsFollowUnanimousIds(canon: Canon, rows: seq<Row>, a: Annotation)
    requires Proper(canon) && a.media != Song && a.mediaId != ""
    ensures var meanings :=
              Meanings(if a.media == Album then AlbumClaims(canon, rows) else ArtistClaims(canon, rows), a.mediaId);
            var names := Mappings(AllAdded(ArtistClaims(canon, rows)), AllAdded(AlbumClaims(canon, rows)));
            Renamed(a, names(a)) == if exists one :: meanings == {one} then
              a.(mediaId := (var one :| meanings == {one}; one)) else a
  {
    ClaimsAreMeaningful(canon, rows);
    MappingIsVerdict(AlbumClaims(canon, rows), a.mediaId);
    MappingIsVerdict(ArtistClaims(canon, rows), a.mediaId);
    var claims := if a.media == Album then AlbumClaims(canon, rows) else ArtistClaims(canon, rows);
    var meanings := Meanings(claims, a.mediaId);
    assert "" !in meanings;
    if one :| meanings == {one} {
      assert one in meanings;
    }
  }
}
