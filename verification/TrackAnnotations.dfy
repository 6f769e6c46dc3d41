/** The song annotations follow the tracks of the logical track migration. */
module TrackAnnotations {
  import opened Annotations
  import TrackMigration
  import TrackTables

  function SameNames(names: map<string, string>): Annotation -> map<string, string> {
    (a: Annotation) => names
  }

  /** `migrateTrackAnnotations`: song rows are renamed, merged and inserted again in any order; other rows stay. */
  method MigrateTrackAnnotations(annotations: seq<Annotation>, names: map<string, string>, keys: seq<string>)
    returns (result: seq<Annotation>, ghost inserted: seq<Annotation>)
    requires Enumerates(keys, Merged(RenamedRows(SongRows(annotations), SameNames(names)), SongKey))
    ensures result == IdentityRows(annotations) + inserted
    ensures Lists(inserted, Merged(RenamedRows(SongRows(annotations), SameNames(names)), SongKey), keys)
    ensures AllPlays(inserted) == AllPlays(SongRows(annotations))
  {
    ghost var renamed := RenamedRows(SongRows(annotations), SameNames(names));
    var merged := MergeRows(SongRows(annotations), SameNames(names), SongKey);
    hide Merged, Sums, IdentityRows, SongRows;
    var written := InsertAll(merged, keys);
    inserted := written;
    PlaysAreConserved(renamed, SongKey, inserted, keys);
    RenamingKeepsPlays(SongRows(annotations), SameNames(names));
    result := IdentityRows(annotations) + written;
  }

  /** Each row that comes out sums up all rows whose media id has the same logical id and whose owner is the same,
      and names no id that the migration has deleted. */
  lemma MergedSongsNameLogicalTracks(p: TrackMigration.Plan, rows: seq<Annotation>, k: string)
    requires TrackMigration.Idempotent(p)
    requires forall id :: id in p.logical ==> p.logical[id] != ""
    requires k in Merged(RenamedRows(rows, SameNames(TrackMigration.Names(p))), SongKey)
    ensures var names := TrackMigration.Names(p);
            var renamed := RenamedRows(rows, SameNames(names));
            && Sums(renamed, SongKey, k, Merged(renamed, SongKey)[k])
            && Merged(renamed, SongKey)[k].mediaId !in names
            && forall i :: 0 <= i < |rows| ==>
                 renamed[i] == rows[i].(mediaId := TrackTables.Sub(names, rows[i].mediaId))
  {
    var names := TrackMigration.Names(p);
    var renamed := RenamedRows(rows, SameNames(names));
    MergedSums(renamed, SongKey, k);
    var r := Merged(renamed, SongKey)[k];
    var row :| row in renamed && SongKey(row) == k
               && (row.owner, row.media, row.mediaId) == (r.owner, r.media, r.mediaId);
    var i :| 0 <= i < |renamed| && renamed[i] == row;
    TrackMigration.NoReferenceToDeletedIds(p, rows[i].mediaId);
  }
}
