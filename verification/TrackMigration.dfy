/** The migration to logical tracks: group by group and track by track, references are moved and rows deleted, and the
    result is one simultaneous substitution. */
module TrackMigration {
  import opened Common
  import opened TrackTables
  import opened PreferredTrack

  /** What the migration reads before it writes: the track rows in the order the query returns them, the logical id
      of each (a hash of its names, or its own id if it has none), and the source ranks. */
  datatype Plan = Plan(before: Tables, rows: seq<string>, logical: map<string, string>, ranks: map<string, nat>)

  ghost predicate Valid(p: Plan) {
    && (forall id :: id in p.rows <==> id in p.before.tracks)
    && Distinct(p.rows)
    && p.logical.Keys == p.before.tracks.Keys
  }

  /** The ids that stand for themselves or for others afterwards. */
  function LogicalIds(p: Plan): set<string> {
    p.logical.Values
  }

  /** No logical id is itself a member of another group. */
  ghost predicate Idempotent(p: Plan) {
    forall id :: id in p.logical && p.logical[id] in p.logical ==> p.logical[p.logical[id]] == p.logical[id]
  }

  /** The members of a group, in row order. */
  function GroupOf(rows: seq<string>, logical: map<string, string>, l: string): seq<string> {
    if rows == [] then []
    else
      var group := GroupOf(rows[..|rows| - 1], logical, l);
      var id := rows[|rows| - 1];
      if id in logical && logical[id] == l then group + [id] else group
  }

  lemma {:induction false} GroupMembers(rows: seq<string>, logical: map<string, string>, l: string)
    requires Distinct(rows)
    ensures forall id :: id in GroupOf(rows, logical, l) <==> id in rows && id in logical && logical[id] == l
    ensures Distinct(GroupOf(rows, logical, l))
  {
    if rows != [] {
      var few, last := rows[..|rows| - 1], rows[|rows| - 1];
      GroupMembers(few, logical, l);
      assert rows == few + [last];
      assert last !in few;
      var group := GroupOf(few, logical, l);
      forall i, k | 0 <= i < k < |GroupOf(rows, logical, l)|
        ensures GroupOf(rows, logical, l)[i] != GroupOf(rows, logical, l)[k]
      {
        if k == |group| {
          assert group[i] in group;
        }
      }
    }
  }

  function Group(p: Plan, l: string): seq<string> {
    GroupOf(p.rows, p.logical, l)
  }

  predicate Readable(p: Plan, group: seq<string>) {
    group != [] && forall k :: 0 <= k < |group| ==> group[k] in p.before.tracks
  }

  function TracksOf(p: Plan, group: seq<string>): seq<Track>
    requires Readable(p, group)
  {
    seq(|group|, k requires 0 <= k < |group| => p.before.tracks[group[k]])
  }

  function RanksOf(p: Plan, group: seq<string>): seq<nat> {
    seq(|group|, k requires 0 <= k < |group| => if group[k] in p.ranks then p.ranks[group[k]] else 0)
  }

  /** The row written for a group; an empty album artist id defaults to the artist's. */
  function Merged(p: Plan, group: seq<string>): Track
    requires Readable(p, group)
  {
    var track := Preferred(TracksOf(p, group), RanksOf(p, group));
    track.(albumArtistId := if track.albumArtistId == "" then track.artistId else track.albumArtistId)
  }

  // The run, step by step.

  function MembersMoved(t: Tables, l: string, group: seq<string>, n: nat): Tables
    requires n <= |group|
  {
    if n == 0 then t
    else
      var done := MembersMoved(t, l, group, n - 1);
      if group[n - 1] == l then done else Moved(done, group[n - 1], l)
  }

  /** A group is never empty, as it is made from its members. */
  function GroupDone(p: Plan, t: Tables, l: string): Tables {
    if Readable(p, Group(p, l)) then
      MembersMoved(t.(tracks := t.tracks[l := Merged(p, Group(p, l))]), l, Group(p, l), |Group(p, l)|)
    else t
  }

  function GroupsDone(p: Plan, order: seq<string>, n: nat): Tables
    requires n <= |order|
  {
    if n == 0 then p.before else GroupDone(p, GroupsDone(p, order, n - 1), order[n - 1])
  }

  // The same at once.

  /** Every track that does not keep its id, and the id it gets. */
  function Names(p: Plan): map<string, string> {
    map id | id in p.logical && p.logical[id] != id :: p.logical[id]
  }

  function Simultaneous(p: Plan): Tables
    requires forall l :: l in LogicalIds(p) ==> Readable(p, Group(p, l))
  {
    Renamed(p.before, Names(p)).(tracks := map l | l in LogicalIds(p) :: Merged(p, Group(p, l)))
  }

  lemma GroupsAreReadable(p: Plan, l: string)
    requires Valid(p) && l in LogicalIds(p)
    ensures Readable(p, Group(p, l))
    ensures forall id :: id in Group(p, l) <==> id in p.logical && p.logical[id] == l
    ensures Distinct(Group(p, l))
  {
    GroupMembers(p.rows, p.logical, l);
    var id :| id in p.logical && p.logical[id] == l;
    assert id in Group(p, l);
    forall k | 0 <= k < |Group(p, l)| ensures Group(p, l)[k] in p.before.tracks {
      assert Group(p, l)[k] in Group(p, l);
    }
  }

  /** Group orders: each logical id once, as a Go map is ranged over. */
  ghost predicate OrderOf(p: Plan, order: seq<string>) {
    && (forall l :: l in order <==> l in LogicalIds(p))
    && Distinct(order)
  }

  // Progress: some groups are done, and part of one more.

  function NamesSoFar(p: Plan, done: set<string>, l: string, moved: seq<string>): map<string, string> {
    map id | id in p.logical && p.logical[id] != id
    && (p.logical[id] in done || (p.logical[id] == l && id in moved)) :: p.logical[id]
  }

  /** Rows of groups that are done, and old rows that are neither replaced nor deleted yet. */
  function TracksSoFar(p: Plan, done: set<string>, names: map<string, string>): map<string, Track>
    requires forall l :: l in done ==> Readable(p, Group(p, l))
  {
    (map id | id in p.before.tracks && id !in names && id !in done :: p.before.tracks[id])
    + (map l | l in done && l !in names :: Merged(p, Group(p, l)))
  }

  ghost predicate SoFar(p: Plan, t: Tables, done: set<string>, names: map<string, string>) {
    && (forall l :: l in done ==> Readable(p, Group(p, l)))
    && t == Renamed(p.before, names).(tracks := TracksSoFar(p, done, names))
  }

  lemma LogicalIdsKeepTheirNames(p: Plan, l: string)
    requires Idempotent(p) && l in LogicalIds(p)
    ensures l in p.logical ==> p.logical[l] == l
  {
    var id :| id in p.logical && p.logical[id] == l;
  }

  lemma TracksWithOneMore(p: Plan, done: set<string>, names: map<string, string>, l: string)
    requires (forall k :: k in done ==> Readable(p, Group(p, k))) && Readable(p, Group(p, l)) && l !in names
    ensures TracksSoFar(p, done + {l}, names) == TracksSoFar(p, done, names)[l := Merged(p, Group(p, l))]
  {
    hide Readable, Merged;
  }

  lemma LogicalIdIsNotRenamed(p: Plan, done: set<string>, l: string)
    requires Idempotent(p) && l in LogicalIds(p)
    ensures l !in NamesSoFar(p, done, l, [])
  {
    LogicalIdsKeepTheirNames(p, l);
    hide LogicalIds, Idempotent;
  }

  /** The row of a group is written. */
  lemma UpsertKeepsProgress(p: Plan, t: Tables, done: set<string>, l: string)
    requires Valid(p) && Idempotent(p) && l in LogicalIds(p)
    requires SoFar(p, t, done, NamesSoFar(p, done, l, []))
    ensures Readable(p, Group(p, l))
    ensures SoFar(p, t.(tracks := t.tracks[l := Merged(p, Group(p, l))]), done + {l}, NamesSoFar(p, done, l, []))
  {
    hide Readable, Merged, Renamed, NamesSoFar, TracksSoFar, LogicalIds, Group, Valid, Idempotent;
    GroupsAreReadable(p, l);
    LogicalIdIsNotRenamed(p, done, l);
    TracksWithOneMore(p, done, NamesSoFar(p, done, l, []), l);
  }

  lemma TracksWithoutOne(p: Plan, done: set<string>, names: map<string, string>, gone: string, l: string)
    requires (forall k :: k in done ==> Readable(p, Group(p, k)))
    ensures TracksSoFar(p, done, names[gone := l]) == TracksSoFar(p, done, names) - {gone}
  {
    hide Readable, Merged;
  }

  lemma NamesWithOneMore(p: Plan, done: set<string>, l: string, moved: seq<string>, id: string)
    requires id in p.logical && p.logical[id] == l
    ensures NamesSoFar(p, done, l, moved + [id]) == if id == l then NamesSoFar(p, done, l, moved)
            else NamesSoFar(p, done, l, moved)[id := l]
  {
  }

  lemma NextNameIsCompatible(p: Plan, done: set<string>, l: string, moved: seq<string>, id: string)
    requires Idempotent(p) && id in p.logical && p.logical[id] == l && id != l && l !in done && id !in moved
    ensures Compatible(NamesSoFar(p, done, l, moved), id, l)
  {
  }

  /** One member is moved over to the group's row. */
  lemma MoveKeepsProgress(p: Plan, t: Tables, done: set<string>, l: string, n: nat)
    requires Valid(p) && Idempotent(p) && l in LogicalIds(p) && l !in done && n < |Group(p, l)|
    requires SoFar(p, t, done + {l}, NamesSoFar(p, done, l, Group(p, l)[..n]))
    ensures SoFar(p, if Group(p, l)[n] == l then t else Moved(t, Group(p, l)[n], l), done + {l},
                  NamesSoFar(p, done, l, Group(p, l)[..n + 1]))
  {
    GroupsAreReadable(p, l);
    var group := Group(p, l);
    var id := group[n];
    var names := NamesSoFar(p, done, l, group[..n]);
    assert id in group && id !in group[..n];
    assert group[..n + 1] == group[..n] + [id];
    NamesWithOneMore(p, done, l, group[..n], id);
    if id != l {
      NextNameIsCompatible(p, done, l, group[..n], id);
      hide Readable, Merged, Renamed, NamesSoFar, TracksSoFar, Moved, Compatible;
      MoveIsRename(t, id, l);
      RenamedTwice(p.before, names, id, l);
      TracksWithoutOne(p, done + {l}, names, id, l);
      RenamingIgnoresTracks(Renamed(p.before, names), t.tracks, map[id := l]);
    }
  }

  lemma RenamingIgnoresTracks(t: Tables, tracks: map<string, Track>, names: map<string, string>)
    ensures Renamed(t.(tracks := tracks), names) == Renamed(t, names).(tracks := tracks)
  {
  }

  lemma {:induction false} MembersKeepProgress(p: Plan, t: Tables, done: set<string>, l: string, n: nat)
    requires Valid(p) && Idempotent(p) && l in LogicalIds(p) && l !in done && n <= |Group(p, l)|
    requires SoFar(p, t, done + {l}, NamesSoFar(p, done, l, []))
    ensures SoFar(p, MembersMoved(t, l, Group(p, l), n), done + {l}, NamesSoFar(p, done, l, Group(p, l)[..n]))
  {
    hide SoFar, NamesSoFar, Group, Idempotent, Valid;
    if n == 0 {
      assert Group(p, l)[..0] == [];
    } else {
      MembersKeepProgress(p, t, done, l, n - 1);
      MoveKeepsProgress(p, MembersMoved(t, l, Group(p, l), n - 1), done, l, n - 1);
    }
  }

  /** Between groups the group at hand does not matter. */
  lemma NamesBetweenGroups(p: Plan, done: set<string>, l: string, next: string)
    requires Valid(p) && l in LogicalIds(p)
    ensures NamesSoFar(p, done, l, Group(p, l)) == NamesSoFar(p, done + {l}, next, [])
  {
    GroupsAreReadable(p, l);
  }

  lemma GroupKeepsProgress(p: Plan, t: Tables, done: set<string>, l: string, next: string)
    requires Valid(p) && Idempotent(p) && l in LogicalIds(p) && l !in done
    requires SoFar(p, t, done, NamesSoFar(p, done, l, []))
    ensures Readable(p, Group(p, l))
    ensures SoFar(p, GroupDone(p, t, l), done + {l}, NamesSoFar(p, done + {l}, next, []))
  {
    hide SoFar, NamesSoFar, Idempotent, Valid, MembersMoved, Readable, Group, Merged;
    UpsertKeepsProgress(p, t, done, l);
    var group := Group(p, l);
    MembersKeepProgress(p, t.(tracks := t.tracks[l := Merged(p, group)]), done, l, |group|);
    assert group[..|group|] == group;
    NamesBetweenGroups(p, done, l, next);
  }

  function SetOf(ids: seq<string>): set<string> {
    set id | id in ids
  }

  lemma PrefixGrows(order: seq<string>, n: nat)
    requires Distinct(order) && 0 < n <= |order|
    ensures order[n - 1] !in SetOf(order[..n - 1]) && SetOf(order[..n]) == SetOf(order[..n - 1]) + {order[n - 1]}
  {
    assert order[..n] == order[..n - 1] + [order[n - 1]];
  }

  lemma {:induction false} GroupsKeepProgress(p: Plan, order: seq<string>, n: nat, next: string)
    requires Valid(p) && Idempotent(p) && OrderOf(p, order) && n <= |order|
    ensures SoFar(p, GroupsDone(p, order, n), SetOf(order[..n]), NamesSoFar(p, SetOf(order[..n]), next, []))
  {
    hide SoFar, NamesSoFar, Idempotent, Valid, Group, LogicalIds, GroupDone, SetOf;
    if n == 0 {
      assert order[..0] == [];
      NothingDone(p, next);
    } else {
      var done, l := SetOf(order[..n - 1]), order[n - 1];
      assert l in LogicalIds(p) by { assert l in order; }
      PrefixGrows(order, n);
      GroupsKeepProgress(p, order, n - 1, l);
      GroupKeepsProgress(p, GroupsDone(p, order, n - 1), done, l, next);
    }
  }

  lemma NothingDone(p: Plan, next: string)
    ensures SoFar(p, p.before, SetOf([]), NamesSoFar(p, SetOf([]), next, []))
  {
    var names := NamesSoFar(p, {}, next, []);
    assert names == map[];
    assert SetOf([]) == {};
    RenamingByNothing(p.before);
    assert TracksSoFar(p, {}, names) == p.before.tracks;
  }

  lemma RenamingByNothing(t: Tables)
    ensures Renamed(t, map[]) == t
  {
    forall row | row in t.albumAliases ensures row in RenamedAlbums(t.albumAliases, map[]) {
      assert row == (row.0, row.1, Sub(map[], row.2));
    }
    assert RenamedAlbums(t.albumAliases, map[]) == t.albumAliases;
    assert RenamedRefs(t.sources, map[]) == t.sources;
    assert RenamedRefs(t.playlists, map[]) == t.playlists;
    assert RenamedRefs(t.queues, map[]) == t.queues;
    assert RenamedRefs(t.current, map[]) == t.current;
    assert RenamedAliases(t.aliases, map[]) == t.aliases;
  }

  // The result.

  lemma AllMigrated(p: Plan, order: seq<string>)
    requires OrderOf(p, order)
    ensures SetOf(order[..|order|]) == LogicalIds(p)
    ensures NamesSoFar(p, SetOf(order[..|order|]), "", []) == Names(p)
  {
    assert order[..|order|] == order;
    assert SetOf(order) == LogicalIds(p);
    NamesOfAll(p);
    hide NamesSoFar, Names, LogicalIds;
  }

  /** When all groups are done, what has been done so far is the simultaneous substitution. */
  lemma ProgressOverAll(p: Plan, t: Tables)
    requires Valid(p) && Idempotent(p) && (forall l :: l in LogicalIds(p) ==> Readable(p, Group(p, l)))
    requires SoFar(p, t, LogicalIds(p), Names(p))
    ensures t == Simultaneous(p)
  {
    hide Readable, Merged, Group, LogicalIds, Names, Valid, Idempotent, TracksSoFar, Renamed;
    TracksOfAll(p);
  }

  /** Whatever order the groups come in, the migration is one simultaneous substitution. */
  lemma RunIsSimultaneous(p: Plan, order: seq<string>)
    requires Valid(p) && Idempotent(p) && OrderOf(p, order)
    ensures forall l :: l in LogicalIds(p) ==> Readable(p, Group(p, l))
    ensures GroupsDone(p, order, |order|) == Simultaneous(p)
  {
    hide SoFar, Readable, Group, LogicalIds, Names, NamesSoFar, GroupsDone, Valid, Idempotent, OrderOf, SetOf,
      Simultaneous;
    forall l | l in LogicalIds(p) ensures Readable(p, Group(p, l)) {
      GroupsAreReadable(p, l);
    }
    GroupsKeepProgress(p, order, |order|, "");
    AllMigrated(p, order);
    ProgressOverAll(p, GroupsDone(p, order, |order|));
  }

  lemma NamesOfAll(p: Plan)
    ensures NamesSoFar(p, LogicalIds(p), "", []) == Names(p)
  {
  }

  lemma LogicalIdsAreNotNames(p: Plan)
    requires Idempotent(p)
    ensures forall l :: l in LogicalIds(p) ==> l !in Names(p)
  {
    forall l | l in LogicalIds(p) ensures l !in Names(p) {
      LogicalIdsKeepTheirNames(p, l);
    }
  }

  lemma EveryTrackIsNamed(p: Plan)
    requires Valid(p)
    ensures forall id :: id in p.before.tracks ==> id in Names(p) || id in LogicalIds(p)
  {
    forall id | id in p.before.tracks ensures id in Names(p) || id in LogicalIds(p) {
      assert id in p.logical;
    }
  }

  lemma TracksOfAll(p: Plan)
    requires Valid(p) && Idempotent(p)
    requires forall l :: l in LogicalIds(p) ==> Readable(p, Group(p, l))
    ensures TracksSoFar(p, LogicalIds(p), Names(p)) == map l | l in LogicalIds(p) :: Merged(p, Group(p, l))
  {
    hide Readable, Merged, Group, Names, LogicalIds, Idempotent, Valid;
    LogicalIdsAreNotNames(p);
    EveryTrackIsNamed(p);
  }

  /** Afterwards nothing names an id that is no longer a track of its own, except as an alias. */
  lemma NoReferenceToDeletedIds(p: Plan, id: string)
    requires Idempotent(p)
    ensures Sub(Names(p), id) !in Names(p)
    ensures id in p.logical ==> Sub(Names(p), id) == p.logical[id]
  {
    if id in Names(p) {
      assert p.logical[id] in LogicalIds(p);
      LogicalIdsKeepTheirNames(p, p.logical[id]);
    }
  }

  // Looking up an id.

  /** `resolveTrackID`: a track's own id first, then its alias. */
  function Resolve(t: Tables, id: string): Option<string> {
    if id in t.tracks then Some(id) else if id in t.aliases then Some(t.aliases[id]) else None
  }

  /** An old alias that happens to be a logical id now names that track. */
  ghost predicate Shadowed(p: Plan, id: string) {
    id !in p.before.tracks && id in p.before.aliases && id in LogicalIds(p)
  }

  /** Old links lead to the merged tracks, exactly unless a new logical id takes over the name of an old alias that
      stands for something else. */
  lemma ResolveIsPreserved(p: Plan, id: string)
    requires Valid(p) && Idempotent(p) && Resolve(p.before, id).Some?
    requires forall l :: l in LogicalIds(p) ==> Readable(p, Group(p, l))
    ensures Resolve(Simultaneous(p), id) == Some(Sub(Names(p), Resolve(p.before, id).value))
            <==> (Shadowed(p, id) ==> Sub(Names(p), p.before.aliases[id]) == id)
  {
    hide Readable, Merged;
    if id in p.before.tracks {
      assert id in p.logical;
      if p.logical[id] == id {
        assert id in LogicalIds(p);
      } else {
        assert id in Names(p);
        if id in LogicalIds(p) {
          LogicalIdsKeepTheirNames(p, id);
        }
        assert id !in LogicalIds(p);
      }
    } else {
      assert id !in Names(p);
    }
  }

  // Without idempotence.

  lemma {:induction false} MovedMembersAreGone(t: Tables, l: string, group: seq<string>, n: nat, k: nat)
    requires n <= |group| && k < n && group[k] != l
    ensures group[k] !in MembersMoved(t, l, group, n).tracks
  {
    if k < n - 1 {
      MovedMembersAreGone(t, l, group, n - 1, k);
    }
  }

  /** If some logical id is a member of another group, and that group comes last, its row is deleted although
      references were moved to it: it is missing from the result. */
  lemma OtherwiseALogicalTrackIsLost(p: Plan, order: seq<string>, id: string)
    requires Valid(p) && OrderOf(p, order) && order != []
    requires id in p.logical
    requires var l := p.logical[id];
             l in p.logical && p.logical[l] != l && order[|order| - 1] == p.logical[l]
    ensures p.logical[id] in LogicalIds(p) && p.logical[id] !in GroupsDone(p, order, |order|).tracks
  {
    var lost := p.logical[id];
    var l := p.logical[lost];
    assert l in LogicalIds(p);
    GroupsAreReadable(p, l);
    assert lost in Group(p, l);
    var k :| 0 <= k < |Group(p, l)| && Group(p, l)[k] == lost;
    var t := GroupsDone(p, order, |order| - 1);
    MovedMembersAreGone(t.(tracks := t.tracks[l := Merged(p, Group(p, l))]), l, Group(p, l), |Group(p, l)|, k);
  }

  lemma OrderEndingWith(p: Plan, l: string) returns (order: seq<string>)
    requires l in LogicalIds(p)
    ensures OrderOf(p, order) && order != [] && order[|order| - 1] == l
  {
    order := OrderOfAll(LogicalIds(p) - {l}) + [l];
    hide LogicalIds;
  }

  ghost function OrderOfAll(ids: set<string>): (order: seq<string>)
    ensures Distinct(order) && forall id :: id in order <==> id in ids
  {
    if ids == {} then []
    else
      var id :| id in ids;
      OrderOfAll(ids - {id}) + [id]
  }

  /** So the logical ids are exactly the tracks that are left, for every order of the groups, exactly when no logical
      id is a member of another group. */
  lemma EveryOrderKeepsTheLogicalTracksExactlyWhenIdempotent(p: Plan)
    requires Valid(p)
    ensures Idempotent(p)
            <==> forall order :: OrderOf(p, order) ==> GroupsDone(p, order, |order|).tracks.Keys == LogicalIds(p)
  {
    if Idempotent(p) {
      forall order | OrderOf(p, order) ensures GroupsDone(p, order, |order|).tracks.Keys == LogicalIds(p) {
        RunIsSimultaneous(p, order);
      }
    } else {
      var id :| id in p.logical && p.logical[id] in p.logical && p.logical[p.logical[id]] != p.logical[id];
      assert p.logical[p.logical[id]] in LogicalIds(p);
      var order := OrderEndingWith(p, p.logical[p.logical[id]]);
      OtherwiseALogicalTrackIsLost(p, order, id);
    }
  }

  // Two catalogs for which the conditions fail.

  function RenamedRow(t: Track, u: Track): Plan {
    Plan(Tables(map["x" := t, "h" := u], map["file" := "x"], {}, map[], map[], map[], map[]),
         ["x", "h"], map["x" := "h", "h" := "g"], map[])
  }

  lemma RenamedRowIsAPlan(t: Track, u: Track)
    ensures var p := RenamedRow(t, u);
            && Valid(p) && !Idempotent(p) && OrderOf(p, ["h", "g"]) && "h" in LogicalIds(p)
            && Group(p, "h") == ["x"] && Group(p, "g") == ["h"]
  {
    var p := RenamedRow(t, u);
    assert p.logical["x"] == "h" && p.logical["h"] == "g";
    assert LogicalIds(p) == {"h", "g"};
    GroupsOfRenamedRow(p);
  }

  lemma SourcesOfRenamedRow(p: Plan)
    requires Readable(p, ["x"]) && Readable(p, ["h"]) && Group(p, "h") == ["x"] && Group(p, "g") == ["h"]
    requires p.before.sources == map["file" := "x"]
    ensures Lookup(GroupsDone(p, ["h", "g"], 2).sources, "file") == Some("g")
  {
    hide GroupDone, GroupsDone, Readable, Group;
    SourcesOfSingleton(p, p.before, "h", "x");
    SourcesOfSingleton(p, GroupDone(p, p.before, "h"), "g", "h");
    TwoGroupsDone(p, "h", "g");
  }

  /** Row `h` was stored under the hash of its names and has been given other names since, which hash to `g`; row `x`
      has the names that hash to `h`. With the group of `h` first, its merged row is deleted with the old one, and the
      sources of `x` end up at another track. */
  lemma ARenamedRowLosesATrack(t: Track, u: Track)
    ensures var p := RenamedRow(t, u);
            && Valid(p) && !Idempotent(p) && OrderOf(p, ["h", "g"])
            && "h" in LogicalIds(p) && "h" !in GroupsDone(p, ["h", "g"], 2).tracks
            && p.logical["x"] == "h" && Lookup(GroupsDone(p, ["h", "g"], 2).sources, "file") == Some("g")
  {
    var p := RenamedRow(t, u);
    hide GroupsDone, Valid, Idempotent, OrderOf, LogicalIds, Group;
    RenamedRowIsAPlan(t, u);
    OtherwiseALogicalTrackIsLost(p, ["h", "g"], "x");
    SourcesOfRenamedRow(p);
  }

  lemma TwoGroupsDone(p: Plan, first: string, second: string)
    ensures GroupsDone(p, [first, second], 2) == GroupDone(p, GroupDone(p, p.before, first), second)
  {
    hide GroupDone;
    assert GroupsDone(p, [first, second], 1) == GroupDone(p, GroupsDone(p, [first, second], 0), first);
  }

  lemma SourcesOfSingleton(p: Plan, t: Tables, l: string, id: string)
    requires Group(p, l) == [id] && id != l && Readable(p, [id])
    ensures GroupDone(p, t, l).sources == Updated(t.sources, id, l)
  {
    var written := t.(tracks := t.tracks[l := Merged(p, [id])]);
    assert MembersMoved(written, l, [id], 1) == Moved(MembersMoved(written, l, [id], 0), id, l);
    hide Group, Merged, Readable, Updated;
  }

  lemma GroupsOfRenamedRow(p: Plan)
    requires p.rows == ["x", "h"] && p.logical == map["x" := "h", "h" := "g"]
    ensures Group(p, "h") == ["x"] && Group(p, "g") == ["h"]
  {
    assert ["x", "h"][..1] == ["x"] && ["x"][..0] == [];
    assert GroupOf(["x"], p.logical, "h") == ["x"] && GroupOf(["x"], p.logical, "g") == [];
  }

  /** An alias is stored under a name that a merged track then takes: an old link to the alias leads to that track. */
  lemma AnAliasIsTakenOver(t: Track, u: Track)
    ensures var p := Plan(Tables(map["x" := t, "y" := u], map[], {}, map[], map[], map[], map["h" := "y"]),
                          ["x", "y"], map["x" := "h", "y" := "y"], map[]);
            && Valid(p) && Idempotent(p) && Shadowed(p, "h")
            && (forall l :: l in LogicalIds(p) ==> Readable(p, Group(p, l)))
            && Resolve(p.before, "h") == Some("y") && Resolve(Simultaneous(p), "h") == Some("h")
  {
    var p := Plan(Tables(map["x" := t, "y" := u], map[], {}, map[], map[], map[], map["h" := "y"]),
                  ["x", "y"], map["x" := "h", "y" := "y"], map[]);
    assert p.logical["x"] == "h" && p.logical["y"] == "y";
    assert LogicalIds(p) == {"h", "y"};
    forall l | l in LogicalIds(p) ensures Readable(p, Group(p, l)) {
      GroupsAreReadable(p, l);
    }
    hide Readable, Merged, Group;
  }

  // The loop over the groups.

  lemma NothingMigrated(p: Plan, order: seq<string>)
    ensures GroupsDone(p, order, 0) == p.before && NamesSoFar(p, SetOf(order[..0]), "", []) == map[]
  {
    assert SetOf(order[..0]) == {};
  }

  lemma OneMoreGroup(p: Plan, order: seq<string>, n: nat)
    requires OrderOf(p, order) && n < |order|
    ensures order[n] in LogicalIds(p)
    ensures SetOf(order[..n + 1]) == SetOf(order[..n]) + {order[n]}
    ensures GroupsDone(p, order, n + 1) == GroupDone(p, GroupsDone(p, order, n), order[n])
  {
    hide LogicalIds, GroupDone;
    assert order[n] in order;
    PrefixGrows(order, n + 1);
  }

  // The tables, updated in place.

  class Catalog {
    var tracks: map<string, Track>
    var sources: map<string, string>
    var albumAliases: set<(string, string, string)>
    var playlists: map<string, string>
    var queues: map<string, string>
    var current: map<string, string>
    var aliases: map<string, string>

    function Abs(): Tables
      reads this
    {
      Tables(tracks, sources, albumAliases, playlists, queues, current, aliases)
    }

    /** The nine statements, in their order. */
    method MoveTrackReferences(oldId: string, newId: string)
      modifies this
      ensures Abs() == Moved(old(Abs()), oldId, newId)
    {
      sources := Updated(sources, oldId, newId);
      albumAliases := Copied(albumAliases, oldId, newId);
      albumAliases := Without(albumAliases, oldId);
      playlists := Updated(playlists, oldId, newId);
      queues := Updated(queues, oldId, newId);
      current := Updated(current, oldId, newId);
      aliases := Updated(aliases, oldId, newId);
      aliases := aliases[oldId := newId];
      tracks := tracks - {oldId};
    }

    method UpsertMigrationTrack(id: string, track: Track)
      modifies this`tracks
      ensures tracks
              == old(tracks)[id := track.(albumArtistId := if track.albumArtistId == "" then track.artistId
                                          else track.albumArtistId)]
    {
      var albumArtistId := track.albumArtistId;
      if albumArtistId == "" {
        albumArtistId := track.artistId;
      }
      tracks := tracks[id := track.(albumArtistId := albumArtistId)];
    }

    /** The groups, in a map from logical id to members. */
    method CollectGroups(p: Plan) returns (groups: map<string, seq<string>>)
      requires Valid(p)
      ensures groups.Keys == LogicalIds(p) && forall l :: l in groups ==> groups[l] == Group(p, l)
    {
      groups := map[];
      var n := 0;
      while n < |p.rows|
        invariant n <= |p.rows| && Collected(groups, p.rows[..n], p.logical)
      {
        assert p.rows[n] in p.rows && p.rows[n] in p.logical;
        var l := p.logical[p.rows[n]];
        assert p.rows[..n + 1] == p.rows[..n] + [p.rows[n]];
        CollectedWithOneMore(groups, p.rows[..n], p.logical, p.rows[n]);
        if l in groups {
          groups := groups[l := groups[l] + [p.rows[n]]];
        } else {
          groups := groups[l := [p.rows[n]]];
        }
        n := n + 1;
      }
      assert p.rows[..n] == p.rows;
      CollectedAll(p, groups);
    }

    /** The loop over the groups, which Go visits in any order. `names` collects the aliases for the annotations. */
    method MigrateLogicalTracks(p: Plan, order: seq<string>) returns (names: map<string, string>)
      requires Valid(p) && OrderOf(p, order) && Abs() == p.before
      modifies this
      ensures Abs() == GroupsDone(p, order, |order|)
      ensures names == Names(p)
    {
      hide GroupsDone, GroupDone, NamesSoFar, Names, Valid, OrderOf, LogicalIds, Group, SetOf;
      var groups := CollectGroups(p);
      names := map[];
      var n := 0;
      NothingMigrated(p, order);
      while n < |order|
        invariant n <= |order| && Abs() == GroupsDone(p, order, n)
        invariant names == NamesSoFar(p, SetOf(order[..n]), "", [])
      {
        OneMoreGroup(p, order, n);
        names := MigrateGroup(p, order[n], groups[order[n]], names, SetOf(order[..n]));
        n := n + 1;
      }
      AllMigrated(p, order);
    }

    /** The body of the outer loop: one row written, its members moved over. */
    method MigrateGroup(p: Plan, l: string, group: seq<string>, before: map<string, string>, ghost done: set<string>)
      returns (names: map<string, string>)
      requires Valid(p) && l in LogicalIds(p) && group == Group(p, l) && before == NamesSoFar(p, done, "", [])
      modifies this
      ensures Abs() == GroupDone(p, old(Abs()), l)
      ensures names == NamesSoFar(p, done + {l}, "", [])
    {
      GroupsAreReadable(p, l);
      var track := PreferredMigrationTrack(TracksOf(p, group), RanksOf(p, group));
      UpsertMigrationTrack(l, track);
      assert before == NamesSoFar(p, done, l, []);
      NamesBetweenGroups(p, done, l, "");
      hide NamesSoFar, MembersMoved;
      names := MoveGroup(p, l, group, before, done);
    }

    /** The inner loop, over the members of one group. */
    method MoveGroup(p: Plan, l: string, group: seq<string>, before: map<string, string>, ghost done: set<string>)
      returns (names: map<string, string>)
      requires Valid(p) && l in LogicalIds(p) && group == Group(p, l) && before == NamesSoFar(p, done, l, [])
      modifies this
      ensures Abs() == MembersMoved(old(Abs()), l, group, |group|)
      ensures names == NamesSoFar(p, done, l, group)
    {
      hide NamesSoFar, Valid, Group, LogicalIds, Moved;
      names := before;
      var n := 0;
      assert group[..0] == [];
      while n < |group|
        invariant n <= |group| && Abs() == MembersMoved(old(Abs()), l, group, n)
        invariant names == NamesSoFar(p, done, l, group[..n])
      {
        NamesOfNextMember(p, done, l, n);
        if group[n] != l {
          names := names[group[n] := l];
          MoveTrackReferences(group[n], l);
        }
        n := n + 1;
      }
      assert group[..n] == group;
    }
  }

  lemma NamesOfNextMember(p: Plan, done: set<string>, l: string, n: nat)
    requires Valid(p) && l in LogicalIds(p) && n < |Group(p, l)|
    ensures var group := Group(p, l);
            NamesSoFar(p, done, l, group[..n + 1])
            == if group[n] == l then NamesSoFar(p, done, l, group[..n])
               else NamesSoFar(p, done, l, group[..n])[group[n] := l]
  {
    GroupsAreReadable(p, l);
    var group := Group(p, l);
    assert group[n] in group;
    assert group[..n + 1] == group[..n] + [group[n]];
    NamesWithOneMore(p, done, l, group[..n], group[n]);
  }

  ghost predicate Collected(groups: map<string, seq<string>>, rows: seq<string>, logical: map<string, string>) {
    forall l ::
      GroupOf(rows, logical, l) == (if l in groups then groups[l] else []) && (l in groups ==> groups[l] != [])
  }

  lemma CollectedWithOneMore(groups: map<string, seq<string>>, rows: seq<string>, logical: map<string, string>,
                             id: string)
    requires Collected(groups, rows, logical) && id in logical
    ensures var l := logical[id];
            Collected(groups[l := (if l in groups then groups[l] else []) + [id]], rows + [id], logical)
  {
    assert (rows + [id])[..|rows|] == rows;
    var l := logical[id];
    var more := groups[l := (if l in groups then groups[l] else []) + [id]];
    forall k
      ensures GroupOf(rows + [id], logical, k) == (if k in more then more[k] else []) && (k in more ==> more[k] != []) {
      assert GroupOf(rows, logical, k) == (if k in groups then groups[k] else []);
    }
  }

  lemma CollectedAll(p: Plan, groups: map<string, seq<string>>)
    requires Valid(p) && Collected(groups, p.rows, p.logical)
    ensures groups.Keys == LogicalIds(p) && forall l :: l in groups ==> groups[l] == Group(p, l)
  {
    forall l ensures l in groups <==> l in LogicalIds(p) {
      GroupMembers(p.rows, p.logical, l);
      if l in groups {
        assert groups[l] == Group(p, l) && groups[l][0] in Group(p, l);
      }
      if l in LogicalIds(p) {
        GroupsAreReadable(p, l);
        assert GroupOf(p.rows, p.logical, l) != [];
      }
    }
  }
}
