/** The torrent provider's bookkeeping as the object it is: fields updated in place by short methods.

    Each method is one critical section and is proved to do to the tables exactly what the step machine says. */
module TorrentProvider {
  import opened Common
  import opened Counting
  import opened TorrentTables
  import opened Eviction
  import M = TorrentMachine

  /** Where a cached file lives below the data root: its own name, or the same with ".part" while incomplete. */
  datatype Path = Complete(key: SourceKey) | Partial(key: SourceKey)

  datatype Candidate = Candidate(key: SourceKey, path: Path, lastAccessed: nat, size: nat)

  function LastAccessed(c: Candidate): nat {
    c.lastAccessed
  }

  predicate DistinctPaths(candidates: seq<Candidate>) {
    forall i, j :: 0 <= i < j < |candidates| ==> candidates[i].path != candidates[j].path
  }

  /** Nobody holds the candidate's torrent and it is not pinned. */
  predicate Evictable(c: Candidate, active: map<string, nat>, pins: set<string>) {
    Count(active, c.key.infoHash) == 0 && c.key.infoHash !in pins
  }

  /** The candidates as an eviction walk sees them. */
  function ItemsOf(candidates: seq<Candidate>, active: map<string, nat>, pins: set<string>): seq<Item> {
    seq(|candidates|, i requires 0 <= i < |candidates| => Item(candidates[i].size,
                                                               Evictable(candidates[i], active, pins)))
  }

  /** Every deletion is the machine's check followed by its eviction step, and a candidate that is skipped fails the
      check. */
  lemma EvictionIsTheMachines(s: M.State, i: nat, c: Candidate)
    requires M.At(s, i) && s.threads[i].Evicting?
    ensures Evictable(c, s.tables.active, s.pins) ==>
              && var ready := M.Apply(s, M.CheckEvict(i, c.key));
                 M.Enabled(ready, M.EvictFile(i)) && M.Apply(ready, M.EvictFile(i)).tables == Forgotten(s.tables, c.key)
    ensures !Evictable(c, s.tables.active, s.pins) ==> M.Apply(s, M.CheckEvict(i, c.key)) == s
  {
  }

  /** The files the first `n` candidates lose. */
  function EvictedPaths(candidates: seq<Candidate>, active: map<string, nat>, pins: set<string>, n: nat): set<Path>
    requires n <= |candidates|
  {
    if n == 0 then {}
    else
      var earlier := EvictedPaths(candidates, active, pins, n - 1);
      if Evictable(candidates[n - 1], active, pins) then earlier + {candidates[n - 1].path} else earlier
  }

  function Forgotten(t: Tables, key: SourceKey): Tables {
    EvictionMarked(t, key).(lastAccessed := t.lastAccessed - {key})
  }

  /** What the tables say after the first `n` candidates were dealt with. */
  function Swept(t: Tables, candidates: seq<Candidate>, pins: set<string>, n: nat): Tables
    requires n <= |candidates|
  {
    if n == 0 then t
    else
      var earlier := Swept(t, candidates, pins, n - 1);
      if Evictable(candidates[n - 1], t.active, pins) then Forgotten(earlier, candidates[n - 1].key) else earlier
  }

  /** An eviction never touches a counter, a slot or a list of running downloads, adds or drops no row, and
      leaves the row of every running download as it was. */
  lemma {:induction false} SweepKeepsScheduler(t: Tables, candidates: seq<Candidate>, pins: set<string>, n: nat)
    requires n <= |candidates|
    ensures var swept := Swept(t, candidates, pins, n);
            && swept.(downloads := t.downloads, completed := t.completed, lastAccessed := t.lastAccessed) == t
            && swept.downloads.Keys == t.downloads.Keys
            && (forall key :: key in t.downloads && key in t.activeDownloads ==>
                  swept.downloads[key] == t.downloads[key])
  {
    if n > 0 {
      SweepKeepsScheduler(t, candidates, pins, n - 1);
    }
  }

  lemma {:induction false} EvictedPathsAreEarlier(
    candidates: seq<Candidate>, active: map<string, nat>, pins: set<string>, n: nat)
    requires n < |candidates| && DistinctPaths(candidates)
    ensures forall m :: n <= m < |candidates| ==> candidates[m].path !in EvictedPaths(candidates, active, pins, n)
  {
    if n > 0 {
      EvictedPathsAreEarlier(candidates, active, pins, n - 1);
    }
  }

  /** The bytes an eviction reports are the bytes its deletions take off the disk. */
  lemma {:induction false} FreedIsTakenOffDisk(disk: map<Path, nat>, candidates: seq<Candidate>,
                                               active: map<string, nat>, pins: set<string>, n: nat)
    requires n <= |candidates| && DistinctPaths(candidates)
    requires forall c :: c in candidates ==> c.path in disk && c.size == disk[c.path]
    ensures Freed(ItemsOf(candidates, active, pins), n)
            == DiskBytes(disk) - DiskBytes(disk - EvictedPaths(candidates, active, pins, n))
  {
    if n == 0 {
      assert disk - EvictedPaths(candidates, active, pins, 0) == disk;
    } else {
      var last := candidates[n - 1];
      FreedIsTakenOffDisk(disk, candidates, active, pins, n - 1);
      EvictedPathsAreEarlier(candidates, active, pins, n - 1);
      assert last in candidates;
      if Evictable(last, active, pins) {
        var before := disk - EvictedPaths(candidates, active, pins, n - 1);
        DeleteTakesItsSize(before, last.path);
        assert before - {last.path} == disk - EvictedPaths(candidates, active, pins, n);
      }
    }
  }

  /** The candidate for a cached file: its complete or its partial file, whichever is there. */
  predicate IsCandidate(c: Candidate, disk: map<Path, nat>, lastAccessed: map<SourceKey, nat>,
                        modified: map<Path, nat>) {
    && c.path in disk && c.size == disk[c.path]
    && c.path == (if Complete(c.key) in disk then Complete(c.key) else Partial(c.key))
    && c.lastAccessed == (if c.key in lastAccessed then lastAccessed[c.key] else Count(modified, c.path))
  }

  predicate OnDisk(key: SourceKey, disk: map<Path, nat>) {
    Complete(key) in disk || Partial(key) in disk
  }

  /** The candidates are exactly the files on disk among `keys`, each once. */
  ghost predicate ListsFiles(candidates: seq<Candidate>, keys: set<SourceKey>, disk: map<Path, nat>,
                             lastAccessed: map<SourceKey, nat>, modified: map<Path, nat>) {
    && (forall c :: c in candidates ==> c.key in keys && IsCandidate(c, disk, lastAccessed, modified))
    && (forall key :: key in keys && OnDisk(key, disk) ==> exists c :: c in candidates && c.key == key)
    && (forall i, j :: 0 <= i < j < |candidates| ==> candidates[i].key != candidates[j].key)
  }

  lemma ListsOneMore(candidates: seq<Candidate>, keys: set<SourceKey>, disk: map<Path, nat>,
                     lastAccessed: map<SourceKey, nat>, modified: map<Path, nat>, c: Candidate)
    requires ListsFiles(candidates, keys, disk, lastAccessed, modified)
    requires c.key !in keys && IsCandidate(c, disk, lastAccessed, modified)
    ensures ListsFiles(candidates + [c], keys + {c.key}, disk, lastAccessed, modified)
  {
    hide IsCandidate, OnDisk;
    var more := candidates + [c];
    forall key | key in keys + {c.key} && OnDisk(key, disk) ensures exists d :: d in more && d.key == key {
      if key == c.key {
        assert c in more;
      } else {
        var d :| d in candidates && d.key == key;
        assert d in more;
      }
    }
    forall i, j | 0 <= i < j < |more| ensures more[i].key != more[j].key {
      assert more[i] in candidates;
    }
  }

  /** Another order of the same candidates lists the same files. */
  lemma PermutedListsFiles(candidates: seq<Candidate>, order: seq<Candidate>, keys: set<SourceKey>,
                           disk: map<Path, nat>, lastAccessed: map<SourceKey, nat>, modified: map<Path, nat>)
    requires ListsFiles(candidates, keys, disk, lastAccessed, modified) && multiset(order) == multiset(candidates)
    ensures ListsFiles(order, keys, disk, lastAccessed, modified)
  {
    hide IsCandidate, OnDisk;
    PermutationKeepsDistinct(candidates, order);
    forall i, j | 0 <= i < j < |order| ensures order[i].key != order[j].key {
      assert order[i] != order[j] && order[i] in candidates && order[j] in candidates;
    }
    forall key | key in keys && OnDisk(key, disk) ensures exists c :: c in order && c.key == key {
      var c :| c in candidates && c.key == key;
      assert c in order;
    }
  }

  lemma ListedPathsDiffer(order: seq<Candidate>, keys: set<SourceKey>, disk: map<Path, nat>,
                          lastAccessed: map<SourceKey, nat>, modified: map<Path, nat>)
    requires ListsFiles(order, keys, disk, lastAccessed, modified)
    ensures DistinctPaths(order)
  {
    hide IsCandidate, OnDisk;
    forall i, j | 0 <= i < j < |order| ensures order[i].path != order[j].path {
      assert order[i] in order && order[j] in order;
      PathsTellKeys(order[i], order[j], disk, lastAccessed, modified);
    }
  }

  lemma SortedListsFiles(candidates: seq<Candidate>, keys: set<SourceKey>, disk: map<Path, nat>,
                         lastAccessed: map<SourceKey, nat>, modified: map<Path, nat>)
    requires ListsFiles(candidates, keys, disk, lastAccessed, modified)
    ensures var order := SortedByAge(candidates, LastAccessed);
            && ListsFiles(order, keys, disk, lastAccessed, modified) && AgeOrdered(order, LastAccessed)
               && DistinctPaths(order)
  {
    hide ListsFiles, AgeOrdered, DistinctPaths, SortedByAge;
    SortedIsRight(candidates, LastAccessed);
    PermutedListsFiles(candidates, SortedByAge(candidates, LastAccessed), keys, disk, lastAccessed, modified);
    ListedPathsDiffer(SortedByAge(candidates, LastAccessed), keys, disk, lastAccessed, modified);
  }

  lemma PathsTellKeys(a: Candidate, b: Candidate, disk: map<Path, nat>, lastAccessed: map<SourceKey, nat>,
                      modified: map<Path, nat>)
    requires IsCandidate(a, disk, lastAccessed, modified) && IsCandidate(b, disk, lastAccessed, modified)
             && a.key != b.key
    ensures a.path != b.path
  {
  }

  /** A file that is gone was dealt with, and one that could have been evicted and is still there was not. */
  lemma {:induction false} EvictedWasExamined(
    candidates: seq<Candidate>, active: map<string, nat>, pins: set<string>, n: nat, i: nat)
    requires n <= |candidates| && i < |candidates| && DistinctPaths(candidates)
    ensures candidates[i].path in EvictedPaths(candidates, active, pins, n)
            <==> i < n && Evictable(candidates[i], active, pins)
  {
    if n > 0 {
      EvictedWasExamined(candidates, active, pins, n - 1, i);
    }
  }

  class Provider {
    var active: map<string, nat>
    var streams: map<string, nat>
    var lastAccessed: map<SourceKey, nat>
    var completed: set<SourceKey>
    var downloads: map<SourceKey, Record>
    var activeDownloads: map<SourceKey, File>
    var pendingDownloads: map<SourceKey, File>
    var slots: int
    const maxSlots: nat

    var cacheFiles: set<SourceKey>
    var pins: set<string>
    var disk: map<Path, nat>
    var modified: map<Path, nat>

    function Abs(): Tables
      reads this
    {
      Tables(active, streams, lastAccessed, completed, downloads, activeDownloads, pendingDownloads, slots, maxSlots)
    }

    constructor (maxSlots: nat)
      ensures Abs() == NoTables(maxSlots)
      ensures cacheFiles == {} && pins == {} && disk == map[]
    {
      active, streams, lastAccessed, completed := map[], map[], map[], {};
      downloads, activeDownloads, pendingDownloads := map[], map[], map[];
      slots := 0;
      this.maxSlots := maxSlots;
      cacheFiles, pins, disk, modified := {}, {}, map[], map[];
    }

    method Retain(infoHash: string, key: SourceKey, now: nat)
      modifies this`active, this`lastAccessed
      ensures Abs() == Retained(old(Abs()), infoHash, key, now)
    {
      active := active[infoHash := Count(active, infoHash) + 1];
      lastAccessed := lastAccessed[key := now];
    }

    method RetainStream(infoHash: string, key: SourceKey, now: nat)
      modifies this`active, this`streams, this`lastAccessed
      ensures Abs() == StreamRetained(old(Abs()), infoHash, key, now)
    {
      active := active[infoHash := Count(active, infoHash) + 1];
      streams := streams[infoHash := Count(streams, infoHash) + 1];
      lastAccessed := lastAccessed[key := now];
    }

    static method DecrementCount(counts: map<string, nat>, key: string) returns (next: map<string, nat>)
      ensures Count(next, key) == if Count(counts, key) == 0 then 0 else Count(counts, key) - 1
      ensures forall other :: other != key ==> Count(next, other) == Count(counts, other)
      ensures Positive(counts) ==> Positive(next)
      ensures next == Decremented(counts, key)
    {
      if Count(counts, key) <= 1 {
        next := counts - {key};
      } else {
        next := counts[key := counts[key] - 1];
      }
    }

    method Release(infoHash: string)
      modifies this`active
      ensures Abs() == Released(old(Abs()), infoHash)
    {
      active := DecrementCount(active, infoHash);
    }

    method ReleaseStream(infoHash: string)
      modifies this`active, this`streams
      ensures Abs() == StreamReleased(old(Abs()), infoHash)
    {
      active := DecrementCount(active, infoHash);
      streams := DecrementCount(streams, infoHash);
    }

    /** Returns whether a monitor has to be started. */
    method BeginTrackDownloadLocked(key: SourceKey, record: Record, file: File, bytes: nat, length: nat)
      returns (started: bool)
      modifies this`downloads, this`activeDownloads, this`completed
      ensures started <==> bytes < length
      ensures Abs() == Begun(old(Abs()), key, record, file, bytes, length)
    {
      var done := Min(bytes, length);
      var row := record.(completedBytes := done, totalBytes := length);
      if done >= length {
        row := row.(state := Cached, error := "");
        downloads := downloads[key := row];
        return false;
      }
      row := row.(state := Downloading, error := "");
      completed := completed - {key};
      downloads := downloads[key := row];
      activeDownloads := activeDownloads[key := file];
      return true;
    }

    method ScheduleTrackDownloadLocked(key: SourceKey, record: Record, file: File, bytes: nat, length: nat, now: nat)
      returns (outcome: Scheduled)
      modifies this
      ensures outcome == ScheduleOutcome(old(Abs()), bytes, length)
      ensures Abs() == ScheduledTables(old(Abs()), key, record, file, bytes, length, now)
      ensures cacheFiles == old(cacheFiles) && pins == old(pins) && disk == old(disk) && modified == old(modified)
    {
      Retain(record.sourceId, key, now);
      if slots < maxSlots {
        slots := slots + 1;
        var started := BeginTrackDownloadLocked(key, record, file, bytes, length);
        if !started {
          slots := slots - 1;
          Release(record.sourceId);
          return FinishedAtOnce;
        }
        return MonitorStarted;
      }
      downloads := downloads[key := record.(state := Waiting, error := "")];
      pendingDownloads := pendingDownloads[key := file];
      return WaiterStarted;
    }

    /** The section of `waitForDownloadSlot` behind the channel send that took the slot. */
    method GrantLocked(key: SourceKey, record: Record, file: File, bytes: nat, length: nat)
      returns (started: bool)
      modifies this
      ensures started <==> WaiterStarts(old(Abs()), key, file, bytes, length)
      ensures Abs() == WaiterGranted(old(Abs()), key, record, file, bytes, length)
      ensures cacheFiles == old(cacheFiles) && pins == old(pins) && disk == old(disk) && modified == old(modified)
    {
      var listed := key in downloads;
      var mine := key in pendingDownloads && pendingDownloads[key] == file;
      pendingDownloads := pendingDownloads - {key};
      started := false;
      if listed && mine {
        started := BeginTrackDownloadLocked(key, record, file, bytes, length);
      }
      if !started {
        slots := slots - 1;
        Release(record.sourceId);
      }
    }

    /** One turn of the monitor loop; `finished` sends the goroutine on to `notifyCompleted`. */
    method TickLocked(key: SourceKey, bytes: nat, length: nat) returns (found: bool, finished: bool)
      modifies this`downloads
      ensures found <==> key in old(downloads)
      ensures finished <==> found && bytes >= length
      ensures Abs() == if key in old(downloads) then Ticked(old(Abs()), key, bytes, length) else old(Abs())
    {
      if key !in downloads {
        return false, false;
      }
      var row := downloads[key].(completedBytes := Min(bytes, length));
      if row.completedBytes >= length {
        row := row.(state := Cached, error := "");
        downloads := downloads[key := row];
        return true, true;
      }
      downloads := downloads[key := row];
      return true, false;
    }

    method MarkDownloadEvicted(key: SourceKey)
      modifies this`downloads, this`completed
      ensures Abs() == EvictionMarked(old(Abs()), key)
    {
      if key !in downloads || key in activeDownloads {
        return;
      }
      downloads := downloads[key := downloads[key].(state := Evicted, completedBytes := 0)];
      completed := completed - {key};
    }

    /** Walks all rows in map order; an error on a record file stops the walk after the row has left the tables. */
    method RemoveDownloadsForSource(id: string, undeletable: set<SourceKey>)
      returns (ok: bool, ghost gone: set<SourceKey>)
      modifies this`downloads, this`activeDownloads
      ensures gone <= RowsOf(old(Abs()), id)
      ensures Abs() == RowsRemoved(old(Abs()), gone)
      ensures ok ==> gone == RowsOf(old(Abs()), id)
      ensures !ok ==> gone * undeletable != {}
    {
      var rest := downloads.Keys;
      gone := {};
      while rest != {}
        invariant rest <= old(downloads).Keys && rest !! gone
        invariant gone <= RowsOf(old(Abs()), id) <= gone + rest
        invariant downloads == old(downloads) - gone && activeDownloads == old(activeDownloads) - gone
        decreases rest
      {
        var key :| key in rest;
        rest := rest - {key};
        if downloads[key].sourceId == id {
          downloads := downloads - {key};
          activeDownloads := activeDownloads - {key};
          gone := gone + {key};
          if key in undeletable {
            assert key in gone * undeletable;
            return false, gone;
          }
        }
      }
      return true, gone;
    }

    /** Every cached file once, complete or partial, with its size and the time it was last used. */
    method EvictionCandidates() returns (candidates: seq<Candidate>)
      ensures ListsFiles(candidates, cacheFiles, disk, lastAccessed, modified)
    {
      candidates := [];
      var rest := cacheFiles;
      while rest != {}
        invariant rest <= cacheFiles
        invariant ListsFiles(candidates, cacheFiles - rest, disk, lastAccessed, modified)
        decreases rest
      {
        var key :| key in rest;
        rest := rest - {key};
        var path := Complete(key);
        if path !in disk {
          path := Partial(key);
        }
        if path in disk {
          var used := if key in lastAccessed then lastAccessed[key] else Count(modified, path);
          ListsOneMore(candidates, cacheFiles - rest - {key}, disk, lastAccessed, modified,
                       Candidate(key, path, used, disk[path]));
          assert cacheFiles - rest - {key} + {key} == cacheFiles - rest;
          candidates := candidates + [Candidate(key, path, used, disk[path])];
        }
      }
    }

    /** One candidate: left alone while held or pinned, or if its file has vanished; otherwise its file and its row's
        bytes go. */
    method EvictOne(candidate: Candidate, undeletable: set<Path>) returns (freed: nat, ok: bool)
      modifies this`disk, this`downloads, this`completed, this`lastAccessed
      ensures !ok ==> candidate.path in undeletable && freed == 0 && disk == old(disk) && Abs() == old(Abs())
      ensures ok && Evictable(candidate, active, pins) && candidate.path in old(disk) ==>
                freed == candidate.size && disk == old(disk) - {candidate.path}
                && Abs() == Forgotten(old(Abs()), candidate.key)
      ensures ok && !(Evictable(candidate, active, pins) && candidate.path in old(disk)) ==>
                freed == 0 && disk == old(disk) && Abs() == old(Abs())
    {
      if Count(active, candidate.key.infoHash) > 0 || candidate.key.infoHash in pins {
        return 0, true;
      }
      if candidate.path !in disk {
        return 0, true;
      }
      if candidate.path in undeletable {
        return 0, false;
      }
      disk := disk - {candidate.path};
      MarkDownloadEvicted(candidate.key);
      lastAccessed := lastAccessed - {candidate.key};
      return candidate.size, true;
    }

    /** The loop of `Evict` over the sorted candidates. */
    method EvictInOrder(bytes: int, order: seq<Candidate>, undeletable: set<Path>, budget: nat)
      returns (freed: nat, ok: bool, n: nat)
      requires bytes > 0 && DistinctPaths(order) && forall k :: 0 <= k < |order| ==> order[k].path in disk
      modifies this`disk, this`downloads, this`completed, this`lastAccessed
      ensures n <= |order| && freed == Freed(ItemsOf(order, active, pins), n)
      ensures disk == old(disk) - EvictedPaths(order, active, pins, n)
      ensures Abs() == Swept(old(Abs()), order, pins, n)
      ensures ok ==> StopsAt(ItemsOf(order, active, pins), bytes, n)
      ensures !ok ==> n < |order| && (n >= budget || order[n].path in undeletable)
    {
      ghost var items := ItemsOf(order, active, pins);
      freed, ok, n := 0, true, 0;
      hide DistinctPaths, Freed, EvictedPaths, Swept, Evictable, Forgotten, ItemsOf;
      NothingSwept(order, Abs(), disk, active, pins);
      while n < |order| && freed < bytes
        invariant n <= |order| && ok
        invariant freed == Freed(items, n)
        invariant forall k :: 0 <= k < n ==> Freed(items, k) < bytes
        invariant disk == old(disk) - EvictedPaths(order, active, pins, n)
        invariant Abs() == Swept(old(Abs()), order, pins, n)
      {
        if n >= budget {
          return freed, false, n;
        }
        SweepContinues(order, old(Abs()), old(disk), pins, n);
        var more, deleted := EvictOne(order[n], undeletable);
        if !deleted {
          return freed, false, n;
        }
        freed := freed + more;
        n := n + 1;
      }
    }

    /** Evict under the exclusive lock. `undeletable` are paths whose removal fails, `budget` is the number of
        candidates looked at before the context ends. `order` is the sorted list of all files on disk; its first `n`
        candidates were dealt with, and they are the shortest prefix that frees enough. No file that could have been
        evicted and is still there was used earlier than one that is gone. */
    method Evict(bytes: int, undeletable: set<Path>, budget: nat)
      returns (freed: nat, ok: bool, n: nat, ghost order: seq<Candidate>)
      modifies this`disk, this`downloads, this`completed, this`lastAccessed
      ensures bytes > 0 ==> ListsFiles(order, cacheFiles, old(disk), old(lastAccessed), modified)
      ensures AgeOrdered(order, LastAccessed) && DistinctPaths(order)
      ensures n <= |order| && freed == Freed(ItemsOf(order, active, pins), n)
      ensures disk == old(disk) - EvictedPaths(order, active, pins, n)
      ensures Abs() == Swept(old(Abs()), order, pins, n)
      ensures ok ==>
                StopsAt(ItemsOf(order, active, pins), bytes, n) && Answers(ItemsOf(order, active, pins), bytes, freed)
      ensures !ok ==> n < |order| && (n >= budget || order[n].path in undeletable)
      ensures forall c, d :: c in order && d in order && c.path !in disk && d.path in disk && Evictable(d, active, pins)
                             ==> Evictable(c, active, pins) && c.lastAccessed <= d.lastAccessed
    {
      if bytes <= 0 {
        return 0, true, 0, [];
      }
      var candidates := EvictionCandidates();
      var sorted := SortedByAge(candidates, LastAccessed);
      SortedListsFiles(candidates, cacheFiles, disk, lastAccessed, modified);
      order := sorted;
      hide SortedByAge, ListsFiles, AgeOrdered, DistinctPaths, Freed, EvictedPaths, Swept, Evictable, ItemsOf, StopsAt;
      AllStillThere(sorted, cacheFiles, disk, lastAccessed, modified);
      freed, ok, n := EvictInOrder(bytes, sorted, undeletable, budget);
      SurvivorsAreYounger(sorted, cacheFiles, old(disk), old(lastAccessed), modified, active, pins, n);
    }
  }

  lemma NothingSwept(order: seq<Candidate>, t: Tables, disk: map<Path, nat>, active: map<string, nat>,
                     pins: set<string>)
    ensures Freed(ItemsOf(order, active, pins), 0) == 0 && disk - EvictedPaths(order, active, pins, 0) == disk
    ensures Swept(t, order, pins, 0) == t
  {
  }

  /** What dealing with one more candidate comes to. */
  lemma SweepContinues(order: seq<Candidate>, t: Tables, disk: map<Path, nat>, pins: set<string>, n: nat)
    requires n < |order| && DistinctPaths(order) && order[n].path in disk
    ensures order[n].path in disk - EvictedPaths(order, t.active, pins, n)
    ensures var items, gone := ItemsOf(order, t.active, pins), EvictedPaths(order, t.active, pins, n);
            if Evictable(order[n], t.active, pins) then
              && disk - EvictedPaths(order, t.active, pins, n + 1) == disk - gone - {order[n].path}
              && Swept(t, order, pins, n + 1) == Forgotten(Swept(t, order, pins, n), order[n].key)
              && Freed(items, n + 1) == Freed(items, n) + order[n].size
            else
              && EvictedPaths(order, t.active, pins, n + 1) == gone
                 && Swept(t, order, pins, n + 1) == Swept(t, order, pins, n)
              && Freed(items, n + 1) == Freed(items, n)
  {
    hide Evictable, Forgotten;
    EvictedPathsAreEarlier(order, t.active, pins, n);
  }

  lemma AllStillThere(order: seq<Candidate>, keys: set<SourceKey>, disk: map<Path, nat>,
                      lastAccessed: map<SourceKey, nat>, modified: map<Path, nat>)
    requires ListsFiles(order, keys, disk, lastAccessed, modified)
    ensures forall k :: 0 <= k < |order| ==> order[k].path in disk
  {
    assert forall k :: 0 <= k < |order| ==> order[k] in order;
  }

  lemma SurvivorsAreYounger(order: seq<Candidate>, keys: set<SourceKey>, disk: map<Path, nat>,
                            lastAccessed: map<SourceKey, nat>,
                            modified: map<Path, nat>, active: map<string, nat>, pins: set<string>, n: nat)
    requires ListsFiles(order, keys, disk, lastAccessed, modified) && DistinctPaths(order)
             && AgeOrdered(order, LastAccessed)
    requires n <= |order|
    ensures var left := disk - EvictedPaths(order, active, pins, n);
            forall c, d :: c in order && d in order && c.path !in left && d.path in left && Evictable(d, active, pins)
                           ==> Evictable(c, active, pins) && c.lastAccessed <= d.lastAccessed
  {
    var left := disk - EvictedPaths(order, active, pins, n);
    forall c, d | c in order && d in order && c.path !in left && d.path in left && Evictable(d, active, pins)
      ensures Evictable(c, active, pins) && c.lastAccessed <= d.lastAccessed
    {
      var i :| 0 <= i < |order| && order[i] == c;
      var j :| 0 <= j < |order| && order[j] == d;
      EvictedWasExamined(order, active, pins, n, i);
      EvictedWasExamined(order, active, pins, n, j);
      hide Evictable, EvictedPaths, IsCandidate, OnDisk;
      assert LastAccessed(order[i]) <= LastAccessed(order[j]);
    }
  }
}
