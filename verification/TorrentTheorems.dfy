/** What the torrent provider guarantees after any list of steps from an empty provider. */
module TorrentTheorems {
  import opened Common
  import opened Counting
  import opened TorrentTables
  import opened TorrentMachine
  import opened TorrentSafety

  lemma {:induction false} LimitNeverChanges(s: State, actions: seq<Action>)
    requires Runs(s, actions)
    ensures After(s, actions).tables.maxSlots == s.tables.maxSlots
    decreases |actions|
  {
    hide Enabled, Apply;
    if actions != [] {
      LimitNeverChanges(Apply(s, actions[0]), actions[1..]);
    }
  }

  /** The reference counter of a hash is the number of goroutines with a hold on it, the stream counter the
      number of open streams, and the occupied slots are the slot owners, never more than the limit. */
  lemma CountersCountOwners(maxSlots: nat, actions: seq<Action>)
    requires Runs(Init(maxSlots), actions)
    ensures var s := After(Init(maxSlots), actions);
            && (forall h :: Count(s.tables.active, h) == Total(s.threads, Owns, Hold(h)))
            && (forall h :: Count(s.tables.streams, h) == Total(s.threads, Owns, StreamOf(h)))
            && s.tables.slots == Total(s.threads, Owns, Slot) <= maxSlots
  {
    ReachableInv(maxSlots, actions);
    LimitNeverChanges(Init(maxSlots), actions);
    var s := After(Init(maxSlots), actions);
    assert Recorded(s, Slot) == Held(s, Slot);
    forall h ensures Count(s.tables.active, h) == Total(s.threads, Owns, Hold(h))
                  && Count(s.tables.streams, h) == Total(s.threads, Owns, StreamOf(h))
    {
      assert Recorded(s, Hold(h)) == Held(s, Hold(h));
      assert Recorded(s, StreamOf(h)) == Held(s, StreamOf(h));
    }
  }

  predicate Works(pc: Pc) {
    Waits(pc) || Monitors(pc)
  }

  function RowOf(pc: Pc): Resource
    requires Works(pc)
  {
    if Waits(pc) then PendingRow(pc.key) else ActiveRow(pc.key)
  }

  lemma WorkerHasItsRow(s: State, i: nat)
    requires Sound(s) && At(s, i) && Works(s.threads[i])
    ensures Owns(s.threads[i], RowOf(s.threads[i])) == 1 && Recorded(s, RowOf(s.threads[i])) == 1
  {
    assert ThreadSound(s, s.threads[i]);
  }

  lemma RowsAreOfOneKind(s: State, i: nat, j: nat)
    requires Sound(s) && At(s, i) && At(s, j) && Works(s.threads[i]) && Works(s.threads[j])
    requires s.threads[i].key == s.threads[j].key
    ensures RowOf(s.threads[i]) == RowOf(s.threads[j])
  {
    assert ThreadSound(s, s.threads[i]) && ThreadSound(s, s.threads[j]);
    assert TablesSound(s);
  }

  /** A download id never has two goroutines working for it. */
  lemma OneWorkerPerDownload(maxSlots: nat, actions: seq<Action>, i: nat, j: nat)
    requires Runs(Init(maxSlots), actions)
    requires var s := After(Init(maxSlots), actions);
             At(s, i) && At(s, j) && Works(s.threads[i]) && Works(s.threads[j]) && s.threads[i].key == s.threads[j].key
    ensures i == j
  {
    hide Sound, Works, RowOf, Recorded;
    ReachableInv(maxSlots, actions);
    var s := After(Init(maxSlots), actions);
    RowsAreOfOneKind(s, i, j);
    WorkerHasItsRow(s, i);
    WorkerHasItsRow(s, j);
    TotalAtLeast(s.threads, Owns, RowOf(s.threads[i]), i, j);
    assert Recorded(s, RowOf(s.threads[i])) == Held(s, RowOf(s.threads[i]));
  }

  /** RemoveSource reports "busy" exactly when some goroutine has a hold on the torrent. */
  lemma RemovalRefusedExactlyWhenHeld(maxSlots: nat, actions: seq<Action>, i: nat)
    requires Runs(Init(maxSlots), actions)
    requires Enabled(After(Init(maxSlots), actions), CheckRemove(i))
    ensures var s := After(Init(maxSlots), actions);
            var s' := Apply(s, CheckRemove(i));
            s'.threads[i].Done? <==>
            exists j :: 0 <= j < |s.threads| && Hold(s.threads[i].id) in Owned(s.threads[j])
  {
    ReachableInv(maxSlots, actions);
    var s := After(Init(maxSlots), actions);
    var hold := Hold(s.threads[i].id);
    assert Recorded(s, hold) == Held(s, hold);
    if Held(s, hold) > 0 {
      var j := TotalOwner(s.threads, Owns, hold);
      assert hold in Owned(s.threads[j]);
    } else {
      forall j | 0 <= j < |s.threads| ensures hold !in Owned(s.threads[j]) {
        TotalAtLeast(s.threads, Owns, hold, j, j);
      }
    }
  }

  /** When RemoveSource deletes, whatever happened between its check and this moment, nobody holds the torrent
      and none of its downloads has a waiter or a monitor. */
  lemma RemovalFindsNoHold(maxSlots: nat, actions: seq<Action>, i: nat, gone: set<SourceKey>)
    requires Runs(Init(maxSlots), actions)
    requires Enabled(After(Init(maxSlots), actions), Remove(i, gone))
    ensures var s := After(Init(maxSlots), actions);
            && (forall j :: 0 <= j < |s.threads| ==> Hold(s.threads[i].id) !in Owned(s.threads[j]))
            && (forall key :: key in gone ==> key.infoHash == s.threads[i].id && !Listed(s.tables, key))
  {
    ReachableInv(maxSlots, actions);
    var s := After(Init(maxSlots), actions);
    var hold := Hold(s.threads[i].id);
    assert ThreadSound(s, s.threads[i]) && Recorded(s, hold) == 0;
    forall j | 0 <= j < |s.threads| ensures hold !in Owned(s.threads[j]) {
      TotalAtLeast(s.threads, Owns, hold, j, j);
    }
    forall key | key in gone ensures key.infoHash == s.threads[i].id && !Listed(s.tables, key) {
      RemovedRowsAreIdle(s, i, key);
    }
  }

  /** The same for Evict: at the moment a file is deleted its torrent has no hold and no pin. */
  lemma EvictionFindsNoHoldAndNoPin(maxSlots: nat, actions: seq<Action>, i: nat)
    requires Runs(Init(maxSlots), actions)
    requires Enabled(After(Init(maxSlots), actions), EvictFile(i))
    ensures var s := After(Init(maxSlots), actions);
            var h := s.threads[i].key.infoHash;
            && h !in s.pins
            && (forall j :: 0 <= j < |s.threads| ==> Hold(h) !in Owned(s.threads[j]))
  {
    ReachableInv(maxSlots, actions);
    var s := After(Init(maxSlots), actions);
    var h := s.threads[i].key.infoHash;
    assert ThreadSound(s, s.threads[i]) && Recorded(s, Hold(h)) == 0;
    forall j | 0 <= j < |s.threads| ensures Hold(h) !in Owned(s.threads[j]) {
      TotalAtLeast(s.threads, Owns, Hold(h), j, j);
    }
  }

  /** The branches for a row that disappeared under a waiter or a monitor are never taken. */
  lemma RowsOutliveTheirWorkers(maxSlots: nat, actions: seq<Action>, i: nat)
    requires Runs(Init(maxSlots), actions) && At(After(Init(maxSlots), actions), i)
    ensures var s := After(Init(maxSlots), actions);
            var pc := s.threads[i];
            && (pc.SlotGranted? ==> pc.key in s.tables.downloads && pc.key in s.tables.pendingDownloads
                                    && s.tables.pendingDownloads[pc.key] == pc.file)
            && (Monitors(pc) ==> pc.key in s.tables.downloads
                                 && s.tables.downloads[pc.key].sourceId == pc.key.infoHash)
  {
    ReachableInv(maxSlots, actions);
    var s := After(Init(maxSlots), actions);
    assert ThreadSound(s, s.threads[i]);
  }

  lemma NothingIsRecorded(s: State, r: Resource)
    requires Inv(s) && forall i :: 0 <= i < |s.threads| ==> s.threads[i].Done?
    ensures Recorded(s, r) == 0
  {
    TotalNone(s.threads, Owns, r);
    assert Recorded(s, r) == Held(s, r);
  }

  lemma NothingIsListed(s: State)
    requires Inv(s) && forall i :: 0 <= i < |s.threads| ==> s.threads[i].Done?
    ensures s.tables.active == map[] && s.tables.streams == map[]
    ensures s.tables.pendingDownloads == map[] && s.tables.activeDownloads == map[]
  {
    assert TablesSound(s);
    hide Conserved, ThreadSound;
    forall h ensures h !in s.tables.active && h !in s.tables.streams {
      NothingIsRecorded(s, Hold(h));
      NothingIsRecorded(s, StreamOf(h));
    }
    forall key ensures key !in s.tables.pendingDownloads && key !in s.tables.activeDownloads {
      NothingIsRecorded(s, PendingRow(key));
      NothingIsRecorded(s, ActiveRow(key));
    }
  }

  /** Nothing leaks: once every goroutine is done, all counters, slots, rows in progress and locks are free. */
  lemma QuiescenceIsClean(maxSlots: nat, actions: seq<Action>)
    requires Runs(Init(maxSlots), actions)
    requires forall i :: 0 <= i < |After(Init(maxSlots), actions).threads| ==>
                         After(Init(maxSlots), actions).threads[i].Done?
    ensures var s := After(Init(maxSlots), actions);
            && s.tables.active == map[] && s.tables.streams == map[] && s.tables.slots == 0
            && s.tables.pendingDownloads == map[] && s.tables.activeDownloads == map[]
            && s.readers == 0 && s.writers == 0
  {
    hide Inv;
    ReachableInv(maxSlots, actions);
    var s := After(Init(maxSlots), actions);
    NothingIsListed(s);
    NothingIsRecorded(s, Slot);
    NothingIsRecorded(s, ReadLock);
    NothingIsRecorded(s, WriteLock);
  }
}
