/** The torrent machine keeps its invariant over every run, and what follows from it. */
module TorrentSafety {
  import opened Common
  import opened Counting
  import opened TorrentTables
  import opened TorrentMachine

  lemma ConservedByMove(s: State, s': State, i: nat)
    requires Conserved(s) && At(s, i) && At(s', i)
    requires s'.threads == s.threads[i := s'.threads[i]]
    requires forall r :: Recorded(s', r) == Recorded(s, r) - Owns(s.threads[i], r) + Owns(s'.threads[i], r)
    ensures Conserved(s')
  {
    forall r ensures Recorded(s', r) == Held(s', r) {
      TotalUpdate(s.threads, Owns, r, i, s'.threads[i]);
    }
  }

  lemma ConservedBySpawn(s: State, s': State, pc: Pc)
    requires Conserved(s)
    requires s'.threads == s.threads + [pc]
    requires forall r :: Recorded(s', r) == Recorded(s, r) + Owns(pc, r)
    ensures Conserved(s')
  {
    forall r ensures Recorded(s', r) == Held(s', r) {
      TotalAppend(s.threads, Owns, r, pc);
    }
  }

  lemma ConservedByFrame(s: State, s': State)
    requires Conserved(s) && s'.threads == s.threads
    requires forall r :: Recorded(s', r) == Recorded(s, r)
    ensures Conserved(s')
  {
    forall r ensures Recorded(s', r) == Held(s', r) {
      assert Recorded(s, r) == Held(s, r);
    }
  }

  /** What a goroutine owns is on record, and once more for every other goroutine that owns it too. */
  lemma OwnedIsRecorded(s: State, i: nat)
    requires Conserved(s) && At(s, i)
    ensures forall r :: r in Owned(s.threads[i]) ==> Recorded(s, r) >= 1
    ensures forall j, r :: 0 <= j < |s.threads| && j != i && r in Owned(s.threads[i]) && r in Owned(s.threads[j])
                           ==> Recorded(s, r) >= 2
  {
    forall r | r in Owned(s.threads[i]) ensures Recorded(s, r) >= 1 {
      TotalAtLeast(s.threads, Owns, r, i, i);
    }
    forall j, r | 0 <= j < |s.threads| && j != i && r in Owned(s.threads[i]) && r in Owned(s.threads[j])
      ensures Recorded(s, r) >= 2
    {
      TotalAtLeast(s.threads, Owns, r, i, j);
    }
  }

  /** With the write lock free, nobody is between the check and the deletion of a removal or an eviction. */
  lemma NoRemovalUnderway(s: State)
    requires Conserved(s) && s.writers == 0
    ensures forall j :: 0 <= j < |s.threads| ==> !s.threads[j].RemoveReady? && !s.threads[j].EvictReady?
  {
    forall j | 0 <= j < |s.threads| ensures !s.threads[j].RemoveReady? && !s.threads[j].EvictReady? {
      OwnedIsRecorded(s, j);
      assert WriteLock in Owned(s.threads[j]) ==> Recorded(s, WriteLock) >= 1;
    }
  }

  lemma ReaderKeepsWritersOut(s: State, i: nat)
    requires Inv(s) && At(s, i) && ReadLock in Owned(s.threads[i])
    ensures s.writers == 0
    ensures forall j :: 0 <= j < |s.threads| ==> !s.threads[j].RemoveReady? && !s.threads[j].EvictReady?
  {
    OwnedIsRecorded(s, i);
    assert Recorded(s, ReadLock) >= 1;
    NoRemovalUnderway(s);
  }

  /** A goroutine that only changes its place keeps conservation if it keeps what it owns. */
  lemma ConservedInPlace(s: State, s': State, i: nat)
    requires Conserved(s) && At(s, i) && At(s', i)
    requires s'.threads == s.threads[i := s'.threads[i]]
    requires Owned(s'.threads[i]) == Owned(s.threads[i])
    requires s'.readers == s.readers && s'.writers == s.writers
    requires s'.tables.(completed := {}, downloads := map[], lastAccessed := map[])
             == s.tables.(completed := {}, downloads := map[], lastAccessed := map[])
    ensures Conserved(s')
  {
    assert forall r :: Recorded(s', r) == Recorded(s, r);
    ConservedByMove(s, s', i);
  }

  // One pair of lemmas per step: conservation, then the facts about rows and program counters.

  lemma ReaderStartsKeepsInv(s: State, pc: Pc)
    requires Inv(s) && s.writers == 0 && (pc.Opening? || pc.Resuming?)
    ensures Inv(ReaderStarts(s, pc))
  {
    ConservedBySpawn(s, ReaderStarts(s, pc), pc);
  }

  lemma WriterStartsKeepsInv(s: State, pc: Pc)
    requires Inv(s) && s.writers == 0 && s.readers == 0 && (pc.Removing? || pc.Evicting?)
    ensures Inv(WriterStarts(s, pc))
  {
    ConservedBySpawn(s, WriterStarts(s, pc), pc);
  }

  lemma ReaderEndsKeepsInv(s: State, i: nat)
    requires Inv(s) && At(s, i) && (s.threads[i].Opening? || s.threads[i].Resuming?)
    ensures Inv(ReaderEnds(s, i))
  {
    ReaderKeepsWritersOut(s, i);
    ConservedByMove(s, ReaderEnds(s, i), i);
  }

  lemma WriterEndConserves(s: State, i: nat)
    requires Inv(s) && At(s, i)
    requires s.threads[i].Removing? || s.threads[i].RemoveReady? || s.threads[i].Evicting?
    ensures Conserved(WriterEnds(s, i)) && s.writers == 1
  {
    assert TablesSound(s);
    hide Sound;
    OwnedIsRecorded(s, i);
    assert Recorded(s, WriteLock) >= 1;
    ConservedByMove(s, WriterEnds(s, i), i);
  }

  lemma WriterEndsKeepsInv(s: State, i: nat)
    requires Inv(s) && At(s, i)
    requires s.threads[i].Removing? || s.threads[i].RemoveReady? || s.threads[i].Evicting?
    ensures Inv(WriterEnds(s, i))
  {
    hide Conserved;
    WriterEndConserves(s, i);
  }

  lemma RegisterConserves(s: State, i: nat, now: nat)
    requires Inv(s) && At(s, i) && s.threads[i].Queued?
    ensures Conserved(RegisterStep(s, i, now))
  {
    ConservedByMove(s, RegisterStep(s, i, now), i);
  }

  lemma RegisterKeepsSound(s: State, i: nat, now: nat)
    requires Inv(s) && At(s, i) && s.threads[i].Queued?
    ensures Sound(RegisterStep(s, i, now))
  {
    ReaderKeepsWritersOut(s, i);
  }

  lemma MarkKeepsInv(s: State, i: nat, wanted: bool)
    requires Inv(s) && At(s, i) && (s.threads[i].Streaming? || s.threads[i].Completed?)
    ensures Inv(MarkStep(s, i, wanted))
  {
    ConservedInPlace(s, MarkStep(s, i, wanted), i);
  }

  lemma NotifyConserves(s: State, i: nat, now: nat)
    requires Inv(s) && At(s, i) && (s.threads[i].StreamNotifying? || s.threads[i].Notifying?)
    ensures Conserved(NotifyStep(s, i, now))
  {
    var pc := s.threads[i];
    var next := if pc.StreamNotifying? then Streaming(pc.key) else Stopping(pc.key, pc.file);
    ConservedInPlace(s, Moved(s, i, next), i);
    ConservedBySpawn(Moved(s, i, next), NotifyStep(s, i, now), Handling(pc.key.infoHash));
  }

  lemma NotifyKeepsSound(s: State, i: nat, now: nat)
    requires Inv(s) && At(s, i) && (s.threads[i].StreamNotifying? || s.threads[i].Notifying?)
    ensures Sound(NotifyStep(s, i, now))
  {
    OwnedIsRecorded(s, i);
    assert Recorded(s, Hold(s.threads[i].key.infoHash)) >= 1;
  }

  lemma CloseConserves(s: State, i: nat)
    requires Inv(s) && At(s, i) && s.threads[i].Streaming?
    ensures Conserved(CloseStep(s, i))
  {
    OwnedIsRecorded(s, i);
    ConservedByMove(s, CloseStep(s, i), i);
  }

  lemma CloseKeepsSound(s: State, i: nat)
    requires Inv(s) && At(s, i) && s.threads[i].Streaming?
    ensures Sound(CloseStep(s, i))
  {
  }

  lemma TakeSlotKeepsInv(s: State, i: nat)
    requires Inv(s) && At(s, i) && s.threads[i].AwaitingSlot? && s.tables.slots < s.tables.maxSlots
    ensures Inv(TakeSlotStep(s, i))
  {
    ConservedByMove(s, TakeSlotStep(s, i), i);
  }

  lemma AbandonKeepsInv(s: State, i: nat)
    requires Inv(s) && At(s, i) && s.threads[i].AwaitingSlot?
    ensures Inv(AbandonStep(s, i))
  {
    ConservedInPlace(s, AbandonStep(s, i), i);
  }

  lemma ForgetConserves(s: State, i: nat)
    requires Inv(s) && At(s, i) && s.threads[i].Abandoned?
    ensures Conserved(ForgetStep(s, i))
  {
    ConservedByMove(s, ForgetStep(s, i), i);
  }

  lemma ForgetKeepsSound(s: State, i: nat)
    requires Inv(s) && At(s, i) && s.threads[i].Abandoned?
    ensures Sound(ForgetStep(s, i))
  {
    OwnedIsRecorded(s, i);
    assert PendingRow(s.threads[i].key) in Owned(s.threads[i]);
  }

  /** The waiter's row is still there and still its own when it gets its slot. */
  lemma GrantFindsRow(s: State, i: nat)
    requires Inv(s) && At(s, i) && s.threads[i].SlotGranted?
    ensures var pc := s.threads[i];
            && pc.key in s.tables.downloads
            && pc.key in s.tables.pendingDownloads && s.tables.pendingDownloads[pc.key] == pc.file
            && pc.key !in s.tables.activeDownloads
            && pc.record.sourceId == pc.key.infoHash
            && pc.key.infoHash in s.tables.active && s.tables.active[pc.key.infoHash] >= 1
    ensures forall j :: 0 <= j < |s.threads| && j != i && Waits(s.threads[j]) ==> s.threads[j].key != s.threads[i].key
  {
    var pc := s.threads[i];
    assert ThreadSound(s, pc);
    OwnedIsRecorded(s, i);
    assert Hold(pc.key.infoHash) in Owned(pc) && Recorded(s, Hold(pc.key.infoHash)) >= 1;
    assert PendingRow(pc.key) in Owned(pc) && Recorded(s, PendingRow(pc.key)) <= 1;
    forall j | 0 <= j < |s.threads| && j != i && Waits(s.threads[j]) ensures s.threads[j].key != pc.key {
      assert PendingRow(s.threads[j].key) in Owned(s.threads[j]);
    }
  }

  lemma GrantStartsConserves(s: State, i: nat, bytes: nat, length: nat)
    requires Inv(s) && At(s, i) && s.threads[i].SlotGranted? && bytes < length
    ensures Conserved(GrantStep(s, i, bytes, length))
  {
    GrantFindsRow(s, i);
    ConservedByMove(s, GrantStep(s, i, bytes, length), i);
  }

  lemma GrantFinishesTables(s: State, i: nat, bytes: nat, length: nat)
    requires At(s, i) && s.threads[i].SlotGranted? && bytes >= length
    requires var pc := s.threads[i]; var t := s.tables;
             pc.key in t.downloads && pc.key in t.pendingDownloads && t.pendingDownloads[pc.key] == pc.file
    ensures var pc, t, next := s.threads[i], s.tables, GrantStep(s, i, bytes, length);
            var t' := next.tables;
            && next.threads == s.threads[i := Done]
               && (next.readers, next.writers, next.pins) == (s.readers, s.writers, s.pins)
            && t'.pendingDownloads == t.pendingDownloads - {pc.key} && t'.activeDownloads == t.activeDownloads
            && t'.active == Decremented(t.active, pc.record.sourceId) && t'.streams == t.streams
            && t'.slots == t.slots - 1 && t'.maxSlots == t.maxSlots
  {
    hide Decremented;
  }

  lemma GrantFinishesConserves(s: State, i: nat, bytes: nat, length: nat)
    requires Inv(s) && At(s, i) && s.threads[i].SlotGranted? && bytes >= length
    ensures Conserved(GrantStep(s, i, bytes, length))
  {
    hide GrantStep, ThreadSound;
    GrantFindsRow(s, i);
    GrantFinishesTables(s, i, bytes, length);
    ConservedByMove(s, GrantStep(s, i, bytes, length), i);
  }

  lemma GrantStartsKeepsSound(s: State, i: nat, bytes: nat, length: nat)
    requires Inv(s) && At(s, i) && s.threads[i].SlotGranted? && bytes < length
    ensures Sound(GrantStep(s, i, bytes, length))
  {
    hide Conserved;
    GrantFindsRow(s, i);
  }

  lemma GrantFinishesKeepsSound(s: State, i: nat, bytes: nat, length: nat)
    requires Inv(s) && At(s, i) && s.threads[i].SlotGranted? && bytes >= length
    ensures Sound(GrantStep(s, i, bytes, length))
  {
    hide Conserved;
    GrantFindsRow(s, i);
  }

  lemma MonitoredRowExists(s: State, i: nat)
    requires Inv(s) && At(s, i) && s.threads[i].Monitoring?
    ensures s.threads[i].key in s.tables.downloads
  {
    hide Conserved;
    assert ThreadSound(s, s.threads[i]);
  }

  lemma LastTickKeepsInv(s: State, i: nat, bytes: nat, length: nat)
    requires Inv(s) && At(s, i) && s.threads[i].Monitoring? && s.threads[i].key in s.tables.downloads && bytes >= length
    ensures Inv(TickStep(s, i, bytes, length))
  {
    ConservedInPlace(s, TickStep(s, i, bytes, length), i);
  }

  lemma ProgressKeepsInv(s: State, i: nat, bytes: nat, length: nat)
    requires Inv(s) && At(s, i) && s.threads[i].Monitoring? && s.threads[i].key in s.tables.downloads && bytes < length
    ensures Inv(TickStep(s, i, bytes, length))
  {
    ConservedInPlace(s, TickStep(s, i, bytes, length), i);
  }

  lemma TickKeepsInv(s: State, i: nat, bytes: nat, length: nat)
    requires Inv(s) && At(s, i) && s.threads[i].Monitoring?
    ensures Inv(TickStep(s, i, bytes, length))
  {
    hide Inv, TickStep;
    MonitoredRowExists(s, i);
    if bytes >= length {
      LastTickKeepsInv(s, i, bytes, length);
    } else {
      ProgressKeepsInv(s, i, bytes, length);
    }
  }

  lemma StopKeepsInv(s: State, i: nat)
    requires Inv(s) && At(s, i) && s.threads[i].Monitoring?
    ensures Inv(StopStep(s, i))
  {
    ConservedInPlace(s, StopStep(s, i), i);
  }

  lemma UnlistConserves(s: State, i: nat)
    requires Inv(s) && At(s, i) && s.threads[i].Stopping?
    ensures Conserved(UnlistStep(s, i))
  {
    ConservedByMove(s, UnlistStep(s, i), i);
  }

  lemma UnlistKeepsSound(s: State, i: nat)
    requires Inv(s) && At(s, i) && s.threads[i].Stopping?
    ensures Sound(UnlistStep(s, i))
  {
    OwnedIsRecorded(s, i);
    assert ActiveRow(s.threads[i].key) in Owned(s.threads[i]);
  }

  lemma ReleaseConserves(s: State, i: nat)
    requires Inv(s) && At(s, i) && (s.threads[i].Dropping? || s.threads[i].Unlisted? || s.threads[i].Handling?)
    ensures Conserved(ReleaseStep(s, i))
  {
    var h := s.threads[i].h;
    assert Owned(s.threads[i]) == Owned(if s.threads[i].Unlisted? then SlotOnly else Done) + {Hold(h)};
    OwnedIsRecorded(s, i);
    assert Recorded(s, Hold(h)) >= 1;
    ConservedByMove(s, ReleaseStep(s, i), i);
  }

  lemma ReleaseKeepsSound(s: State, i: nat)
    requires Inv(s) && At(s, i) && (s.threads[i].Dropping? || s.threads[i].Unlisted? || s.threads[i].Handling?)
    ensures Sound(ReleaseStep(s, i))
  {
  }

  lemma FreeSlotKeepsInv(s: State, i: nat)
    requires Inv(s) && At(s, i) && s.threads[i].SlotOnly?
    ensures Inv(FreeSlotStep(s, i))
  {
    ConservedByMove(s, FreeSlotStep(s, i), i);
  }

  lemma RowKeepsInv(s: State, key: SourceKey, row: Record)
    requires Inv(s) && row.sourceId == key.infoHash
    ensures Inv(RowStep(s, key, row))
  {
    ConservedByFrame(s, RowStep(s, key, row));
  }

  /** Retaining and releasing the same hash within one section leaves the counter as it was. */
  lemma RetainThenRelease(counts: map<string, nat>, h: string)
    requires Positive(counts)
    ensures Decremented(Incremented(counts, h), h) == counts
  {
  }

  lemma LaunchFinishedKeepsInv(s: State, key: SourceKey, record: Record, file: File, bytes: nat, length: nat, now: nat)
    requires Inv(s) && s.writers == 0 && record.sourceId == key.infoHash && !Listed(s.tables, key)
    requires ScheduleOutcome(s.tables, bytes, length).FinishedAtOnce?
    ensures Inv(Launched(s, key, record, file, bytes, length, now))
  {
    RetainThenRelease(s.tables.active, key.infoHash);
    ConservedByFrame(s, Launched(s, key, record, file, bytes, length, now));
  }

  lemma LaunchMonitorConserves(s: State, key: SourceKey, record: Record, file: File, bytes: nat, length: nat, now: nat)
    requires Inv(s) && record.sourceId == key.infoHash && !Listed(s.tables, key)
    requires ScheduleOutcome(s.tables, bytes, length).MonitorStarted?
    ensures Conserved(Launched(s, key, record, file, bytes, length, now))
  {
    hide ThreadSound, Launched, ScheduleOutcome;
    LaunchMonitorTables(s, key, record, file, bytes, length, now);
    ConservedBySpawn(s, Launched(s, key, record, file, bytes, length, now), Monitoring(key, file));
  }

  lemma LaunchMonitorTables(s: State, key: SourceKey, record: Record, file: File, bytes: nat, length: nat, now: nat)
    requires ScheduleOutcome(s.tables, bytes, length).MonitorStarted?
    ensures var t, next := s.tables, Launched(s, key, record, file, bytes, length, now);
            var t' := next.tables;
            && next.threads == s.threads + [Monitoring(key, file)]
            && (next.readers, next.writers, next.pins) == (s.readers, s.writers, s.pins)
            && t'.downloads.Keys == t.downloads.Keys + {key} && t'.downloads[key].sourceId == record.sourceId
            && (forall k :: k in t.downloads && k != key ==> t'.downloads[k] == t.downloads[k])
            && t'.active == Incremented(t.active, record.sourceId) && t'.streams == t.streams
               && t'.maxSlots == t.maxSlots
            && t'.activeDownloads == t.activeDownloads[key := file] && t'.pendingDownloads == t.pendingDownloads
            && t'.slots == t.slots + 1 && t.slots < t.maxSlots
  {
    hide Incremented;
  }

  lemma LaunchMonitorTablesSound(s: State, key: SourceKey, record: Record, file: File, bytes: nat, length: nat,
                                 now: nat)
    requires TablesSound(s) && record.sourceId == key.infoHash && !Listed(s.tables, key)
    requires ScheduleOutcome(s.tables, bytes, length).MonitorStarted?
    ensures TablesSound(Launched(s, key, record, file, bytes, length, now))
  {
    hide Launched, ScheduleOutcome;
    LaunchMonitorTables(s, key, record, file, bytes, length, now);
  }

  lemma LaunchMonitorThreadsSound(s: State, key: SourceKey, record: Record, file: File, bytes: nat, length: nat,
                                  now: nat)
    requires Sound(s) && record.sourceId == key.infoHash && !Listed(s.tables, key)
    requires forall j :: 0 <= j < |s.threads| ==> !s.threads[j].RemoveReady? && !s.threads[j].EvictReady?
    requires ScheduleOutcome(s.tables, bytes, length).MonitorStarted?
    ensures var next := Launched(s, key, record, file, bytes, length, now);
            forall k :: 0 <= k < |next.threads| ==> ThreadSound(next, next.threads[k])
  {
    hide Launched, ScheduleOutcome, TablesSound;
    LaunchMonitorTables(s, key, record, file, bytes, length, now);
    var next := Launched(s, key, record, file, bytes, length, now);
    forall k | 0 <= k < |next.threads| ensures ThreadSound(next, next.threads[k]) {
      if k < |s.threads| {
        assert ThreadSound(s, s.threads[k]);
      }
    }
  }

  lemma LaunchMonitorKeepsSound(s: State, key: SourceKey, record: Record, file: File, bytes: nat, length: nat, now: nat)
    requires Inv(s) && s.writers == 0 && record.sourceId == key.infoHash && !Listed(s.tables, key)
    requires ScheduleOutcome(s.tables, bytes, length).MonitorStarted?
    ensures Sound(Launched(s, key, record, file, bytes, length, now))
  {
    hide Conserved, Launched, ScheduleOutcome, TablesSound, ThreadSound;
    NoRemovalUnderway(s);
    LaunchMonitorTablesSound(s, key, record, file, bytes, length, now);
    LaunchMonitorThreadsSound(s, key, record, file, bytes, length, now);
  }

  lemma LaunchWaiterConserves(s: State, key: SourceKey, record: Record, file: File, bytes: nat, length: nat, now: nat)
    requires Inv(s) && record.sourceId == key.infoHash && !Listed(s.tables, key)
    requires ScheduleOutcome(s.tables, bytes, length).WaiterStarted?
    ensures Conserved(Launched(s, key, record, file, bytes, length, now))
  {
    hide ThreadSound, Launched, ScheduleOutcome;
    LaunchWaiterTables(s, key, record, file, bytes, length, now);
    ConservedBySpawn(s, Launched(s, key, record, file, bytes, length, now), AwaitingSlot(key, record, file));
  }

  lemma LaunchWaiterTables(s: State, key: SourceKey, record: Record, file: File, bytes: nat, length: nat, now: nat)
    requires ScheduleOutcome(s.tables, bytes, length).WaiterStarted?
    ensures var t, next := s.tables, Launched(s, key, record, file, bytes, length, now);
            var t' := next.tables;
            && next.threads == s.threads + [AwaitingSlot(key, record, file)]
            && (next.readers, next.writers, next.pins) == (s.readers, s.writers, s.pins)
            && t'.downloads.Keys == t.downloads.Keys + {key} && t'.downloads[key].sourceId == record.sourceId
            && (forall k :: k in t.downloads && k != key ==> t'.downloads[k] == t.downloads[k])
            && t'.active == Incremented(t.active, record.sourceId) && t'.streams == t.streams
               && t'.maxSlots == t.maxSlots
            && t'.pendingDownloads == t.pendingDownloads[key := file] && t'.activeDownloads == t.activeDownloads
            && t'.slots == t.slots
  {
    hide Incremented;
  }

  lemma LaunchWaiterTablesSound(s: State, key: SourceKey, record: Record, file: File, bytes: nat, length: nat, now: nat)
    requires TablesSound(s) && record.sourceId == key.infoHash && !Listed(s.tables, key)
    requires ScheduleOutcome(s.tables, bytes, length).WaiterStarted?
    ensures TablesSound(Launched(s, key, record, file, bytes, length, now))
  {
    hide Launched, ScheduleOutcome;
    LaunchWaiterTables(s, key, record, file, bytes, length, now);
  }

  lemma LaunchWaiterThreadsSound(s: State, key: SourceKey, record: Record, file: File, bytes: nat, length: nat,
                                 now: nat)
    requires Sound(s) && record.sourceId == key.infoHash && !Listed(s.tables, key)
    requires forall j :: 0 <= j < |s.threads| ==> !s.threads[j].RemoveReady? && !s.threads[j].EvictReady?
    requires ScheduleOutcome(s.tables, bytes, length).WaiterStarted?
    ensures var next := Launched(s, key, record, file, bytes, length, now);
            forall k :: 0 <= k < |next.threads| ==> ThreadSound(next, next.threads[k])
  {
    hide Launched, ScheduleOutcome, TablesSound;
    LaunchWaiterTables(s, key, record, file, bytes, length, now);
    var next := Launched(s, key, record, file, bytes, length, now);
    forall k | 0 <= k < |next.threads| ensures ThreadSound(next, next.threads[k]) {
      if k < |s.threads| {
        assert ThreadSound(s, s.threads[k]);
      }
    }
  }

  lemma LaunchWaiterKeepsSound(s: State, key: SourceKey, record: Record, file: File, bytes: nat, length: nat, now: nat)
    requires Inv(s) && s.writers == 0 && record.sourceId == key.infoHash && !Listed(s.tables, key)
    requires ScheduleOutcome(s.tables, bytes, length).WaiterStarted?
    ensures Sound(Launched(s, key, record, file, bytes, length, now))
  {
    hide Conserved, Launched, ScheduleOutcome, TablesSound, ThreadSound;
    NoRemovalUnderway(s);
    LaunchWaiterTablesSound(s, key, record, file, bytes, length, now);
    LaunchWaiterThreadsSound(s, key, record, file, bytes, length, now);
  }

  lemma LaunchKeepsInv(s: State, key: SourceKey, record: Record, file: File, bytes: nat, length: nat, now: nat)
    requires Inv(s) && s.writers == 0 && record.sourceId == key.infoHash && !Listed(s.tables, key)
    ensures Inv(Launched(s, key, record, file, bytes, length, now))
  {
    match ScheduleOutcome(s.tables, bytes, length)
    case FinishedAtOnce => LaunchFinishedKeepsInv(s, key, record, file, bytes, length, now);
    case MonitorStarted =>
      LaunchMonitorConserves(s, key, record, file, bytes, length, now);
      LaunchMonitorKeepsSound(s, key, record, file, bytes, length, now);
    case WaiterStarted =>
      LaunchWaiterConserves(s, key, record, file, bytes, length, now);
      LaunchWaiterKeepsSound(s, key, record, file, bytes, length, now);
  }

  lemma QueueKeepsInv(s: State, i: nat, bytes: nat, length: nat, now: nat)
    requires Inv(s) && At(s, i) && s.threads[i].Opening?
    ensures Inv(QueueStep(s, i, bytes, length, now))
  {
    var key, file := s.threads[i].key, s.threads[i].file;
    var on := Moved(s, i, Queued(key));
    ReaderKeepsWritersOut(s, i);
    ConservedInPlace(s, on, i);
    if !Listed(s.tables, key) {
      LaunchKeepsInv(on, key, QueuedRecord(key, bytes, length), file, bytes, length, now);
    }
  }

  lemma CheckRemoveKeepsInv(s: State, i: nat)
    requires Inv(s) && At(s, i) && s.threads[i].Removing?
    ensures Inv(CheckRemoveStep(s, i))
  {
    if Count(s.tables.active, s.threads[i].id) > 0 {
      WriterEndsKeepsInv(s, i);
    } else {
      ConservedInPlace(s, CheckRemoveStep(s, i), i);
    }
  }

  /** Nothing that is removed has a waiter or a monitor, so the removed rows take no ownership with them. */
  lemma RemovedRowsAreIdle(s: State, i: nat, key: SourceKey)
    requires Inv(s) && At(s, i) && s.threads[i].RemoveReady? && key.infoHash == s.threads[i].id
    ensures !Listed(s.tables, key)
  {
    var h := s.threads[i].id;
    assert ThreadSound(s, s.threads[i]) && Recorded(s, Hold(h)) == 0;
    TotalMonotone(s.threads, Owns, ActiveRow(key), Hold(h));
    TotalMonotone(s.threads, Owns, PendingRow(key), Hold(h));
    assert Recorded(s, ActiveRow(key)) == 0 && Recorded(s, PendingRow(key)) == 0;
  }

  lemma RemoveKeepsInv(s: State, i: nat, gone: set<SourceKey>)
    requires Inv(s) && At(s, i) && s.threads[i].RemoveReady? && gone <= RowsOf(s.tables, s.threads[i].id)
    ensures Inv(RemoveStep(s, i, gone))
  {
    forall key | key in gone ensures key.infoHash == s.threads[i].id && !Listed(s.tables, key) {
      RemovedRowsAreIdle(s, i, key);
    }
    WriterEndsKeepsInv(s, i);
    assert s.tables.activeDownloads - gone == s.tables.activeDownloads;
    ConservedByFrame(WriterEnds(s, i), RemoveStep(s, i, gone));
  }

  lemma CheckEvictKeepsInv(s: State, i: nat, key: SourceKey)
    requires Inv(s) && At(s, i) && s.threads[i].Evicting?
    ensures Inv(CheckEvictStep(s, i, key))
  {
    if Count(s.tables.active, key.infoHash) == 0 && key.infoHash !in s.pins {
      ConservedInPlace(s, CheckEvictStep(s, i, key), i);
    }
  }

  lemma EvictKeepsInv(s: State, i: nat)
    requires Inv(s) && At(s, i) && s.threads[i].EvictReady?
    ensures Inv(EvictStep(s, i))
    ensures Inv(Moved(s, i, Evicting))
  {
    ConservedInPlace(s, EvictStep(s, i), i);
    ConservedInPlace(s, Moved(s, i, Evicting), i);
  }

  // Whole runs.

  lemma RowBelongs(s: State, key: SourceKey)
    requires Inv(s)
    ensures key in s.tables.downloads ==> s.tables.downloads[key].sourceId == key.infoHash
  {
    hide Conserved, ThreadSound;
  }

  lemma PinKeepsInv(s: State, id: string, pinned: bool)
    requires Inv(s) && s.writers == 0
    ensures Inv(s.(pins := if pinned then s.pins + {id} else s.pins - {id}))
  {
    NoRemovalUnderway(s);
    ConservedByFrame(s, s.(pins := if pinned then s.pins + {id} else s.pins - {id}));
  }

  lemma ShutdownKeepsInv(s: State)
    requires Inv(s)
    ensures Inv(s.(cancelled := true))
  {
    ConservedByFrame(s, s.(cancelled := true));
  }

  lemma StreamStepKeepsInv(s: State, a: Action)
    requires Inv(s) && Enabled(s, a)
    requires a.StartOpen? || a.FailOpen? || a.Queue? || a.RegisterStream? || a.MarkCompleted? || a.NotifyCompleted?
             || a.CloseStream?
    ensures Inv(Apply(s, a))
  {
    hide Conserved, Sound, QueueStep, RegisterStep, MarkStep, NotifyStep, CloseStep, TakeSlotStep, AbandonStep,
      ForgetStep, GrantStep, TickStep, StopStep, UnlistStep, ReleaseStep, FreeSlotStep, RowStep, Launched,
      CheckRemoveStep, RemoveStep, CheckEvictStep, EvictStep;
    match a
    case StartOpen(key, file) => ReaderStartsKeepsInv(s, Opening(key, file));
    case FailOpen(i) => ReaderEndsKeepsInv(s, i);
    case Queue(i, bytes, length, now) => QueueKeepsInv(s, i, bytes, length, now);
    case RegisterStream(i, now) => RegisterConserves(s, i, now); RegisterKeepsSound(s, i, now);
    case MarkCompleted(i, wanted) => MarkKeepsInv(s, i, wanted);
    case NotifyCompleted(i, now) => NotifyConserves(s, i, now); NotifyKeepsSound(s, i, now);
    case CloseStream(i) => CloseConserves(s, i); CloseKeepsSound(s, i);
  }

  predicate DownloadAction(a: Action) {
    || a.TakeSlot? || a.Abandon? || a.ForgetPending? || a.Grant? || a.Tick? || a.StopMonitor? || a.Unlist?
    || a.ReleaseHold? || a.FreeSlot?
  }

  lemma DownloadStepKeepsInv(s: State, a: Action)
    requires Inv(s) && Enabled(s, a) && DownloadAction(a)
    ensures Inv(Apply(s, a))
  {
    hide Conserved, Sound, QueueStep, RegisterStep, MarkStep, NotifyStep, CloseStep, TakeSlotStep, AbandonStep,
      ForgetStep, GrantStep, TickStep, StopStep, UnlistStep, ReleaseStep, FreeSlotStep, RowStep, Launched,
      CheckRemoveStep, RemoveStep, CheckEvictStep, EvictStep;
    match a
    case TakeSlot(i) => TakeSlotKeepsInv(s, i);
    case Abandon(i) => AbandonKeepsInv(s, i);
    case ForgetPending(i) => ForgetConserves(s, i); ForgetKeepsSound(s, i);
    case Grant(i, bytes, length) =>
      if bytes < length {
        GrantStartsConserves(s, i, bytes, length); GrantStartsKeepsSound(s, i, bytes, length);
      } else {
        GrantFinishesConserves(s, i, bytes, length); GrantFinishesKeepsSound(s, i, bytes, length);
      }
    case Tick(i, bytes, length) => TickKeepsInv(s, i, bytes, length);
    case StopMonitor(i) => StopKeepsInv(s, i);
    case Unlist(i) => UnlistConserves(s, i); UnlistKeepsSound(s, i);
    case ReleaseHold(i) => ReleaseConserves(s, i); ReleaseKeepsSound(s, i);
    case FreeSlot(i) => FreeSlotKeepsInv(s, i);
  }

  predicate SourceAction(a: Action) {
    a.StartResume? || a.ResumeRow? || a.ResumeSchedule? || a.EndResume? || a.RewriteRow? || a.Pin? || a.Shutdown?
  }

  lemma SourceStepKeepsInv(s: State, a: Action)
    requires Inv(s) && Enabled(s, a) && SourceAction(a)
    ensures Inv(Apply(s, a))
  {
    hide Inv, Conserved, Sound, QueueStep, RegisterStep, MarkStep, NotifyStep, CloseStep, TakeSlotStep, AbandonStep,
      ForgetStep, GrantStep, TickStep, StopStep, UnlistStep, ReleaseStep, FreeSlotStep, RowStep, Launched,
      CheckRemoveStep, RemoveStep, CheckEvictStep, EvictStep;
    match a
    case StartResume => ReaderStartsKeepsInv(s, Resuming);
    case ResumeRow(_, key, row) => RowBelongs(s, key); RowKeepsInv(s, key, row);
    case ResumeSchedule(i, key, row, file, bytes, length, now) =>
      ReaderKeepsOut(s, i);
      LaunchKeepsInv(s, key, row, file, bytes, length, now);
    case EndResume(i) => ReaderEndsKeepsInv(s, i);
    case RewriteRow(key, row) => RowBelongs(s, key); RowKeepsInv(s, key, row);
    case Pin(id, pinned) => PinKeepsInv(s, id, pinned);
    case Shutdown => ShutdownKeepsInv(s);
  }

  lemma ReaderKeepsOut(s: State, i: nat)
    requires Inv(s) && At(s, i) && s.threads[i].Resuming?
    ensures s.writers == 0
  {
    ReaderKeepsWritersOut(s, i);
  }

  lemma WriterStepKeepsInv(s: State, a: Action)
    requires Inv(s) && Enabled(s, a)
    requires a.StartRemove? || a.CheckRemove? || a.Remove? || a.FailRemove? || a.StartEvict? || a.CheckEvict?
             || a.EvictFile?
             || a.SkipFile? || a.EndEvict?
    ensures Inv(Apply(s, a))
  {
    hide Inv, Conserved, Sound, QueueStep, RegisterStep, MarkStep, NotifyStep, CloseStep, TakeSlotStep, AbandonStep,
      ForgetStep, GrantStep, TickStep, StopStep, UnlistStep, ReleaseStep, FreeSlotStep, RowStep, Launched,
      CheckRemoveStep, RemoveStep, CheckEvictStep, EvictStep;
    match a
    case StartRemove(id) => WriterStartsKeepsInv(s, Removing(id));
    case CheckRemove(i) => CheckRemoveKeepsInv(s, i);
    case Remove(i, gone) => RemoveKeepsInv(s, i, gone);
    case FailRemove(i) => WriterEndsKeepsInv(s, i);
    case StartEvict => WriterStartsKeepsInv(s, Evicting);
    case CheckEvict(i, key) => CheckEvictKeepsInv(s, i, key);
    case EvictFile(i) => EvictKeepsInv(s, i);
    case SkipFile(i) => EvictKeepsInv(s, i);
    case EndEvict(i) => WriterEndsKeepsInv(s, i);
  }

  lemma StepKeepsInv(s: State, a: Action)
    requires Inv(s) && Enabled(s, a)
    ensures Inv(Apply(s, a))
  {
    hide Inv, Enabled, Apply;
    if DownloadAction(a) {
      DownloadStepKeepsInv(s, a);
    } else if SourceAction(a) {
      SourceStepKeepsInv(s, a);
    } else if a.StartOpen? || a.FailOpen? || a.Queue? || a.RegisterStream? || a.MarkCompleted? || a.NotifyCompleted?
              || a.CloseStream? {
      StreamStepKeepsInv(s, a);
    } else {
      WriterStepKeepsInv(s, a);
    }
  }

  /** A list of actions that can be taken one after the other from a state, and where it leads. */
  predicate Runs(s: State, actions: seq<Action>)
    decreases |actions|
  {
    actions == [] || (Enabled(s, actions[0]) && Runs(Apply(s, actions[0]), actions[1..]))
  }

  function After(s: State, actions: seq<Action>): State
    requires Runs(s, actions)
    decreases |actions|
  {
    if actions == [] then s else After(Apply(s, actions[0]), actions[1..])
  }

  lemma {:induction false} RunKeepsInv(s: State, actions: seq<Action>)
    requires Inv(s) && Runs(s, actions)
    ensures Inv(After(s, actions))
    decreases |actions|
  {
    if actions != [] {
      StepKeepsInv(s, actions[0]);
      RunKeepsInv(Apply(s, actions[0]), actions[1..]);
    }
  }

  lemma ReachableInv(maxSlots: nat, actions: seq<Action>)
    requires Runs(Init(maxSlots), actions)
    ensures Inv(After(Init(maxSlots), actions))
  {
    assert Inv(Init(maxSlots));
    RunKeepsInv(Init(maxSlots), actions);
  }
}
