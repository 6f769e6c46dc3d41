/** Every interleaving of the torrent provider's goroutines.

    A state is the shared tables, the read/write lock `operation`, and a program counter for each goroutine
    ever started. One action is one critical section of one goroutine, or one channel operation. */
module TorrentMachine {
  import opened Common
  import opened Counting
  import opened TorrentTables

  datatype Pc =
    // open: holds operation.RLock until its stream is registered
    | Opening(key: SourceKey, file: File)
    | Queued(key: SourceKey)
    // the returned boundedReader, from retainStream to Close
    | Streaming(key: SourceKey)
    | StreamNotifying(key: SourceKey)
    // waitForDownloadSlot
    | AwaitingSlot(key: SourceKey, record: Record, file: File)
    | SlotGranted(key: SourceKey, record: Record, file: File)
    | Abandoned(key: SourceKey, record: Record, file: File)
    | Dropping(h: string)
    // monitorTrackDownload and its deferred clean-up
    | Monitoring(key: SourceKey, file: File)
    | Completed(key: SourceKey, file: File)
    | Notifying(key: SourceKey, file: File)
    | Stopping(key: SourceKey, file: File)
    | Unlisted(h: string)
    | SlotOnly
    // the goroutine running the completion handler
    | Handling(h: string)
    // ResumeTrackDownloads: holds operation.RLock
    | Resuming
    // RemoveSource and Evict: hold operation.Lock
    | Removing(id: string)
    | RemoveReady(id: string)
    | Evicting
    | EvictReady(key: SourceKey)
    | Done

  datatype State = State(
    tables: Tables,
    threads: seq<Pc>,
    readers: int,
    writers: int,
    pins: set<string>,
    cancelled: bool
  )

  datatype Resource =
    | Hold(h: string)
    | StreamOf(h: string)
    | Slot
    | ReadLock
    | WriteLock
    | PendingRow(key: SourceKey)
    | ActiveRow(key: SourceKey)

  /** What each goroutine owns while it stands at a program counter. */
  function Owned(pc: Pc): set<Resource> {
    match pc
    case Opening(_, _) => {ReadLock}
    case Queued(_) => {ReadLock}
    case Streaming(key) => {Hold(key.infoHash), StreamOf(key.infoHash)}
    case StreamNotifying(key) => {Hold(key.infoHash), StreamOf(key.infoHash)}
    case AwaitingSlot(key, _, _) => {Hold(key.infoHash), PendingRow(key)}
    case SlotGranted(key, _, _) => {Hold(key.infoHash), PendingRow(key), Slot}
    case Abandoned(key, _, _) => {Hold(key.infoHash), PendingRow(key)}
    case Dropping(h) => {Hold(h)}
    case Monitoring(key, _) => {Hold(key.infoHash), ActiveRow(key), Slot}
    case Completed(key, _) => {Hold(key.infoHash), ActiveRow(key), Slot}
    case Notifying(key, _) => {Hold(key.infoHash), ActiveRow(key), Slot}
    case Stopping(key, _) => {Hold(key.infoHash), ActiveRow(key), Slot}
    case Unlisted(h) => {Hold(h), Slot}
    case SlotOnly => {Slot}
    case Handling(h) => {Hold(h)}
    case Resuming => {ReadLock}
    case Removing(_) => {WriteLock}
    case RemoveReady(_) => {WriteLock}
    case Evicting => {WriteLock}
    case EvictReady(_) => {WriteLock}
    case Done => {}
  }

  function Owns(pc: Pc, r: Resource): nat {
    if r in Owned(pc) then 1 else 0
  }

  predicate Waits(pc: Pc) {
    pc.AwaitingSlot? || pc.SlotGranted? || pc.Abandoned?
  }

  predicate Monitors(pc: Pc) {
    pc.Monitoring? || pc.Completed? || pc.Notifying? || pc.Stopping?
  }

  function Held(s: State, r: Resource): nat {
    Total(s.threads, Owns, r)
  }

  /** How many units of a resource the shared state says are taken. */
  function Recorded(s: State, r: Resource): int {
    match r
    case Hold(h) => Count(s.tables.active, h)
    case StreamOf(h) => Count(s.tables.streams, h)
    case Slot => s.tables.slots
    case ReadLock => s.readers
    case WriteLock => s.writers
    case PendingRow(key) => if key in s.tables.pendingDownloads then 1 else 0
    case ActiveRow(key) => if key in s.tables.activeDownloads then 1 else 0
  }

  function Init(maxSlots: nat): State {
    State(NoTables(maxSlots), [], 0, 0, {}, false)
  }

  predicate At(s: State, i: nat) {
    i < |s.threads|
  }

  function Moved(s: State, i: nat, pc: Pc): State
    requires At(s, i)
  {
    s.(threads := s.threads[i := pc])
  }

  function Spawned(s: State, pc: Pc): State {
    s.(threads := s.threads + [pc])
  }

  /** queueTrackDownload and resumeTrackDownload leave a key alone that already has a waiter or a monitor. */
  predicate Listed(t: Tables, key: SourceKey) {
    key in t.activeDownloads || key in t.pendingDownloads
  }

  function QueuedRecord(key: SourceKey, bytes: nat, length: nat): Record {
    Record(key.infoHash, Downloading, Min(bytes, length), length, "")
  }

  /** `scheduleTrackDownloadLocked` with the goroutine it starts, if any. */
  function Launched(s: State, key: SourceKey, record: Record, file: File, bytes: nat, length: nat, now: nat): State
  {
    var next := s.(tables := ScheduledTables(s.tables, key, record, file, bytes, length, now));
    match ScheduleOutcome(s.tables, bytes, length)
    case FinishedAtOnce => next
    case MonitorStarted => Spawned(next, Monitoring(key, file))
    case WaiterStarted => Spawned(next, AwaitingSlot(key, record, file))
  }

  // Goroutines that take or give back the operation lock and change nothing else.

  function ReaderStarts(s: State, pc: Pc): State {
    Spawned(s, pc).(readers := s.readers + 1)
  }

  function ReaderEnds(s: State, i: nat): State
    requires At(s, i)
  {
    Moved(s, i, Done).(readers := s.readers - 1)
  }

  function WriterStarts(s: State, pc: Pc): State {
    Spawned(s, pc).(writers := s.writers + 1)
  }

  function WriterEnds(s: State, i: nat): State
    requires At(s, i)
  {
    Moved(s, i, Done).(writers := s.writers - 1)
  }

  // Opening, reading and closing a stream.

  function QueueStep(s: State, i: nat, bytes: nat, length: nat, now: nat): State
    requires At(s, i) && s.threads[i].Opening?
  {
    var key, file := s.threads[i].key, s.threads[i].file;
    var on := Moved(s, i, Queued(key));
    if Listed(s.tables, key) then on
    else Launched(on, key, QueuedRecord(key, bytes, length), file, bytes, length, now)
  }

  function RegisterStep(s: State, i: nat, now: nat): State
    requires At(s, i) && s.threads[i].Queued?
  {
    var key := s.threads[i].key;
    Moved(s, i, Streaming(key)).(
      tables := StreamRetained(s.tables, key.infoHash, key, now), readers := s.readers - 1)
  }

  /** The completion check of `notifyCompleted`; `wanted` is false when no handler or track id is registered. */
  function MarkStep(s: State, i: nat, wanted: bool): State
    requires At(s, i) && (s.threads[i].Streaming? || s.threads[i].Completed?)
  {
    var pc := s.threads[i];
    var marked := wanted && pc.key !in s.tables.completed;
    var next :=
      if pc.Streaming? then (if marked then StreamNotifying(pc.key) else pc)
      else if marked then Notifying(pc.key, pc.file)
      else Stopping(pc.key, pc.file);
    Moved(s, i, next).(
      tables := if marked then s.tables.(completed := s.tables.completed + {pc.key}) else s.tables)
  }

  /** `notifyCompleted` retains for the handler goroutine it then starts. */
  function NotifyStep(s: State, i: nat, now: nat): State
    requires At(s, i) && (s.threads[i].StreamNotifying? || s.threads[i].Notifying?)
  {
    var pc := s.threads[i];
    var h := pc.key.infoHash;
    var next := if pc.StreamNotifying? then Streaming(pc.key) else Stopping(pc.key, pc.file);
    Spawned(Moved(s, i, next), Handling(h)).(tables := Retained(s.tables, h, pc.key, now))
  }

  function CloseStep(s: State, i: nat): State
    requires At(s, i) && s.threads[i].Streaming?
  {
    Moved(s, i, Done).(tables := StreamReleased(s.tables, s.threads[i].key.infoHash))
  }

  // waitForDownloadSlot

  function TakeSlotStep(s: State, i: nat): State
    requires At(s, i) && s.threads[i].AwaitingSlot?
  {
    var pc := s.threads[i];
    Moved(s, i, SlotGranted(pc.key, pc.record, pc.file)).(tables := s.tables.(slots := s.tables.slots + 1))
  }

  function AbandonStep(s: State, i: nat): State
    requires At(s, i) && s.threads[i].AwaitingSlot?
  {
    var pc := s.threads[i];
    Moved(s, i, Abandoned(pc.key, pc.record, pc.file))
  }

  function ForgetStep(s: State, i: nat): State
    requires At(s, i) && s.threads[i].Abandoned?
  {
    var pc := s.threads[i];
    Moved(s, i, Dropping(pc.record.sourceId)).(
      tables := s.tables.(pendingDownloads := s.tables.pendingDownloads - {pc.key}))
  }

  function GrantStep(s: State, i: nat, bytes: nat, length: nat): State
    requires At(s, i) && s.threads[i].SlotGranted?
  {
    var pc := s.threads[i];
    var next := if WaiterStarts(s.tables, pc.key, pc.file, bytes, length) then Monitoring(pc.key, pc.file) else Done;
    Moved(s, i, next).(tables := WaiterGranted(s.tables, pc.key, pc.record, pc.file, bytes, length))
  }

  // monitorTrackDownload

  function TickStep(s: State, i: nat, bytes: nat, length: nat): State
    requires At(s, i) && s.threads[i].Monitoring?
  {
    var pc := s.threads[i];
    if pc.key !in s.tables.downloads then Moved(s, i, Stopping(pc.key, pc.file))
    else
      var next := if bytes >= length then Completed(pc.key, pc.file) else pc;
      Moved(s, i, next).(tables := Ticked(s.tables, pc.key, bytes, length))
  }

  function StopStep(s: State, i: nat): State
    requires At(s, i) && s.threads[i].Monitoring?
  {
    Moved(s, i, Stopping(s.threads[i].key, s.threads[i].file))
  }

  /** The deferred clean-up reads the hash to release from the row, which is a zero value if the row is gone. */
  function UnlistStep(s: State, i: nat): State
    requires At(s, i) && s.threads[i].Stopping?
  {
    var key := s.threads[i].key;
    var h := if key in s.tables.downloads then s.tables.downloads[key].sourceId else "";
    Moved(s, i, Unlisted(h)).(tables := s.tables.(activeDownloads := s.tables.activeDownloads - {key}))
  }

  function ReleaseStep(s: State, i: nat): State
    requires At(s, i) && (s.threads[i].Dropping? || s.threads[i].Unlisted? || s.threads[i].Handling?)
  {
    var pc := s.threads[i];
    Moved(s, i, if pc.Unlisted? then SlotOnly else Done).(tables := Released(s.tables, pc.h))
  }

  function FreeSlotStep(s: State, i: nat): State
    requires At(s, i) && s.threads[i].SlotOnly?
  {
    Moved(s, i, Done).(tables := s.tables.(slots := s.tables.slots - 1))
  }

  // Rows written without any hold: resume, its failure path, and the dashboard listing.

  function RowStep(s: State, key: SourceKey, row: Record): State {
    s.(tables := s.tables.(downloads := s.tables.downloads[key := row]))
  }

  // RemoveSource and Evict

  function CheckRemoveStep(s: State, i: nat): State
    requires At(s, i) && s.threads[i].Removing?
  {
    var id := s.threads[i].id;
    if Count(s.tables.active, id) > 0 then WriterEnds(s, i) else Moved(s, i, RemoveReady(id))
  }

  function RemoveStep(s: State, i: nat, gone: set<SourceKey>): State
    requires At(s, i) && s.threads[i].RemoveReady?
  {
    WriterEnds(s, i).(tables := RowsRemoved(s.tables, gone))
  }

  function CheckEvictStep(s: State, i: nat, key: SourceKey): State
    requires At(s, i) && s.threads[i].Evicting?
  {
    if Count(s.tables.active, key.infoHash) > 0 || key.infoHash in s.pins then s else Moved(s, i, EvictReady(key))
  }

  function EvictStep(s: State, i: nat): State
    requires At(s, i) && s.threads[i].EvictReady?
  {
    var key := s.threads[i].key;
    var t := EvictionMarked(s.tables, key);
    Moved(s, i, Evicting).(tables := t.(lastAccessed := t.lastAccessed - {key}))
  }

  /** One step. `i` is the goroutine that moves; byte counts, errors and clock values are the other arguments. */
  datatype Action =
    | StartOpen(openKey: SourceKey, openFile: File)
    | FailOpen(i: nat)
    | Queue(i: nat, bytes: nat, length: nat, now: nat)
    | RegisterStream(i: nat, now: nat)
    | MarkCompleted(i: nat, wanted: bool)
    | NotifyCompleted(i: nat, now: nat)
    | CloseStream(i: nat)
    | TakeSlot(i: nat)
    | Abandon(i: nat)
    | ForgetPending(i: nat)
    | Grant(i: nat, bytes: nat, length: nat)
    | Tick(i: nat, bytes: nat, length: nat)
    | StopMonitor(i: nat)
    | Unlist(i: nat)
    | ReleaseHold(i: nat)
    | FreeSlot(i: nat)
    | StartResume
    | ResumeRow(i: nat, rowKey: SourceKey, row: Record)
    | ResumeSchedule(i: nat, rowKey: SourceKey, row: Record, file: File, bytes: nat, length: nat, now: nat)
    | EndResume(i: nat)
    | RewriteRow(rowKey: SourceKey, row: Record)
    | Pin(id: string, pinned: bool)
    | StartRemove(id: string)
    | CheckRemove(i: nat)
    | Remove(i: nat, gone: set<SourceKey>)
    | FailRemove(i: nat)
    | StartEvict
    | CheckEvict(i: nat, candidate: SourceKey)
    | EvictFile(i: nat)
    | SkipFile(i: nat)
    | EndEvict(i: nat)
    | Shutdown

  predicate Enabled(s: State, a: Action) {
    match a
    case StartOpen(_, _) => s.writers == 0
    case FailOpen(i) => At(s, i) && s.threads[i].Opening?
    case Queue(i, _, _, _) => At(s, i) && s.threads[i].Opening?
    case RegisterStream(i, _) => At(s, i) && s.threads[i].Queued?
    case MarkCompleted(i, _) => At(s, i) && (s.threads[i].Streaming? || s.threads[i].Completed?)
    case NotifyCompleted(i, _) => At(s, i) && (s.threads[i].StreamNotifying? || s.threads[i].Notifying?)
    case CloseStream(i) => At(s, i) && s.threads[i].Streaming?
    case TakeSlot(i) => At(s, i) && s.threads[i].AwaitingSlot? && s.tables.slots < s.tables.maxSlots
    case Abandon(i) => At(s, i) && s.threads[i].AwaitingSlot? && s.cancelled
    case ForgetPending(i) => At(s, i) && s.threads[i].Abandoned?
    case Grant(i, _, _) => At(s, i) && s.threads[i].SlotGranted?
    case Tick(i, _, _) => At(s, i) && s.threads[i].Monitoring?
    case StopMonitor(i) => At(s, i) && s.threads[i].Monitoring? && s.cancelled
    case Unlist(i) => At(s, i) && s.threads[i].Stopping?
    case ReleaseHold(i) => At(s, i) && (s.threads[i].Dropping? || s.threads[i].Unlisted? || s.threads[i].Handling?)
    case FreeSlot(i) => At(s, i) && s.threads[i].SlotOnly?
    case StartResume => s.writers == 0
    case ResumeRow(i, key, row) =>
      At(s, i) && s.threads[i].Resuming? && row.sourceId == key.infoHash && key !in s.tables.downloads
    case ResumeSchedule(i, key, row, _, _, _, _) =>
      At(s, i) && s.threads[i].Resuming? && row.sourceId == key.infoHash && !Listed(s.tables, key)
    case EndResume(i) => At(s, i) && s.threads[i].Resuming?
    case RewriteRow(key, row) => key in s.tables.downloads && row.sourceId == s.tables.downloads[key].sourceId
    case Pin(_, _) => s.writers == 0
    case StartRemove(_) => s.readers == 0 && s.writers == 0
    case CheckRemove(i) => At(s, i) && s.threads[i].Removing?
    case Remove(i, gone) => At(s, i) && s.threads[i].RemoveReady? && gone <= RowsOf(s.tables, s.threads[i].id)
    case FailRemove(i) => At(s, i) && (s.threads[i].Removing? || s.threads[i].RemoveReady?)
    case StartEvict => s.readers == 0 && s.writers == 0
    case CheckEvict(i, _) => At(s, i) && s.threads[i].Evicting?
    case EvictFile(i) => At(s, i) && s.threads[i].EvictReady?
    case SkipFile(i) => At(s, i) && s.threads[i].EvictReady?
    case EndEvict(i) => At(s, i) && s.threads[i].Evicting?
    case Shutdown => true
  }

  function Apply(s: State, a: Action): (t: State)
    requires Enabled(s, a)
    ensures t.tables.maxSlots == s.tables.maxSlots
  {
    match a
    case StartOpen(key, file) => ReaderStarts(s, Opening(key, file))
    case FailOpen(i) => ReaderEnds(s, i)
    case Queue(i, bytes, length, now) => QueueStep(s, i, bytes, length, now)
    case RegisterStream(i, now) => RegisterStep(s, i, now)
    case MarkCompleted(i, wanted) => MarkStep(s, i, wanted)
    case NotifyCompleted(i, now) => NotifyStep(s, i, now)
    case CloseStream(i) => CloseStep(s, i)
    case TakeSlot(i) => TakeSlotStep(s, i)
    case Abandon(i) => AbandonStep(s, i)
    case ForgetPending(i) => ForgetStep(s, i)
    case Grant(i, bytes, length) => GrantStep(s, i, bytes, length)
    case Tick(i, bytes, length) => TickStep(s, i, bytes, length)
    case StopMonitor(i) => StopStep(s, i)
    case Unlist(i) => UnlistStep(s, i)
    case ReleaseHold(i) => ReleaseStep(s, i)
    case FreeSlot(i) => FreeSlotStep(s, i)
    case StartResume => ReaderStarts(s, Resuming)
    case ResumeRow(_, key, row) => RowStep(s, key, row)
    case ResumeSchedule(_, key, row, file, bytes, length, now) => Launched(s, key, row, file, bytes, length, now)
    case EndResume(i) => ReaderEnds(s, i)
    case RewriteRow(key, row) => RowStep(s, key, row)
    case Pin(id, pinned) => s.(pins := if pinned then s.pins + {id} else s.pins - {id})
    case StartRemove(id) => WriterStarts(s, Removing(id))
    case CheckRemove(i) => CheckRemoveStep(s, i)
    case Remove(i, gone) => RemoveStep(s, i, gone)
    case FailRemove(i) => WriterEnds(s, i)
    case StartEvict => WriterStarts(s, Evicting)
    case CheckEvict(i, key) => CheckEvictStep(s, i, key)
    case EvictFile(i) => EvictStep(s, i)
    case SkipFile(i) => Moved(s, i, Evicting)
    case EndEvict(i) => WriterEnds(s, i)
    case Shutdown => s.(cancelled := true)
  }

  /** Conservation: every counter, lock and row equals the number of goroutines that own it. */
  ghost predicate Conserved(s: State) {
    forall r :: Recorded(s, r) == Held(s, r)
  }

  ghost predicate TablesSound(s: State) {
    var t := s.tables;
    && Positive(t.active) && Positive(t.streams)
    && t.slots <= t.maxSlots
    && 0 <= s.writers <= 1
    && (s.writers == 1 ==> s.readers == 0)
    && t.pendingDownloads.Keys !! t.activeDownloads.Keys
    && t.pendingDownloads.Keys <= t.downloads.Keys
    && t.activeDownloads.Keys <= t.downloads.Keys
    && (forall key :: key in t.downloads ==> t.downloads[key].sourceId == key.infoHash)
  }

  ghost predicate ThreadSound(s: State, pc: Pc) {
    var t := s.tables;
    && (Waits(pc) ==> pc.key in t.pendingDownloads && t.pendingDownloads[pc.key] == pc.file
                      && pc.record.sourceId == pc.key.infoHash)
    && (Monitors(pc) ==> pc.key in t.activeDownloads && t.activeDownloads[pc.key] == pc.file)
    && (pc.RemoveReady? ==> pc.id !in t.active)
    && (pc.EvictReady? ==> pc.key.infoHash !in t.active && pc.key.infoHash !in s.pins)
  }

  ghost predicate Sound(s: State) {
    && TablesSound(s)
    && (forall i :: 0 <= i < |s.threads| ==> ThreadSound(s, s.threads[i]))
  }

  ghost predicate Inv(s: State) {
    Conserved(s) && Sound(s)
  }
}
