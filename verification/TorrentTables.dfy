/** The tables of the torrent provider and what one critical section does to them.

    A source key is kept in parsed form: the info hash in front of the first slash and the path behind it.
    A download id is a one-to-one hash of the source key, so the tables are indexed by the key itself.
    A `*torrentclient.File` is an opaque handle of which only identity matters. */
module TorrentTables {
  import opened Common
  import opened Counting

  datatype SourceKey = SourceKey(infoHash: string, path: string)

  type File = nat

  datatype DownloadState = Waiting | Downloading | Cached | Failed | Evicted

  datatype Record = Record(sourceId: string, state: DownloadState, completedBytes: nat, totalBytes: nat, error: string)

  /** Everything guarded by cacheMu, completionMu and downloadMu, plus the slot channel. */
  datatype Tables = Tables(
    active: map<string, nat>,
    streams: map<string, nat>,
    lastAccessed: map<SourceKey, nat>,
    completed: set<SourceKey>,
    downloads: map<SourceKey, Record>,
    activeDownloads: map<SourceKey, File>,
    pendingDownloads: map<SourceKey, File>,
    slots: int,
    maxSlots: nat
  )

  function NoTables(maxSlots: nat): Tables {
    Tables(map[], map[], map[], {}, map[], map[], map[], 0, maxSlots)
  }

  function Incremented(counts: map<string, nat>, h: string): map<string, nat> {
    counts[h := Count(counts, h) + 1]
  }

  function Decremented(counts: map<string, nat>, h: string): map<string, nat> {
    if Count(counts, h) <= 1 then counts - {h} else counts[h := counts[h] - 1]
  }

  function Retained(t: Tables, h: string, key: SourceKey, now: nat): Tables {
    t.(active := Incremented(t.active, h), lastAccessed := t.lastAccessed[key := now])
  }

  function StreamRetained(t: Tables, h: string, key: SourceKey, now: nat): Tables {
    Retained(t, h, key, now).(streams := Incremented(t.streams, h))
  }

  function Released(t: Tables, h: string): Tables {
    t.(active := Decremented(t.active, h))
  }

  function StreamReleased(t: Tables, h: string): Tables {
    t.(active := Decremented(t.active, h), streams := Decremented(t.streams, h))
  }

  /** What `beginTrackDownloadLocked` writes; it starts a monitor exactly when bytes are missing. */
  function Begun(t: Tables, key: SourceKey, record: Record, file: File, bytes: nat, length: nat): (r: Tables)
    ensures r.maxSlots == t.maxSlots
  {
    if bytes >= length then
      t.(downloads := t.downloads[key := record.(state := Cached, error := "", completedBytes := length,
                                                 totalBytes := length)])
    else
      t.(downloads := t.downloads[key := record.(state := Downloading, error := "", completedBytes := bytes,
                                                 totalBytes := length)],
         activeDownloads := t.activeDownloads[key := file],
         completed := t.completed - {key})
  }

  datatype Scheduled = FinishedAtOnce | MonitorStarted | WaiterStarted

  function ScheduleOutcome(t: Tables, bytes: nat, length: nat): Scheduled {
    if t.slots >= t.maxSlots then WaiterStarted
    else if bytes >= length then FinishedAtOnce
    else MonitorStarted
  }

  function ScheduledTables(t: Tables, key: SourceKey, record: Record, file: File, bytes: nat, length: nat,
                           now: nat): (r: Tables)
    ensures r.maxSlots == t.maxSlots
  {
    var held := Retained(t, record.sourceId, key, now);
    match ScheduleOutcome(t, bytes, length)
    case WaiterStarted =>
      held.(downloads := t.downloads[key := record.(state := Waiting, error := "")],
            pendingDownloads := t.pendingDownloads[key := file])
    case FinishedAtOnce =>
      Released(Begun(held, key, record, file, bytes, length), record.sourceId)
    case MonitorStarted =>
      Begun(held, key, record, file, bytes, length).(slots := t.slots + 1)
  }

  /** The waiter's section after it took a slot: a monitor takes over its hold and slot, or both are given back. */
  predicate WaiterStarts(t: Tables, key: SourceKey, file: File, bytes: nat, length: nat) {
    key in t.downloads && key in t.pendingDownloads && t.pendingDownloads[key] == file && bytes < length
  }

  function WaiterGranted(t: Tables, key: SourceKey, record: Record, file: File, bytes: nat, length: nat): (r: Tables)
    ensures r.maxSlots == t.maxSlots
  {
    var gone := key !in t.downloads || key !in t.pendingDownloads || t.pendingDownloads[key] != file;
    var cleared := t.(pendingDownloads := t.pendingDownloads - {key});
    if gone then
      Released(cleared, record.sourceId).(slots := t.slots - 1)
    else if bytes >= length then
      Released(Begun(cleared, key, record, file, bytes, length), record.sourceId).(slots := t.slots - 1)
    else
      Begun(cleared, key, record, file, bytes, length)
  }

  /** One turn of the monitor loop on an existing record. */
  function Ticked(t: Tables, key: SourceKey, bytes: nat, length: nat): (r: Tables)
    requires key in t.downloads
    ensures r.maxSlots == t.maxSlots
  {
    var record := t.downloads[key];
    if bytes >= length then
      t.(downloads := t.downloads[key := record.(completedBytes := length, state := Cached, error := "")])
    else
      t.(downloads := t.downloads[key := record.(completedBytes := bytes)])
  }

  function EvictionMarked(t: Tables, key: SourceKey): (r: Tables)
    ensures r.maxSlots == t.maxSlots
  {
    if key !in t.downloads || key in t.activeDownloads then t
    else t.(downloads := t.downloads[key := t.downloads[key].(state := Evicted, completedBytes := 0)],
            completed := t.completed - {key})
  }

  /** Removal of the download rows of one torrent; `gone` are the rows reached before an error stopped the loop. */
  function RowsRemoved(t: Tables, gone: set<SourceKey>): Tables {
    t.(downloads := t.downloads - gone, activeDownloads := t.activeDownloads - gone)
  }

  function RowsOf(t: Tables, id: string): set<SourceKey> {
    set key | key in t.downloads && t.downloads[key].sourceId == id
  }
}
