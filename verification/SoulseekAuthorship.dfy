/** Whose record a record file holds.

    A record file is named after its source key, so all jobs that ever existed for a key write the same file. The row
    of the key is the newest of them; the file holds what was written last, and a finished job may still write. */
module SoulseekAuthorship {
  import opened Common
  import opened SoulseekJobs
  import opened SoulseekMachine
  import opened SoulseekInvariant
  import opened SoulseekRestart
  import opened SoulseekAbsorption
  import opened SoulseekTheorems

  /** `authors` names, for every record file, the job that has written it last. */
  ghost predicate AuthorsFit(s: State, authors: map<string, nat>) {
    && authors.Keys == s.disk.Keys
    && forall key :: key in authors ==> On(s, authors[key]) && s.heap[authors[key]].key == key
  }

  /** The record of a key is that of its row. */
  predicate Belongs(s: State, authors: map<string, nat>, key: string) {
    key in authors && key in s.records && authors[key] == s.records[key]
  }

  function Signed(t: State, authors: map<string, nat>, writer: Option<nat>): map<string, nat> {
    if writer.Some? && On(t, writer.value) then authors[t.heap[writer.value].key := writer.value] else authors
  }

  /** The step writes the record of a job of this key. */
  predicate WritesFor(t: State, writer: Option<nat>, key: string) {
    writer.Some? && On(t, writer.value) && t.heap[writer.value].key == key
  }

  lemma KeysStay(s: State, t: State, e: Effect)
    requires HeapAbsorbs(s, t, e)
    ensures |s.heap| <= |t.heap| && forall j: nat :: j < |s.heap| ==> t.heap[j].key == s.heap[j].key
  {
    forall j: nat | j < |s.heap| ensures t.heap[j].key == s.heap[j].key {
      assert Absorbed(s.heap[j], t.heap[j], e == Reopens(j));
      hide Closed, Over;
    }
  }

  lemma SignedFits(s: State, t: State, e: Effect, writer: Option<nat>, authors: map<string, nat>)
    requires Absorbing(s, t, e, writer) && AuthorsFit(s, authors)
    ensures AuthorsFit(t, Signed(t, authors, writer))
  {
    hide HeapAbsorbs, Lists, Persisted;
    KeysStay(s, t, e);
  }

  lemma AbsorbingBelongs(s: State, t: State, e: Effect, writer: Option<nat>, authors: map<string, nat>, key: string)
    requires Absorbing(s, t, e, writer) && AuthorsFit(s, authors)
    ensures Belongs(t, Signed(t, authors, writer), key) <==>
            if WritesFor(t, writer, key) then key in t.records && t.records[key] == writer.value
            else Belongs(s, authors, key) && e != Starts(key) && e != Enters(key)
  {
    hide HeapAbsorbs, Persisted;
  }

  /** After any step the record of a key is its row's exactly if the row's job has just written it, or it was the
      row's before and neither another job of the key has written it nor the key has got a new row. */
  lemma BelongsExactly(s: State, a: Action, authors: map<string, nat>, key: string)
    requires Enabled(s, a) && AuthorsFit(s, authors)
    ensures var t, writer := Apply(s, a), Writer(s, a);
            && AuthorsFit(t, Signed(t, authors, writer))
            && (Belongs(t, Signed(t, authors, writer), key) <==>
                if WritesFor(t, writer, key) then key in t.records && t.records[key] == writer.value
                else Belongs(s, authors, key) && EffectOf(s, a) != Starts(key) && EffectOf(s, a) != Enters(key))
  {
    hide Enabled, Apply, EffectOf, Writer, Absorbing, AuthorsFit;
    StepAbsorbs(s, a);
    SignedFits(s, Apply(s, a), EffectOf(s, a), Writer(s, a), authors);
    AbsorbingBelongs(s, Apply(s, a), EffectOf(s, a), Writer(s, a), authors, key);
  }

  /** A job other than the row of its key writes the key's record, or the key gets a new job that has yet to write. */
  predicate DisplacedBy(s: State, e: Effect, writer: Option<nat>, key: string) {
    (WritesFor(s, writer, key) && !(key in s.records && s.records[key] == writer.value)) || e == Starts(key)
  }

  predicate Displaces(s: State, a: Action, key: string)
    requires Enabled(s, a)
  {
    DisplacedBy(s, EffectOf(s, a), Writer(s, a), key)
  }

  /** Only steps without an effect write the records of known jobs; others write none, or that of a job they enter. */
  predicate WriterFits(s: State, e: Effect, writer: Option<nat>) {
    && (e.Enters? ==> !Known(s, e.key))
    && (writer.Some? ==> if e.Enters? then writer.value == |s.heap| else On(s, writer.value) && e == Quiet)
  }

  lemma MoverFits(s: State, i: nat, input: Input)
    requires CanMove(s, i, input)
    ensures WriterFits(s, MoveEffect(s, s.threads[i], input), MoveWriter(s.threads[i], input))
  {
  }

  lemma StepFits(s: State, a: Action)
    requires Enabled(s, a)
    ensures WriterFits(s, EffectOf(s, a), Writer(s, a))
  {
    hide CanMove, MoveWriter, MoveEffect, Snapshot;
    if a.Go? {
      MoverFits(s, a.i, a.input);
    }
  }

  lemma AbsorbingStays(s: State, t: State, e: Effect, writer: Option<nat>, authors: map<string, nat>, key: string)
    requires Absorbing(s, t, e, writer) && WriterFits(s, e, writer) && AuthorsFit(s, authors)
             && Belongs(s, authors, key)
    ensures Belongs(t, Signed(t, authors, writer), key) <==> !DisplacedBy(s, e, writer, key)
  {
    KeysStay(s, t, e);
    AbsorbingBelongs(s, t, e, writer, authors, key);
    hide HeapAbsorbs, Signs, Signed, Persisted;
  }

  /** As long as the record of a key is its row's, it stays so exactly unless it is displaced. */
  lemma StaysItsOwnExactly(s: State, a: Action, authors: map<string, nat>, key: string)
    requires Enabled(s, a) && AuthorsFit(s, authors) && Belongs(s, authors, key)
    ensures Belongs(Apply(s, a), Signed(Apply(s, a), authors, Writer(s, a)), key) <==> !Displaces(s, a, key)
  {
    hide Enabled, Apply, EffectOf, Writer, Absorbing, WriterFits, AuthorsFit, Belongs, DisplacedBy;
    StepAbsorbs(s, a);
    StepFits(s, a);
    AbsorbingStays(s, Apply(s, a), EffectOf(s, a), Writer(s, a), authors, key);
  }

  /** Only a finished job displaces: a late answer, a write that was still to come when the job was cancelled, or a
      late look at it. */
  lemma DisplacingJobIsFinished(s: State, a: Action, key: string)
    requires Inv(s) && Enabled(s, a) && Displaces(s, a, key) && EffectOf(s, a) != Starts(key)
    ensures var k := Writer(s, a).value; On(s, k) && s.heap[k].key == key && s.heap[k].finished
  {
    hide Enabled, EffectOf, Writer, Inv;
    var k := Writer(s, a).value;
    if !s.heap[k].finished {
      LiveJobIsListed(s, k);
    }
  }

  // Crashes.

  /** The next process has one row per record file, restored from it. */
  function Rows(t: State): map<string, nat> {
    map key | key in t.disk && key in t.records :: t.records[key]
  }

  lemma LoadedBelongs(t: State, w: World, key: string)
    requires Listed(w) && OrderOf(w) && LoadedAs(t, w, |w.order|) && key in w.disk
    ensures key in t.disk && key in t.records && On(t, t.records[key])
            && t.heap[t.records[key]] == Restored(w.disk[key], w.files)
  {
    hide Restored, RewrittenFrom;
    var k :| 0 <= k < |w.order| && w.order[k] == key;
  }

  lemma CrashLists(s: State, w: World)
    requires Inv(s) && Happens(s, Crash(w))
    ensures Listed(w) && OrderOf(w) && w.disk == s.disk
  {
    RecordsOnDiskAreSound(s);
    hide Inv;
  }

  /** Whatever job had the row of a key, after a crash the row is restored from what was written last. */
  lemma CrashRestoresTheLastWritten(s: State, w: World, key: string)
    requires Inv(s) && Happens(s, Crash(w)) && key in s.disk
    ensures var t := Following(s, Crash(w));
            && key in t.records && On(t, t.records[key]) && t.heap[t.records[key]] == Restored(s.disk[key], w.files)
            && Belongs(t, Rows(t), key)
  {
    hide Inv, Restarted, LoadedAs, Restored, Listed;
    CrashLists(s, w);
    RestartLoads(w);
    LoadedBelongs(Restarted(w), w, key);
  }

  lemma RowsFit(t: State, w: World)
    requires Listed(w) && OrderOf(w) && LoadedAs(t, w, |w.order|) && TablesSound(t)
    ensures AuthorsFit(t, Rows(t))
  {
    hide JobsLoaded, RewrittenFrom, Restored;
    forall key | key in t.disk ensures key in t.records {
      LoadedBelongs(t, w, key);
    }
  }

  lemma CrashFits(s: State, w: World)
    requires Inv(s) && Happens(s, Crash(w))
    ensures AuthorsFit(Following(s, Crash(w)), Rows(Following(s, Crash(w))))
  {
    hide Restarted, LoadedAs, JobSound, ThreadSound, Conserved, AuthorsFit, Listed;
    CrashLists(s, w);
    RestartLoads(w);
    RestartEstablishesInv(w);
    RowsFit(Restarted(w), w);
  }

  // Runs.

  /** The authors after an event. */
  ghost function Signing(s: State, authors: map<string, nat>, e: Event): map<string, nat>
    requires Happens(s, e)
  {
    match e
    case Step(a) => Signed(Apply(s, a), authors, Writer(s, a))
    case Crash(w) => Rows(Restarted(w))
  }

  ghost function AuthorsAfter(s: State, authors: map<string, nat>, es: seq<Event>): map<string, nat>
    requires Runs(s, es)
    decreases |es|
  {
    if es == [] then authors else AuthorsAfter(Following(s, es[0]), Signing(s, authors, es[0]), es[1..])
  }

  lemma EventFits(s: State, authors: map<string, nat>, e: Event)
    requires Inv(s) && Happens(s, e) && AuthorsFit(s, authors)
    ensures AuthorsFit(Following(s, e), Signing(s, authors, e))
  {
    hide Inv, AuthorsFit;
    match e
    case Step(a) =>
      hide Enabled, Apply, Writer, EffectOf;
      BelongsExactly(s, a, authors, "");
    case Crash(w) =>
      hide Restarted;
      CrashFits(s, w);
  }

  lemma {:induction false} AuthorsAlwaysFit(s: State, authors: map<string, nat>, es: seq<Event>)
    requires Inv(s) && AuthorsFit(s, authors) && Runs(s, es)
    ensures AuthorsFit(After(s, es), AuthorsAfter(s, authors, es))
    decreases |es|
  {
    hide Inv, AuthorsFit, Happens, Following, Signing;
    if es != [] {
      EventFits(s, authors, es[0]);
      EventKeepsInv(s, es[0]);
      AuthorsAlwaysFit(Following(s, es[0]), Signing(s, authors, es[0]), es[1..]);
    }
  }

  predicate EventDisplaces(s: State, e: Event, key: string)
    requires e.Step? ==> Enabled(s, e.a)
  {
    e.Step? && Displaces(s, e.a, key)
  }

  lemma OwnedIsOnDisk(s: State, authors: map<string, nat>, key: string)
    requires AuthorsFit(s, authors) && Belongs(s, authors, key)
    ensures key in s.disk
  {
  }

  lemma EventStaysExactly(s: State, authors: map<string, nat>, e: Event, key: string)
    requires Inv(s) && Happens(s, e) && AuthorsFit(s, authors) && Belongs(s, authors, key)
    ensures Belongs(Following(s, e), Signing(s, authors, e), key) <==> !EventDisplaces(s, e, key)
  {
    hide Inv, Belongs;
    match e
    case Step(a) =>
      hide Enabled, Apply, Writer, EffectOf, AuthorsFit;
      StaysItsOwnExactly(s, a, authors, key);
    case Crash(w) =>
      hide Restarted, AuthorsFit;
      OwnedIsOnDisk(s, authors, key);
      CrashRestoresTheLastWritten(s, w, key);
  }

  ghost predicate BelongsThroughout(s: State, authors: map<string, nat>, es: seq<Event>, key: string)
    requires Runs(s, es)
    decreases |es|
  {
    Belongs(s, authors, key)
    && (es == [] || BelongsThroughout(Following(s, es[0]), Signing(s, authors, es[0]), es[1..], key))
  }

  ghost predicate Undisplaced(s: State, es: seq<Event>, key: string)
    requires Runs(s, es)
    decreases |es|
  {
    es == [] || (!EventDisplaces(s, es[0], key) && Undisplaced(Following(s, es[0]), es[1..], key))
  }

  /** Along any run, across any number of crashes, the record of a key stays that of the key's row exactly as long as
      no other job of the key writes late and no new job of the key is started. */
  lemma {:induction false} BelongsThroughoutExactly(s: State, authors: map<string, nat>, es: seq<Event>, key: string)
    requires Inv(s) && AuthorsFit(s, authors) && Runs(s, es) && Belongs(s, authors, key)
    ensures BelongsThroughout(s, authors, es, key) <==> Undisplaced(s, es, key)
    decreases |es|
  {
    if es != [] {
      assert Runs(Following(s, es[0]), es[1..]);
      hide Inv, AuthorsFit, Belongs, Happens, Following, Signing, EventDisplaces;
      EventStaysExactly(s, authors, es[0], key);
      EventFits(s, authors, es[0]);
      EventKeepsInv(s, es[0]);
      if Belongs(Following(s, es[0]), Signing(s, authors, es[0]), key) {
        BelongsThroughoutExactly(Following(s, es[0]), Signing(s, authors, es[0]), es[1..], key);
      }
    }
  }
}
