/** At most one operation per Soulseek peer, although the gates that ensure it come and go.

    A peer's gate is created by its first user and deleted by its last. Gates live on a heap and are named by their
    index, as Go names them by pointer; a deleted gate stays there, out of the table. */
module PeerGate {
  import opened Common
  import opened Counting

  /** `key` never changes and is kept for the proofs: which peer the gate was made for. */
  datatype Gate = Gate(key: string, users: int, busy: bool)

  /** A goroutine inside `doPeerJSON`: waiting for the gate's semaphore, operating on the peer, or past the
      semaphore and about to give up its use of the gate. */
  datatype Pc = Waiting(key: string, gate: nat) | Operating(key: string, gate: nat) | Leaving(key: string, gate: nat)
    | Done

  datatype State = State(gates: seq<Gate>, table: map<string, nat>, threads: seq<Pc>)

  datatype Resource = UserOf(gate: nat) | HolderOf(gate: nat)

  function Owned(pc: Pc): set<Resource> {
    match pc
    case Waiting(_, g) => {UserOf(g)}
    case Operating(_, g) => {UserOf(g), HolderOf(g)}
    case Leaving(_, g) => {UserOf(g)}
    case Done => {}
  }

  function Owns(pc: Pc, r: Resource): nat {
    if r in Owned(pc) then 1 else 0
  }

  function Recorded(s: State, r: Resource): int {
    if r.gate >= |s.gates| then 0
    else match r
         case UserOf(g) => s.gates[g].users
         case HolderOf(g) => if s.gates[g].busy then 1 else 0
  }

  predicate At(s: State, i: nat) {
    i < |s.threads|
  }

  predicate Exists(s: State, g: nat) {
    g < |s.gates|
  }

  // Peer names, as the source compares them (ASCII letters and blanks).

  function Lowered(c: char): char {
    if 'A' <= c <= 'Z' then c - 'A' + 'a' else c
  }

  predicate Blank(c: char) {
    c == ' ' || c == '\t' || c == '\n' || c == '\r'
  }

  function TrimmedLeft(s: string): string {
    if s != [] && Blank(s[0]) then TrimmedLeft(s[1..]) else s
  }

  function TrimmedRight(s: string): string {
    if s != [] && Blank(s[|s| - 1]) then TrimmedRight(s[..|s| - 1]) else s
  }

  function Normalised(peer: string): string {
    var trimmed := TrimmedRight(TrimmedLeft(peer));
    seq(|trimmed|, k requires 0 <= k < |trimmed| => Lowered(trimmed[k]))
  }

  // Steps.

  /** The section of `acquirePeerOperation`: the peer's gate, made if there is none, gets one more user. */
  function Enter(gates: seq<Gate>, table: map<string, nat>, key: string): (r: (seq<Gate>, map<string, nat>, nat))
    requires key in table ==> table[key] < |gates|
  {
    if key in table then
      var g := table[key];
      (gates[g := gates[g].(users := gates[g].users + 1)], table, g)
    else (gates + [Gate(key, 1, false)], table[key := |gates|], |gates|)
  }

  /** `releasePeerOperation`. */
  function Leave(gates: seq<Gate>, table: map<string, nat>, key: string, g: nat): (r: (seq<Gate>, map<string, nat>))
    requires g < |gates|
  {
    var left := gates[g := gates[g].(users := gates[g].users - 1)];
    (left, if left[g].users == 0 && key in table && table[key] == g then table - {key} else table)
  }

  datatype Action = Call(peer: string) | Acquire(i: nat) | GiveUp(i: nat) | Finish(i: nat) | Release(i: nat)

  /** The table names only gates that exist; the invariant shows it always does. */
  predicate Listed(s: State, key: string) {
    key in s.table ==> Exists(s, s.table[key])
  }

  predicate Enabled(s: State, a: Action) {
    match a
    case Call(peer) => Listed(s, Normalised(peer))
    case Acquire(i) => At(s, i) && s.threads[i].Waiting? && Exists(s, s.threads[i].gate)
                       && !s.gates[s.threads[i].gate].busy
    case GiveUp(i) => At(s, i) && s.threads[i].Waiting?
    case Finish(i) => At(s, i) && s.threads[i].Operating? && Exists(s, s.threads[i].gate)
    case Release(i) => At(s, i) && s.threads[i].Leaving? && Exists(s, s.threads[i].gate)
  }

  function CallStep(s: State, key: string): State
    requires Listed(s, key)
  {
    var (gates, table, g) := Enter(s.gates, s.table, key);
    State(gates, table, s.threads + [Waiting(key, g)])
  }

  function AcquireStep(s: State, i: nat, key: string, g: nat): State
    requires At(s, i) && Exists(s, g)
  {
    s.(gates := s.gates[g := s.gates[g].(busy := true)], threads := s.threads[i := Operating(key, g)])
  }

  /** The operation is over: the semaphore is given back before the gate is left. */
  function FinishStep(s: State, i: nat, key: string, g: nat): State
    requires At(s, i) && Exists(s, g)
  {
    s.(gates := s.gates[g := s.gates[g].(busy := false)], threads := s.threads[i := Leaving(key, g)])
  }

  function ReleaseStep(s: State, i: nat, key: string, g: nat): State
    requires At(s, i) && Exists(s, g)
  {
    var (gates, table) := Leave(s.gates, s.table, key, g);
    State(gates, table, s.threads[i := Done])
  }

  function Apply(s: State, a: Action): State
    requires Enabled(s, a)
  {
    match a
    case Call(peer) => CallStep(s, Normalised(peer))
    case Acquire(i) => AcquireStep(s, i, s.threads[i].key, s.threads[i].gate)
    case GiveUp(i) => s.(threads := s.threads[i := Leaving(s.threads[i].key, s.threads[i].gate)])
    case Finish(i) => FinishStep(s, i, s.threads[i].key, s.threads[i].gate)
    case Release(i) => ReleaseStep(s, i, s.threads[i].key, s.threads[i].gate)
  }

  // The invariant.

  ghost predicate Conserved(s: State) {
    forall r :: Recorded(s, r) == Total(s.threads, Owns, r)
  }

  predicate ThreadSound(s: State, pc: Pc) {
    pc.Done? || (Exists(s, pc.gate) && s.gates[pc.gate].key == pc.key)
  }

  ghost predicate Sound(s: State) {
    && (forall i :: 0 <= i < |s.threads| ==> ThreadSound(s, s.threads[i]))
    && (forall key :: key in s.table ==> Exists(s, s.table[key]) && s.gates[s.table[key]].key == key
                                         && s.gates[s.table[key]].users > 0)
    && (forall g :: 0 <= g < |s.gates| && s.gates[g].users > 0 ==>
          s.gates[g].key in s.table && s.table[s.gates[g].key] == g)
  }

  ghost predicate Inv(s: State) {
    Conserved(s) && Sound(s)
  }

  lemma OwnedIsRecorded(s: State, i: nat, r: Resource)
    requires Conserved(s) && At(s, i)
    ensures r in Owned(s.threads[i]) ==> Recorded(s, r) >= 1
    ensures forall k :: 0 <= k < |s.threads| && k != i && r in Owned(s.threads[i]) && r in Owned(s.threads[k]) ==>
              Recorded(s, r) >= 2
  {
    TotalAtLeast(s.threads, Owns, r, i, i);
    forall k | 0 <= k < |s.threads| && k != i && r in Owned(s.threads[i]) && r in Owned(s.threads[k])
      ensures Recorded(s, r) >= 2 {
      TotalAtLeast(s.threads, Owns, r, i, k);
    }
  }

  lemma ConservedByMove(s: State, t: State, i: nat, pc: Pc)
    requires Conserved(s) && At(s, i) && t.threads == s.threads[i := pc]
    requires forall r :: Recorded(t, r) == Recorded(s, r) - Owns(s.threads[i], r) + Owns(pc, r)
    ensures Conserved(t)
  {
    forall r ensures Recorded(t, r) == Total(t.threads, Owns, r) {
      TotalUpdate(s.threads, Owns, r, i, pc);
    }
  }

  lemma CallKeepsInv(s: State, key: string)
    requires Inv(s)
    ensures Listed(s, key) && Inv(CallStep(s, key))
  {
    var t := CallStep(s, key);
    var pc := t.threads[|s.threads|];
    forall r ensures Recorded(t, r) == Recorded(s, r) + Owns(pc, r) {
    }
    ConservedBySpawn(s, t, pc);
    hide Conserved, Owns;
  }

  lemma ConservedBySpawn(s: State, t: State, pc: Pc)
    requires Conserved(s) && t.threads == s.threads + [pc]
    requires forall r :: Recorded(t, r) == Recorded(s, r) + Owns(pc, r)
    ensures Conserved(t)
  {
    hide Recorded, Owns;
    forall r ensures Recorded(t, r) == Total(t.threads, Owns, r) {
      TotalAppend(s.threads, Owns, r, pc);
    }
  }

  lemma MoveKeepsInv(s: State, i: nat, g: nat, pc: Pc, busy: bool)
    requires Inv(s) && At(s, i) && !s.threads[i].Done? && s.threads[i].gate == g && !s.threads[i].Leaving?
    requires pc == (if busy then Operating(s.threads[i].key, g) else Leaving(s.threads[i].key, g))
    requires busy ==> s.threads[i].Waiting? && Exists(s, g) && !s.gates[g].busy
    requires !busy ==> s.threads[i].Operating?
    ensures Exists(s, g)
    ensures Inv(s.(gates := s.gates[g := s.gates[g].(busy := busy)], threads := s.threads[i := pc]))
  {
    assert ThreadSound(s, s.threads[i]);
    OwnedIsRecorded(s, i, HolderOf(g));
    var t := s.(gates := s.gates[g := s.gates[g].(busy := busy)], threads := s.threads[i := pc]);
    forall r ensures Recorded(t, r) == Recorded(s, r) - Owns(s.threads[i], r) + Owns(pc, r) {
    }
    ConservedByMove(s, t, i, pc);
  }

  lemma GiveUpKeepsInv(s: State, i: nat)
    requires Inv(s) && Enabled(s, GiveUp(i))
    ensures Inv(Apply(s, GiveUp(i)))
  {
    var pc := Leaving(s.threads[i].key, s.threads[i].gate);
    assert ThreadSound(s, s.threads[i]);
    forall r ensures Recorded(Apply(s, GiveUp(i)), r) == Recorded(s, r) {
    }
    ConservedByMove(s, Apply(s, GiveUp(i)), i, pc);
  }

  lemma ReleaseKeepsInv(s: State, i: nat, key: string, g: nat)
    requires Inv(s) && At(s, i) && s.threads[i] == Leaving(key, g) && Exists(s, g)
    ensures Inv(ReleaseStep(s, i, key, g))
  {
    assert ThreadSound(s, s.threads[i]);
    OwnedIsRecorded(s, i, UserOf(g));
    var t := ReleaseStep(s, i, key, g);
    forall r ensures Recorded(t, r) == Recorded(s, r) - Owns(s.threads[i], r) + Owns(Done, r) {
    }
    ConservedByMove(s, t, i, Done);
    forall k | 0 <= k < |t.threads| ensures ThreadSound(t, t.threads[k]) {
      assert ThreadSound(s, s.threads[k]);
    }
  }

  lemma StepKeepsInv(s: State, a: Action)
    requires Inv(s) && Enabled(s, a)
    ensures Inv(Apply(s, a))
  {
    hide Inv, Enter, Leave;
    match a
    case Call(peer) => CallKeepsInv(s, Normalised(peer));
    case Acquire(i) => MoveKeepsInv(s, i, s.threads[i].gate, Operating(s.threads[i].key, s.threads[i].gate), true);
    case GiveUp(i) => GiveUpKeepsInv(s, i);
    case Finish(i) => MoveKeepsInv(s, i, s.threads[i].gate, Leaving(s.threads[i].key, s.threads[i].gate), false);
    case Release(i) => ReleaseKeepsInv(s, i, s.threads[i].key, s.threads[i].gate);
  }

  ghost predicate Runs(s: State, actions: seq<Action>)
    decreases |actions|
  {
    actions == [] || (Enabled(s, actions[0]) && Runs(Apply(s, actions[0]), actions[1..]))
  }

  ghost function After(s: State, actions: seq<Action>): State
    requires Runs(s, actions)
    decreases |actions|
  {
    if actions == [] then s else After(Apply(s, actions[0]), actions[1..])
  }

  const IDLE := State([], map[], [])

  lemma {:induction false} RunKeepsInv(s: State, actions: seq<Action>)
    requires Inv(s) && Runs(s, actions)
    ensures Inv(After(s, actions))
    decreases |actions|
  {
    hide Inv;
    if actions != [] {
      StepKeepsInv(s, actions[0]);
      RunKeepsInv(Apply(s, actions[0]), actions[1..]);
    }
  }

  // What it means.

  /** Two operations on the same peer never overlap, in any interleaving. */
  lemma OneOperationPerPeer(actions: seq<Action>, i: nat, k: nat)
    requires Runs(IDLE, actions)
    requires var s := After(IDLE, actions);
             At(s, i) && At(s, k) && s.threads[i].Operating? && s.threads[k].Operating?
             && s.threads[i].key == s.threads[k].key
    ensures i == k
  {
    var s := After(IDLE, actions);
    assert Inv(IDLE);
    RunKeepsInv(IDLE, actions);
    OperatingIsExclusive(s, i, k);
  }

  lemma OperatingIsExclusive(s: State, i: nat, k: nat)
    requires Inv(s) && At(s, i) && At(s, k) && s.threads[i].Operating? && s.threads[k].Operating?
             && s.threads[i].key == s.threads[k].key
    ensures i == k
  {
    var g := s.threads[i].gate;
    UsersShareTheListedGate(s, i);
    UsersShareTheListedGate(s, k);
    OwnedIsRecorded(s, i, HolderOf(g));
  }

  /** A goroutine that uses a gate uses the one the table has for its peer: a gate in use is never replaced. */
  lemma UsersShareTheListedGate(s: State, i: nat)
    requires Inv(s) && At(s, i) && !s.threads[i].Done?
    ensures s.threads[i].key in s.table && s.table[s.threads[i].key] == s.threads[i].gate
  {
    assert ThreadSound(s, s.threads[i]);
    OwnedIsRecorded(s, i, UserOf(s.threads[i].gate));
  }

  /** `users` is the number of goroutines between entering and leaving, so an idle peer leaves nothing behind. */
  lemma UsersCountGoroutines(s: State, key: string)
    requires Inv(s)
    ensures key in s.table ==> s.gates[s.table[key]].users == Total(s.threads, Owns, UserOf(s.table[key]))
    ensures (forall i :: 0 <= i < |s.threads| && !s.threads[i].Done? ==> s.threads[i].key != key) ==> key !in s.table
  {
    if key in s.table {
      var g := s.table[key];
      assert Recorded(s, UserOf(g)) == Total(s.threads, Owns, UserOf(g));
      var i := TotalOwner(s.threads, Owns, UserOf(g));
      assert ThreadSound(s, s.threads[i]);
    }
  }

  // The object.

  class PeerOperations {
    var gates: seq<Gate>
    var table: map<string, nat>

    method Acquire(key: string) returns (g: nat)
      requires key in table ==> table[key] < |gates|
      modifies this
      ensures (gates, table, g) == Enter(old(gates), old(table), key)
    {
      if key !in table {
        g := |gates|;
        gates := gates + [Gate(key, 0, false)];
        table := table[key := g];
      } else {
        g := table[key];
      }
      gates := gates[g := gates[g].(users := gates[g].users + 1)];
      assert key !in old(table) ==> gates == old(gates) + [Gate(key, 1, false)];
    }

    method Release(key: string, g: nat)
      requires g < |gates|
      modifies this
      ensures (gates, table) == Leave(old(gates), old(table), key, g)
    {
      gates := gates[g := gates[g].(users := gates[g].users - 1)];
      if gates[g].users == 0 && key in table && table[key] == g {
        table := table - {key};
      }
    }
  }

  // The retry loop of `doPeerJSON`.

  const PEER_BUSY_RETRY_ATTEMPTS: nat := 4

  datatype Reply = Busy | Other(ok: bool)

  /** Repeats the request while the server says "too many requests", at most four times in all; waits are interrupted
      by the end of the context after `patience` of them. */
  method Request(replies: seq<Reply>, patience: nat) returns (calls: nat, ended: bool)
    requires |replies| >= PEER_BUSY_RETRY_ATTEMPTS
    ensures 0 < calls <= PEER_BUSY_RETRY_ATTEMPTS
    ensures forall k :: 0 <= k < calls - 1 ==> replies[k].Busy?
    ensures ended ==> replies[calls - 1].Busy? && calls == patience + 1 < PEER_BUSY_RETRY_ATTEMPTS
    ensures !ended ==> replies[calls - 1].Other? || calls == PEER_BUSY_RETRY_ATTEMPTS
  {
    calls, ended := 0, false;
    while calls < PEER_BUSY_RETRY_ATTEMPTS
      invariant calls <= PEER_BUSY_RETRY_ATTEMPTS && calls <= patience
      invariant calls == PEER_BUSY_RETRY_ATTEMPTS ==> false
      invariant forall k :: 0 <= k < calls ==> replies[k].Busy?
    {
      calls := calls + 1;
      if replies[calls - 1].Other? || calls == PEER_BUSY_RETRY_ATTEMPTS {
        return;
      }
      if calls == patience + 1 {
        return calls, true;
      }
    }
  }
}
