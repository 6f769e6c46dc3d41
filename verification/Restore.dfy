/** Putting the files of a backup in place: staged, swapped in one by one, and taken back if any step fails. */
module Restore {
  import opened Common

  /** What a path leads to. */
  datatype Node = Regular(content: string) | Special

  type Disk = map<string, Node>

  /** One restore: the verified contents with their destinations, and the names `CreateTemp` and the timestamp give
      to the staged files and to the files that are replaced. */
  datatype Plan = Plan(contents: seq<Node>, destinations: seq<string>, staged: seq<string>, backups: seq<string>)

  /** Steps of the operating system that may fail. `RemoveStaged` is the removal after a hard link was made, `Discard`
      the deferred one. */
  datatype Step =
    | Stage(k: nat) | Inspect(k: nat) | Preserve(k: nat) | Place(k: nat) | RemoveStaged(k: nat) | Discard(k: nat)

  predicate Apart(a: seq<string>, b: seq<string>) {
    forall k, l :: 0 <= k < |a| && 0 <= l < |b| ==> a[k] != b[l]
  }

  predicate Valid(p: Plan, before: Disk) {
    && |p.contents| == |p.destinations| == |p.staged| == |p.backups|
    && Distinct(p.destinations) && Distinct(p.staged) && Distinct(p.backups)
    && Apart(p.destinations, p.staged) && Apart(p.destinations, p.backups) && Apart(p.staged, p.backups)
    && (forall k :: 0 <= k < |p.staged| ==> p.staged[k] !in before)
    && (forall k :: 0 <= k < |p.backups| ==> p.backups[k] !in before)
  }

  /** What a path is to a restore. */
  datatype Role = StagedFor(k: nat) | RecoveryOf(k: nat) | Destination(k: nat) | Other

  function IndexIn(paths: seq<string>, path: string): (k: nat)
    ensures k <= |paths| && (k < |paths| ==> paths[k] == path) && (k == |paths| ==> path !in paths)
  {
    if paths == [] then 0 else if paths[0] == path then 0 else 1 + IndexIn(paths[1..], path)
  }

  function RoleOf(p: Plan, path: string): Role {
    if IndexIn(p.staged, path) < |p.staged| then StagedFor(IndexIn(p.staged, path))
    else if IndexIn(p.backups, path) < |p.backups| then RecoveryOf(IndexIn(p.backups, path))
    else if IndexIn(p.destinations, path) < |p.destinations| then Destination(IndexIn(p.destinations, path))
    else Other
  }

  lemma RolesAreUnique(p: Plan, before: Disk, k: nat)
    requires Valid(p, before) && k < |p.staged|
    ensures forall path {:trigger RoleOf(p, path)} :: RoleOf(p, path) == StagedFor(k) <==> path == p.staged[k]
    ensures forall path {:trigger RoleOf(p, path)} :: RoleOf(p, path) == RecoveryOf(k) <==> path == p.backups[k]
    ensures forall path {:trigger RoleOf(p, path)} :: RoleOf(p, path) == Destination(k) <==> path == p.destinations[k]
  {
    var s, b, d := p.staged[k], p.backups[k], p.destinations[k];
    assert s in p.staged && b in p.backups && d in p.destinations;
    assert b !in p.staged && d !in p.staged && d !in p.backups;
    assert IndexIn(p.staged, s) == k && IndexIn(p.backups, b) == k && IndexIn(p.destinations, d) == k;
    hide IndexIn, Apart, Distinct;
  }

  /** What a path leads to when staged files `lo` to `hi` exist, the first `i` old files have been moved to their
      recovery paths, and the first `j` new files are in place. */
  function Expected(before: Disk, p: Plan, lo: nat, hi: nat, i: nat, j: nat, path: string): Option<Node>
    requires |p.contents| == |p.destinations| == |p.staged| == |p.backups|
  {
    match RoleOf(p, path)
    case StagedFor(k) => if lo <= k < hi && k < |p.contents| then Some(p.contents[k]) else None
    case RecoveryOf(k) => if k < i && k < |p.destinations| then Lookup(before, p.destinations[k]) else None
    case Destination(k) =>
      if k < j && k < |p.contents| then Some(p.contents[k]) else if k < i then None else Lookup(before, path)
    case Other => Lookup(before, path)
  }

  /** Where a restore stands. */
  ghost predicate Stands(disk: Disk, before: Disk, p: Plan, lo: nat, hi: nat, i: nat, j: nat)
    requires |p.contents| == |p.destinations| == |p.staged| == |p.backups|
  {
    forall path :: Lookup(disk, path) == Expected(before, p, lo, hi, i, j, path)
  }

  lemma NewPathsAreFree(p: Plan, before: Disk, path: string)
    requires Valid(p, before)
    ensures RoleOf(p, path).StagedFor? || RoleOf(p, path).RecoveryOf? ==> path !in before
  {
  }

  lemma NothingStands(p: Plan, before: Disk)
    requires Valid(p, before)
    ensures Stands(before, before, p, 0, 0, 0, 0)
  {
    var t := before;
    forall path ensures Lookup(t, path) == Expected(before, p, 0, 0, 0, 0, path) {
      NewPathsAreFree(p, before, path);
      hide RoleOf, Valid;
    }
  }

  function MovedOn(disk: Disk, source: string, destination: string): Disk
    requires source in disk
  {
    (disk - {source})[destination := disk[source]]
  }

  lemma StageStep(disk: Disk, before: Disk, p: Plan, n: nat)
    requires Valid(p, before) && n < |p.staged| && Stands(disk, before, p, 0, n, 0, 0)
    ensures Stands(disk[p.staged[n] := p.contents[n]], before, p, 0, n + 1, 0, 0)
  {
    RolesAreUnique(p, before, n);
    hide RoleOf, Apart, Distinct;
    var t := disk[p.staged[n] := p.contents[n]];
    forall path ensures Lookup(t, path) == Expected(before, p, 0, n + 1, 0, 0, path) {
      assert Lookup(disk, path) == Expected(before, p, 0, n, 0, 0, path);
    }
  }

  lemma PreserveStep(disk: Disk, before: Disk, p: Plan, i: nat)
    requires Valid(p, before) && i < |p.staged| && Stands(disk, before, p, 0, |p.staged|, i, 0)
    ensures p.destinations[i] in disk <==> p.destinations[i] in before
    ensures p.destinations[i] in disk ==>
              Stands(MovedOn(disk, p.destinations[i], p.backups[i]), before, p, 0, |p.staged|, i + 1, 0)
    ensures p.destinations[i] !in disk ==> Stands(disk, before, p, 0, |p.staged|, i + 1, 0)
  {
    RolesAreUnique(p, before, i);
    hide RoleOf, Apart, Distinct;
    assert RoleOf(p, p.destinations[i]) == Destination(i);
    assert Lookup(disk, p.destinations[i]) == Lookup(before, p.destinations[i]);
    if p.destinations[i] in disk {
      var t := MovedOn(disk, p.destinations[i], p.backups[i]);
      forall path ensures Lookup(t, path) == Expected(before, p, 0, |p.staged|, i + 1, 0, path) {
        assert Lookup(disk, path) == Expected(before, p, 0, |p.staged|, i, 0, path);
      }
    } else {
      forall path ensures Lookup(disk, path) == Expected(before, p, 0, |p.staged|, i + 1, 0, path) {
        assert Lookup(disk, path) == Expected(before, p, 0, |p.staged|, i, 0, path);
      }
    }
  }

  lemma PlaceStep(disk: Disk, before: Disk, p: Plan, i: nat, j: nat)
    requires Valid(p, before) && j < |p.staged| && Stands(disk, before, p, j, |p.staged|, i, j)
    requires j < i || p.destinations[j] !in before
    ensures p.staged[j] in disk && disk[p.staged[j]] == p.contents[j] && p.destinations[j] !in disk
    ensures Stands(MovedOn(disk, p.staged[j], p.destinations[j]), before, p, j + 1, |p.staged|, i, j + 1)
  {
    RolesAreUnique(p, before, j);
    hide RoleOf, Apart, Distinct;
    assert RoleOf(p, p.staged[j]) == StagedFor(j) && RoleOf(p, p.destinations[j]) == Destination(j);
    assert Lookup(disk, p.staged[j]) == Some(p.contents[j]);
    assert Lookup(disk, p.destinations[j]) == None;
    var t := MovedOn(disk, p.staged[j], p.destinations[j]);
    forall path ensures Lookup(t, path) == Expected(before, p, j + 1, |p.staged|, i, j + 1, path) {
      assert Lookup(disk, path) == Expected(before, p, j, |p.staged|, i, j, path);
    }
  }

  // Going back.

  lemma UnplaceStep(disk: Disk, before: Disk, p: Plan, lo: nat, i: nat, j: nat)
    requires Valid(p, before) && 0 < j <= |p.staged| && Stands(disk, before, p, lo, |p.staged|, i, j)
    requires j - 1 < i || p.destinations[j - 1] !in before
    ensures Stands(disk - {p.destinations[j - 1]}, before, p, lo, |p.staged|, i, j - 1)
  {
    RolesAreUnique(p, before, j - 1);
    hide RoleOf, Apart, Distinct;
    assert RoleOf(p, p.destinations[j - 1]) == Destination(j - 1);
    var t := disk - {p.destinations[j - 1]};
    forall path ensures Lookup(t, path) == Expected(before, p, lo, |p.staged|, i, j - 1, path) {
      assert Lookup(disk, path) == Expected(before, p, lo, |p.staged|, i, j, path);
    }
  }

  lemma UnpreserveStep(disk: Disk, before: Disk, p: Plan, lo: nat, i: nat)
    requires Valid(p, before) && 0 < i <= |p.staged| && Stands(disk, before, p, lo, |p.staged|, i, 0)
    ensures p.backups[i - 1] in disk <==> p.destinations[i - 1] in before
    ensures p.backups[i - 1] in disk ==>
              Stands(MovedOn(disk, p.backups[i - 1], p.destinations[i - 1]), before, p, lo, |p.staged|, i - 1, 0)
    ensures p.backups[i - 1] !in disk ==> Stands(disk, before, p, lo, |p.staged|, i - 1, 0)
  {
    RolesAreUnique(p, before, i - 1);
    hide RoleOf, Apart, Distinct;
    assert RoleOf(p, p.backups[i - 1]) == RecoveryOf(i - 1) && RoleOf(p, p.destinations[i - 1]) == Destination(i - 1);
    assert Lookup(disk, p.backups[i - 1]) == Lookup(before, p.destinations[i - 1]);
    if p.backups[i - 1] in disk {
      var t := MovedOn(disk, p.backups[i - 1], p.destinations[i - 1]);
      forall path ensures Lookup(t, path) == Expected(before, p, lo, |p.staged|, i - 1, 0, path) {
        assert Lookup(disk, path) == Expected(before, p, lo, |p.staged|, i, 0, path);
      }
    } else {
      forall path ensures Lookup(disk, path) == Expected(before, p, lo, |p.staged|, i - 1, 0, path) {
        assert Lookup(disk, path) == Expected(before, p, lo, |p.staged|, i, 0, path);
      }
    }
  }

  // What becomes of a restore, told from its inputs.

  predicate AllStaged(p: Plan, fails: set<Step>, n: nat) {
    forall k: nat :: k < n ==> Stage(k) !in fails
  }

  /** Every existing destination can be moved to its recovery path. */
  predicate AllPreserved(p: Plan, before: Disk, fails: set<Step>) {
    forall k: nat :: k < |p.destinations| ==>
      Inspect(k) !in fails && (p.destinations[k] in before ==> Preserve(k) !in fails)
  }

  /** File `k` gets to its destination and its staged name goes. */
  predicate Commits(p: Plan, before: Disk, force: bool, fails: set<Step>, k: nat)
    requires k < |p.destinations|
  {
    Place(k) !in fails && (force || (p.destinations[k] !in before && RemoveStaged(k) !in fails))
  }

  /** The restore gets as far as having committed the first `n` files. */
  predicate Reaches(p: Plan, before: Disk, force: bool, fails: set<Step>, n: nat) {
    && n <= |p.destinations|
    && AllStaged(p, fails, |p.destinations|)
    && (force ==> AllPreserved(p, before, fails))
    && (forall k: nat :: k < n ==> Commits(p, before, force, fails, k))
  }

  /** The link of file `k` is made, and then its staged name cannot be removed. */
  predicate Sticks(p: Plan, before: Disk, force: bool, fails: set<Step>, k: nat) {
    && !force && k < |p.destinations| && Reaches(p, before, force, fails, k)
    && Place(k) !in fails && p.destinations[k] !in before && RemoveStaged(k) in fails
  }

  /** The staged name of file `k` is still there at the end, and the deferred removal fails. */
  predicate Remains(p: Plan, before: Disk, force: bool, fails: set<Step>, k: nat) {
    k < |p.destinations| && AllStaged(p, fails, k + 1) && !Reaches(p, before, force, fails, k + 1)
    && Discard(k) in fails
  }

  /** What a failed restore leaves at a path. */
  function Residue(p: Plan, before: Disk, force: bool, fails: set<Step>, path: string): Option<Node>
    requires |p.contents| == |p.destinations| == |p.staged| == |p.backups|
  {
    match RoleOf(p, path)
    case StagedFor(k) => if Remains(p, before, force, fails, k) then Some(p.contents[k]) else None
    case RecoveryOf(_) => None
    case Destination(k) => if Sticks(p, before, force, fails, k) then Some(p.contents[k]) else Lookup(before, path)
    case Other => Lookup(before, path)
  }

  ghost predicate Undone(disk: Disk, p: Plan, before: Disk, force: bool, fails: set<Step>)
    requires |p.contents| == |p.destinations| == |p.staged| == |p.backups|
  {
    forall path :: Lookup(disk, path) == Residue(p, before, force, fails, path)
  }

  lemma TraceOfFile(disk: Disk, p: Plan, before: Disk, force: bool, fails: set<Step>, k: nat)
    requires Valid(p, before) && Undone(disk, p, before, force, fails) && k < |p.destinations|
    ensures Remains(p, before, force, fails, k) ==> p.staged[k] in disk && p.staged[k] !in before
    ensures Sticks(p, before, force, fails, k) ==> p.destinations[k] in disk && p.destinations[k] !in before
  {
    RolesAreUnique(p, before, k);
    hide RoleOf, Remains, Apart, Distinct;
    assert RoleOf(p, p.staged[k]) == StagedFor(k) && RoleOf(p, p.destinations[k]) == Destination(k);
    assert Lookup(disk, p.staged[k]) == Residue(p, before, force, fails, p.staged[k]);
    assert Lookup(disk, p.destinations[k]) == Residue(p, before, force, fails, p.destinations[k]);
  }

  lemma NoTrace(disk: Disk, p: Plan, before: Disk, force: bool, fails: set<Step>)
    requires Valid(p, before) && Undone(disk, p, before, force, fails)
    requires forall k: nat :: !Remains(p, before, force, fails, k) && !Sticks(p, before, force, fails, k)
    ensures disk == before
  {
    hide Remains, Sticks;
    forall path ensures Lookup(disk, path) == Lookup(before, path) {
      NewPathsAreFree(p, before, path);
      assert Lookup(disk, path) == Residue(p, before, force, fails, path);
    }
    SameLookups(disk, before);
  }

  /** A failed restore leaves the disk exactly as it was, unless a link was made whose staged name could not be
      removed, or the deferred removal of a staged file fails. */
  lemma FailureLeavesNoTraceExactly(disk: Disk, p: Plan, before: Disk, force: bool, fails: set<Step>)
    requires Valid(p, before) && Undone(disk, p, before, force, fails)
    ensures disk == before
            <==> forall k: nat :: !Remains(p, before, force, fails, k) && !Sticks(p, before, force, fails, k)
  {
    hide Remains, Sticks, Undone, Valid;
    if disk == before {
      forall k: nat ensures !Remains(p, before, force, fails, k) && !Sticks(p, before, force, fails, k) {
        TracesAreOfFiles(p, before, force, fails, k);
        if k < |p.destinations| {
          TraceOfFile(disk, p, before, force, fails, k);
        }
      }
    } else if forall k: nat :: !Remains(p, before, force, fails, k) && !Sticks(p, before, force, fails, k) {
      NoTrace(disk, p, before, force, fails);
    }
  }

  lemma TracesAreOfFiles(p: Plan, before: Disk, force: bool, fails: set<Step>, k: nat)
    ensures Remains(p, before, force, fails, k) || Sticks(p, before, force, fails, k) ==> k < |p.destinations|
  {
  }

  /** Two destinations, both free, and the staged name of the first cannot be removed after its link was made: the
      first destination keeps the new content although the restore has failed. */
  lemma AStuckLink()
    ensures var p := Plan([Regular("new database"), Regular("new key")], ["db", "key"], ["s0", "s1"], ["b0", "b1"]);
            var fails := {RemoveStaged(0)};
            && Valid(p, map[]) && Sticks(p, map[], false, fails, 0) && !Reaches(p, map[], false, fails, 2)
            && forall disk :: Undone(disk, p, map[], false, fails) ==> disk == map["db" := Regular("new database")]
  {
    var p := Plan([Regular("new database"), Regular("new key")], ["db", "key"], ["s0", "s1"], ["b0", "b1"]);
    var fails := {RemoveStaged(0)};
    var before: Disk := map[];
    assert Stage(0) !in fails && Stage(1) !in fails;
    assert !Commits(p, before, false, fails, 0);
    forall disk | Undone(disk, p, before, false, fails) ensures disk == map["db" := Regular("new database")] {
      ResidueOfOneLink(p, before, fails, disk);
    }
  }

  lemma ResidueOfOneLink(p: Plan, before: Disk, fails: set<Step>, disk: Disk)
    requires Valid(p, before) && fails == {RemoveStaged(0)} && Sticks(p, before, false, fails, 0)
    requires Undone(disk, p, before, false, fails)
    ensures disk == before[p.destinations[0] := p.contents[0]]
  {
    RolesAreUnique(p, before, 0);
    var t := before[p.destinations[0] := p.contents[0]];
    forall path ensures Lookup(disk, path) == Lookup(t, path) {
      NewPathsAreFree(p, before, path);
      assert Lookup(disk, path) == Residue(p, before, false, fails, path);
      assert forall k: nat :: Sticks(p, before, false, fails, k) ==> k == 0;
      hide RoleOf, Valid;
    }
    SameLookups(disk, t);
  }

  class Restorer {
    var disk: Disk

    /** `prepareTargets`: only regular files may be replaced, and only with force. */
    method PrepareTargets(destinations: seq<string>, force: bool, uninspectable: set<string>) returns (ok: bool)
      ensures ok <==> forall k :: 0 <= k < |destinations| ==>
                        destinations[k] !in uninspectable
                        && (destinations[k] in disk ==> force && disk[destinations[k]].Regular?)
    {
      var k := 0;
      while k < |destinations|
        invariant k <= |destinations|
        invariant forall l :: 0 <= l < k ==>
                    destinations[l] !in uninspectable
                    && (destinations[l] in disk ==> force && disk[destinations[l]].Regular?)
      {
        if destinations[k] in uninspectable {
          return false;
        }
        if destinations[k] in disk {
          if !disk[destinations[k]].Regular? {
            return false;
          }
          if !force {
            return false;
          }
        }
        k := k + 1;
      }
      return true;
    }

    /** Copies the contents next to their destinations. */
    method StageAll(p: Plan, fails: set<Step>, ghost before: Disk) returns (ok: bool, n: nat)
      requires Valid(p, before) && disk == before
      modifies this
      ensures n <= |p.staged| && Stands(disk, before, p, 0, n, 0, 0)
      ensures AllStaged(p, fails, n) && if ok then n == |p.staged| else n < |p.staged| && Stage(n) in fails
    {
      NothingStands(p, before);
      hide Stands;
      n := 0;
      while n < |p.staged|
        invariant n <= |p.staged| && AllStaged(p, fails, n) && Stands(disk, before, p, 0, n, 0, 0)
      {
        if Stage(n) in fails {
          return false, n;
        }
        StageStep(disk, before, p, n);
        disk := disk[p.staged[n] := p.contents[n]];
        n := n + 1;
      }
      return true, n;
    }

    method Rename(source: string, destination: string)
      requires source in disk
      modifies this
      ensures disk == MovedOn(old(disk), source, destination)
    {
      disk := (disk - {source})[destination := disk[source]];
    }

    /** With force, each existing file is moved to its recovery path. */
    method PreserveAll(p: Plan, fails: set<Step>, ghost before: Disk) returns (ok: bool, i: nat)
      requires Valid(p, before) && Stands(disk, before, p, 0, |p.staged|, 0, 0)
      modifies this
      ensures i <= |p.staged| && Stands(disk, before, p, 0, |p.staged|, i, 0)
      ensures ok ==> i == |p.staged|
      ensures ok <==> AllPreserved(p, before, fails)
    {
      hide Stands;
      i := 0;
      while i < |p.staged|
        invariant i <= |p.staged| && Stands(disk, before, p, 0, |p.staged|, i, 0)
        invariant forall k: nat :: k < i ==>
                    Inspect(k) !in fails && (p.destinations[k] in before ==> Preserve(k) !in fails)
      {
        if Inspect(i) in fails {
          return false, i;
        }
        PreserveStep(disk, before, p, i);
        if p.destinations[i] in disk {
          if Preserve(i) in fails {
            return false, i;
          }
          Rename(p.destinations[i], p.backups[i]);
        }
        i := i + 1;
      }
      return true, i;
    }

    /** Renames the staged files over their destinations, which the preserving pass has cleared. */
    method RenameAll(p: Plan, fails: set<Step>, ghost before: Disk) returns (ok: bool, j: nat)
      requires Valid(p, before) && Stands(disk, before, p, 0, |p.staged|, |p.staged|, 0)
      modifies this
      ensures j <= |p.staged| && Stands(disk, before, p, j, |p.staged|, |p.staged|, j)
      ensures forall k: nat :: k < j ==> Place(k) !in fails
      ensures if ok then j == |p.staged| else j < |p.staged| && Place(j) in fails
    {
      hide Stands;
      j := 0;
      while j < |p.staged|
        invariant j <= |p.staged| && Stands(disk, before, p, j, |p.staged|, |p.staged|, j)
        invariant forall k: nat :: k < j ==> Place(k) !in fails
      {
        PlaceStep(disk, before, p, |p.staged|, j);
        if Place(j) in fails {
          return false, j;
        }
        Rename(p.staged[j], p.destinations[j]);
        j := j + 1;
      }
      return true, j;
    }

    /** Without force a hard link is made, which refuses an existing destination, and the staged name is removed.
        `stuck` says that a link was made whose staged name could not be removed. */
    method LinkAll(p: Plan, fails: set<Step>, ghost before: Disk) returns (ok: bool, j: nat, ghost stuck: bool)
      requires Valid(p, before) && Stands(disk, before, p, 0, |p.staged|, 0, 0)
      modifies this
      ensures j <= |p.staged| && Cleared(p, before, j)
      ensures forall k: nat :: k < j ==> Commits(p, before, false, fails, k)
      ensures if ok then j == |p.staged| && !stuck else j < |p.staged| && !Commits(p, before, false, fails, j)
      ensures !ok ==> (stuck <==> Place(j) !in fails && p.destinations[j] !in before)
      ensures stuck ==> p.destinations[j] in disk && disk[p.destinations[j]] == p.contents[j]
      ensures Stands(if stuck then disk - {p.destinations[j]} else disk, before, p, j, |p.staged|, 0, j)
    {
      hide Stands;
      j, stuck := 0, false;
      while j < |p.staged|
        invariant j <= |p.staged| && !stuck && Cleared(p, before, j) && Stands(disk, before, p, j, |p.staged|, 0, j)
        invariant forall k: nat :: k < j ==> Commits(p, before, false, fails, k)
      {
        DestinationIsUntouched(disk, before, p, j);
        if Place(j) in fails || p.destinations[j] in disk {
          return false, j, false;
        }
        PlaceStep(disk, before, p, 0, j);
        ghost var was := disk;
        disk := disk[p.destinations[j] := disk[p.staged[j]]];
        if RemoveStaged(j) in fails {
          assert disk - {p.destinations[j]} == was;
          return false, j, true;
        }
        disk := disk - {p.staged[j]};
        assert disk == MovedOn(was, p.staged[j], p.destinations[j]);
        j := j + 1;
      }
      return true, j, false;
    }

    /** Takes back the committed files and renames the old ones from their recovery paths. */
    method RollBack(p: Plan, ghost before: Disk, ghost lo: nat, i: nat, j: nat)
      requires Valid(p, before) && i <= |p.staged| && j <= |p.staged| && Stands(disk, before, p, lo, |p.staged|, i, j)
      requires i == |p.staged| || Cleared(p, before, j)
      modifies this
      ensures Stands(disk, before, p, lo, |p.staged|, 0, 0)
    {
      hide Stands;
      var k := j;
      while k > 0
        invariant 0 <= k <= j && Stands(disk, before, p, lo, |p.staged|, i, k)
      {
        UnplaceStep(disk, before, p, lo, i, k);
        disk := disk - {p.destinations[k - 1]};
        k := k - 1;
      }
      k := i;
      while k > 0
        invariant 0 <= k <= i && Stands(disk, before, p, lo, |p.staged|, k, 0)
      {
        UnpreserveStep(disk, before, p, lo, k);
        if p.backups[k - 1] in disk {
          Rename(p.backups[k - 1], p.destinations[k - 1]);
        }
        k := k - 1;
      }
    }

    /** Removes the committed files around one that is stuck. */
    method RollBackAround(p: Plan, ghost before: Disk, j: nat, ghost stays: bool)
      requires Valid(p, before) && j < |p.staged| && Cleared(p, before, j)
      requires Stands(if stays then disk - {p.destinations[j]} else disk, before, p, j, |p.staged|, 0, j)
      requires stays ==> p.destinations[j] in disk && disk[p.destinations[j]] == p.contents[j]
      modifies this
      ensures Stands(if stays then disk - {p.destinations[j]} else disk, before, p, j, |p.staged|, 0, 0)
      ensures stays ==> p.destinations[j] in disk && disk[p.destinations[j]] == p.contents[j]
    {
      hide Stands;
      ghost var rest := if stays then disk - {p.destinations[j]} else disk;
      var k := j;
      while k > 0
        invariant 0 <= k <= j && Stands(rest, before, p, j, |p.staged|, 0, k)
        invariant rest == if stays then disk - {p.destinations[j]} else disk
        invariant stays ==> p.destinations[j] in disk && disk[p.destinations[j]] == p.contents[j]
      {
        UnplaceStep(rest, before, p, j, 0, k);
        disk := disk - {p.destinations[k - 1]};
        rest := rest - {p.destinations[k - 1]};
        assert rest == if stays then disk - {p.destinations[j]} else disk;
        k := k - 1;
      }
    }

    /** The deferred removals, last staged file first; a name that is gone already fails quietly. */
    method Unstage(p: Plan, fails: set<Step>, ghost before: Disk, ghost lo: nat, hi: nat, ghost stuck: Option<nat>)
      requires Valid(p, before) && lo <= hi <= |p.staged| && Swept(disk, before, p, fails, lo, hi, hi, stuck)
      modifies this
      ensures Swept(disk, before, p, fails, lo, hi, 0, stuck)
    {
      hide Swept;
      var k := hi;
      while k > 0
        invariant 0 <= k <= hi && Swept(disk, before, p, fails, lo, hi, k, stuck)
      {
        SweepStep(disk, before, p, fails, lo, hi, k, stuck);
        if Discard(k - 1) !in fails {
          disk := disk - {p.staged[k - 1]};
        }
        k := k - 1;
      }
    }

    /** `commitTargets`. Whether it succeeds and what it leaves is told by its inputs: all or nothing, but for the
        traces of a link that is stuck and of staged files that cannot be removed. */
    method CommitTargets(p: Plan, force: bool, fails: set<Step>) returns (ok: bool)
      requires Valid(p, disk)
      modifies this
      ensures ok <==> Reaches(p, old(disk), force, fails, |p.destinations|)
      ensures ok ==> InPlace(disk, old(disk), p, force)
      ensures !ok ==> Undone(disk, p, old(disk), force, fails)
      ensures !ok ==> (disk == old(disk)
                       <==> forall k: nat ::
                              !Remains(p, old(disk), force, fails, k) && !Sticks(p, old(disk), force, fails, k))
    {
      ghost var before := disk;
      var n;
      ok, n := StageAll(p, fails, before);
      hide Stands, Swept, Undone, Sticks, Remains, Distinct, Apart;
      if !ok {
        assert Halts(p, before, force, fails, 0, n);
        BeginSweep(disk, before, p, fails, 0, n);
        Unstage(p, fails, before, 0, n, None);
        SweptIsUndone(disk, before, p, force, fails, 0, n, None);
      } else if force {
        ok := CommitByRename(p, fails, before);
      } else {
        ok := CommitByLink(p, fails, before);
      }
      if !ok {
        FailureLeavesNoTraceExactly(disk, p, before, force, fails);
      }
    }

    method CommitByRename(p: Plan, fails: set<Step>, ghost before: Disk) returns (ok: bool)
      requires Valid(p, before) && Stands(disk, before, p, 0, |p.staged|, 0, 0) && AllStaged(p, fails, |p.staged|)
      modifies this
      ensures ok <==> Reaches(p, before, true, fails, |p.destinations|)
      ensures if ok then InPlace(disk, before, p, true) else Undone(disk, p, before, true, fails)
    {
      hide Stands, Swept, Undone, Distinct, Apart;
      var i, j;
      ok, i := PreserveAll(p, fails, before);
      j := 0;
      if ok {
        ok, j := RenameAll(p, fails, before);
      }
      if ok {
        EverythingInPlace(disk, before, p, true);
      } else {
        assert Halts(p, before, true, fails, j, |p.staged|) by {
          if i == |p.staged| && j < |p.staged| && Place(j) in fails {
            assert !Commits(p, before, true, fails, j);
          }
        }
        RollBack(p, before, j, i, j);
        BeginSweep(disk, before, p, fails, j, |p.staged|);
        Unstage(p, fails, before, j, |p.staged|, None);
        SweptIsUndone(disk, before, p, true, fails, j, |p.staged|, None);
      }
    }

    method CommitByLink(p: Plan, fails: set<Step>, ghost before: Disk) returns (ok: bool)
      requires Valid(p, before) && Stands(disk, before, p, 0, |p.staged|, 0, 0) && AllStaged(p, fails, |p.staged|)
      modifies this
      ensures ok <==> Reaches(p, before, false, fails, |p.destinations|)
      ensures if ok then InPlace(disk, before, p, false) else Undone(disk, p, before, false, fails)
    {
      hide Stands, Swept, Undone;
      ghost var stays;
      var j;
      ok, j, stays := LinkAll(p, fails, before);
      if ok {
        EverythingInPlace(disk, before, p, false);
      } else {
        // The linked file is not on the list of committed ones.
        ghost var stuck := if stays then Some(j) else None;
        RollBackAround(p, before, j, stays);
        BeginSweepAround(disk, before, p, fails, j, stays);
        Unstage(p, fails, before, j, |p.staged|, stuck);
        SweptIsUndone(disk, before, p, false, fails, j, |p.staged|, stuck);
      }
    }
  }

  // Sweeping.

  /** Everything has been taken back except staged files `lo` to `hi`, of which those from `k` on have been swept, and
      one stuck file. */
  ghost predicate Swept(disk: Disk, before: Disk, p: Plan, fails: set<Step>, lo: nat, hi: nat, k: nat,
                        stuck: Option<nat>)
    requires |p.contents| == |p.destinations| == |p.staged| == |p.backups|
  {
    forall path :: Lookup(disk, path) == Sweeping(before, p, fails, lo, hi, k, stuck, path)
  }

  function Sweeping(before: Disk, p: Plan, fails: set<Step>, lo: nat, hi: nat, k: nat, stuck: Option<nat>,
                    path: string): Option<Node>
    requires |p.contents| == |p.destinations| == |p.staged| == |p.backups|
  {
    match RoleOf(p, path)
    case StagedFor(m) =>
      if lo <= m < hi && m < |p.contents| && (m < k || Discard(m) in fails) then Some(p.contents[m]) else None
    case RecoveryOf(_) => None
    case Destination(m) => if stuck == Some(m) && m < |p.contents| then Some(p.contents[m]) else Lookup(before, path)
    case Other => Lookup(before, path)
  }

  lemma BeginSweep(disk: Disk, before: Disk, p: Plan, fails: set<Step>, lo: nat, hi: nat)
    requires Valid(p, before) && lo <= hi <= |p.staged| && Stands(disk, before, p, lo, hi, 0, 0)
    ensures Swept(disk, before, p, fails, lo, hi, hi, None)
  {
    forall path ensures Lookup(disk, path) == Sweeping(before, p, fails, lo, hi, hi, None, path) {
      assert Lookup(disk, path) == Expected(before, p, lo, hi, 0, 0, path);
      hide RoleOf, Valid;
    }
  }

  lemma BeginSweepAround(disk: Disk, before: Disk, p: Plan, fails: set<Step>, j: nat, stays: bool)
    requires Valid(p, before) && j < |p.staged|
    requires Stands(if stays then disk - {p.destinations[j]} else disk, before, p, j, |p.staged|, 0, 0)
    requires stays ==> p.destinations[j] in disk && disk[p.destinations[j]] == p.contents[j]
    ensures Swept(disk, before, p, fails, j, |p.staged|, |p.staged|, if stays then Some(j) else None)
  {
    if stays {
      RolesAreUnique(p, before, j);
      hide RoleOf, Apart, Distinct;
      var rest := disk - {p.destinations[j]};
      var n := |p.staged|;
      forall path ensures Lookup(disk, path) == Sweeping(before, p, fails, j, n, n, Some(j), path) {
        assert Lookup(rest, path) == Expected(before, p, j, n, 0, 0, path);
      }
    } else {
      BeginSweep(disk, before, p, fails, j, |p.staged|);
    }
  }

  lemma SweepStep(disk: Disk, before: Disk, p: Plan, fails: set<Step>, lo: nat, hi: nat, k: nat, stuck: Option<nat>)
    requires Valid(p, before) && lo <= hi <= |p.staged| && 0 < k <= hi
             && Swept(disk, before, p, fails, lo, hi, k, stuck)
    ensures Swept(if Discard(k - 1) in fails then disk else disk - {p.staged[k - 1]}, before, p, fails, lo, hi, k - 1,
                  stuck)
  {
    RolesAreUnique(p, before, k - 1);
    hide RoleOf, Apart, Distinct;
    var t := if Discard(k - 1) in fails then disk else disk - {p.staged[k - 1]};
    forall path ensures Lookup(t, path) == Sweeping(before, p, fails, lo, hi, k - 1, stuck, path) {
      assert Lookup(disk, path) == Sweeping(before, p, fails, lo, hi, k, stuck, path);
    }
  }

  /** The restore fails with files `lo` to `hi` staged and not committed. */
  predicate Halts(p: Plan, before: Disk, force: bool, fails: set<Step>, lo: nat, hi: nat) {
    && lo <= hi <= |p.destinations| && AllStaged(p, fails, hi)
    && if hi < |p.destinations| then lo == 0 && Stage(hi) in fails
       else (lo == 0 || Reaches(p, before, force, fails, lo)) && !Reaches(p, before, force, fails, lo + 1)
  }

  lemma RemainsExactly(p: Plan, before: Disk, force: bool, fails: set<Step>, lo: nat, hi: nat, k: nat)
    requires Halts(p, before, force, fails, lo, hi)
    ensures Remains(p, before, force, fails, k) <==> lo <= k < hi && Discard(k) in fails
  {
    hide Commits, AllPreserved;
    if k < |p.destinations| && hi == |p.destinations| {
      if k < lo {
        assert Reaches(p, before, force, fails, k + 1);
      } else if Reaches(p, before, force, fails, k + 1) {
        assert false;
      }
    }
  }

  lemma SticksExactly(p: Plan, before: Disk, force: bool, fails: set<Step>, lo: nat, hi: nat, k: nat)
    requires Halts(p, before, force, fails, lo, hi) && Sticks(p, before, force, fails, k)
    ensures hi == |p.destinations| && k == lo
  {
    hide AllPreserved;
    assert !Commits(p, before, force, fails, k);
    assert !Reaches(p, before, force, fails, k + 1);
    if lo < k {
      assert false;
    }
  }

  /** What the sweep leaves is what the inputs say. */
  lemma SweptIsUndone(disk: Disk, before: Disk, p: Plan, force: bool, fails: set<Step>, lo: nat, hi: nat,
                      stuck: Option<nat>)
    requires Valid(p, before) && Swept(disk, before, p, fails, lo, hi, 0, stuck)
             && Halts(p, before, force, fails, lo, hi)
    requires stuck == if hi == |p.staged| && Sticks(p, before, force, fails, lo) then Some(lo) else None
    ensures Undone(disk, p, before, force, fails)
  {
    forall path ensures Lookup(disk, path) == Residue(p, before, force, fails, path) {
      assert Lookup(disk, path) == Sweeping(before, p, fails, lo, hi, 0, stuck, path);
      hide RoleOf, Apart, Distinct, Remains, Sticks, Halts;
      match RoleOf(p, path)
      case StagedFor(k) => RemainsExactly(p, before, force, fails, lo, hi, k);
      case Destination(k) =>
        TracesAreOfFiles(p, before, force, fails, k);
        if Sticks(p, before, force, fails, k) {
          SticksExactly(p, before, force, fails, lo, hi, k);
        }
      case _ =>
    }
  }

  /** The first `j` destinations were free. */
  predicate Cleared(p: Plan, before: Disk, j: nat) {
    forall k :: 0 <= k < j && k < |p.destinations| ==> p.destinations[k] !in before
  }

  lemma DestinationIsUntouched(disk: Disk, before: Disk, p: Plan, j: nat)
    requires Valid(p, before) && j < |p.staged| && Stands(disk, before, p, j, |p.staged|, 0, j)
    ensures p.destinations[j] in disk <==> p.destinations[j] in before
  {
    RolesAreUnique(p, before, j);
    hide RoleOf, Apart, Distinct;
    assert RoleOf(p, p.destinations[j]) == Destination(j);
    assert Lookup(disk, p.destinations[j]) == Lookup(before, p.destinations[j]);
  }

  /** A successful restore: every destination holds its new content, every old file is at its recovery path, no
      staged file is left, and nothing else has changed. */
  ghost predicate InPlace(disk: Disk, before: Disk, p: Plan, force: bool)
    requires |p.contents| == |p.destinations| == |p.staged| == |p.backups|
  {
    && (forall k :: 0 <= k < |p.destinations| ==> Lookup(disk, p.destinations[k]) == Some(p.contents[k]))
    && (forall k :: 0 <= k < |p.backups| ==>
          Lookup(disk, p.backups[k]) == if force then Lookup(before, p.destinations[k]) else None)
    && (forall path :: path !in p.destinations && path !in p.backups ==> Lookup(disk, path) == Lookup(before, path))
  }

  lemma EverythingInPlace(disk: Disk, before: Disk, p: Plan, force: bool)
    requires Valid(p, before)
    requires Stands(disk, before, p, |p.staged|, |p.staged|, if force then |p.staged| else 0, |p.staged|)
    ensures InPlace(disk, before, p, force)
  {
    var n := |p.staged|;
    var i := if force then n else 0;
    forall k: nat | k < n
      ensures Lookup(disk, p.destinations[k]) == Some(p.contents[k])
      ensures Lookup(disk, p.backups[k]) == if force then Lookup(before, p.destinations[k]) else None
    {
      RolesAreUnique(p, before, k);
      hide RoleOf, Apart, Distinct;
      assert RoleOf(p, p.destinations[k]) == Destination(k) && RoleOf(p, p.backups[k]) == RecoveryOf(k);
      assert Lookup(disk, p.destinations[k]) == Expected(before, p, n, n, i, n, p.destinations[k]);
      assert Lookup(disk, p.backups[k]) == Expected(before, p, n, n, i, n, p.backups[k]);
    }
    forall path | path !in p.destinations && path !in p.backups ensures Lookup(disk, path) == Lookup(before, path) {
      NewPathsAreFree(p, before, path);
      assert RoleOf(p, path).StagedFor? || RoleOf(p, path).Other?;
      hide RoleOf, Valid;
      assert Lookup(disk, path) == Expected(before, p, n, n, i, n, path);
    }
  }
}
