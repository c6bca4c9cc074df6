/** The versioned writer of session stability snapshots. A caller claims a version under the
    session's mutex; the claimed job runs later, in any order relative to other jobs, and holds
    the same mutex through its file operation. */
module SnapshotWriter {
  import opened Common

  /** The counters of one snapshot; the writer only stores them. */
  type Counters = int

  datatype Lifecycle = Lifecycle(latest: nat, closed: bool)

  const Fresh: Lifecycle := Lifecycle(0, false)

  datatype Job = Persist(version: nat, counters: Counters) | Clear(version: nat)

  function Bump(l: Lifecycle): nat {
    SaturatingAdd(l.latest, 1)
  }

  /** Does a job still apply when it runs: a persist only to an open session, and either only if
      no claim came after it (or the version counter is stuck). */
  predicate Applies(l: Lifecycle, j: Job) {
    l.latest == j.version && (j.Persist? ==> !l.closed)
  }

  function DiskAfter(l: Lifecycle, disk: Option<Counters>, j: Job): Option<Counters> {
    if !Applies(l, j) then disk else if j.Persist? then Some(j.counters) else None
  }

  /** The state of one session, with the snapshot file it guards. */
  class SessionSnapshotState {
    var latestVersion: nat
    var closed: bool
    var disk: Option<Counters>

    constructor ()
      ensures Life() == Fresh && disk == None
    {
      latestVersion, closed, disk := 0, false, None;
    }

    function Life(): Lifecycle
      reads this
    {
      Lifecycle(latestVersion, closed)
    }

    method ClaimPersist() returns (version: Option<nat>)
      modifies this
      ensures disk == old(disk)
      ensures old(closed) ==> version == None && Life() == old(Life())
      ensures !old(closed) ==> version == Some(Bump(old(Life()))) && Life() == Lifecycle(version.value, false)
    {
      if closed {
        return None;
      }
      latestVersion := SaturatingAdd(latestVersion, 1);
      version := Some(latestVersion);
    }

    method ClaimClear() returns (version: nat)
      modifies this
      ensures disk == old(disk)
      ensures version == Bump(old(Life())) && Life() == Lifecycle(version, true)
    {
      closed := true;
      latestVersion := SaturatingAdd(latestVersion, 1);
      version := latestVersion;
    }

    method RunPersist(counters: Counters, version: nat)
      modifies this
      ensures Life() == old(Life())
      ensures disk == DiskAfter(old(Life()), old(disk), Persist(version, counters))
    {
      if closed || latestVersion != version {
        return;
      }
      disk := Some(counters);
    }

    method RunClear(version: nat)
      modifies this
      ensures Life() == old(Life())
      ensures disk == DiskAfter(old(Life()), old(disk), Clear(version))
    {
      if latestVersion != version {
        return;
      }
      disk := None;
    }

    /** The synchronous form: claim and run at once. */
    method PersistNow(counters: Counters)
      modifies this
      ensures closed == old(closed)
      ensures disk == if old(closed) then old(disk) else Some(counters)
    {
      var version := ClaimPersist();
      if version.Some? {
        RunPersist(counters, version.value);
      }
    }

    method ClearNow()
      modifies this
      ensures closed && disk == None
    {
      var version := ClaimClear();
      RunClear(version);
    }
  }

  // ---- Claims and runs interleaved ---------------------------------------------------------

  /** `queue`: claimed jobs not yet run. History: how many claims were granted, and the versions
      that reached the disk. */
  datatype World = World(life: Lifecycle, disk: Option<Counters>, queue: seq<Job>, claims: nat, writes: seq<nat>)

  const Start: World := World(Fresh, None, [], 0, [])

  datatype Step = ClaimPersist(counters: Counters) | ClaimClear | Run(index: nat)

  predicate Enabled(w: World, a: Step) {
    a.Run? ==> a.index < |w.queue|
  }

  function Claim(w: World, j: Job, closed: bool): World {
    w.(life := Lifecycle(j.version, closed), queue := w.queue + [j], claims := w.claims + 1)
  }

  function RunJob(w: World, i: nat): World
    requires i < |w.queue|
  {
    var j := w.queue[i];
    w.(queue := w.queue[..i] + w.queue[i + 1..],
       disk := DiskAfter(w.life, w.disk, j),
       writes := if j.Persist? && Applies(w.life, j) then w.writes + [j.version] else w.writes)
  }

  function Do(w: World, a: Step): World
    requires Enabled(w, a)
  {
    match a
    case ClaimPersist(c) => if w.life.closed then w else Claim(w, Persist(Bump(w.life), c), false)
    case ClaimClear => Claim(w, Clear(Bump(w.life)), true)
    case Run(i) => RunJob(w, i)
  }

  predicate Valid(w: World, steps: seq<Step>)
    decreases steps
  {
    steps == [] || (Enabled(w, steps[0]) && Valid(Do(w, steps[0]), steps[1..]))
  }

  function Final(w: World, steps: seq<Step>): World
    requires Valid(w, steps)
    decreases steps
  {
    if steps == [] then w else Final(Do(w, steps[0]), steps[1..])
  }

  /** The counters of the last persist claim of an unclosed run. */
  function LastPersist(steps: seq<Step>, before: Option<Counters>): Option<Counters>
    decreases steps
  {
    if steps == [] then before
    else LastPersist(steps[1..], if steps[0].ClaimPersist? then Some(steps[0].counters) else before)
  }

  function CountPersists(steps: seq<Step>): nat
    decreases steps
  {
    if steps == [] then 0 else (if steps[0].ClaimPersist? then 1 else 0) + CountPersists(steps[1..])
  }

  // ---- Clears ------------------------------------------------------------------------------

  /** A closed session has an empty disk, or its newest clear still queued. Holds whatever the
      version counter does. */
  ghost predicate ClearPending(w: World) {
    w.life.closed ==> w.disk == None || Clear(w.life.latest) in w.queue
  }

  lemma StepClear(w: World, a: Step)
    requires Enabled(w, a) && ClearPending(w)
    ensures ClearPending(Do(w, a))
    ensures w.life.closed ==>
              && Do(w, a).life.closed && Do(w, a).writes == w.writes
              && (w.disk == None ==> Do(w, a).disk == None)
  {
    match a
    case ClaimPersist(c) =>
    case ClaimClear =>
      var t := Do(w, a);
      assert t.queue[|w.queue|] == Clear(t.life.latest);
    case Run(i) =>
      var t := Do(w, a);
      var k := Clear(w.life.latest);
      if w.life.closed && t.disk != None {
        assert k in w.queue && w.queue[i] != k;
        var x :| 0 <= x < |w.queue| && w.queue[x] == k;
        assert t.queue[if x < i then x else x - 1] == k;
      }
  }

  /** Clear is final: from the moment a clear is claimed no persist writes again, an empty disk
      stays empty, and once no clear of the newest version is left to run the disk is empty. */
  lemma {:induction false} ClearIsFinal(w: World, steps: seq<Step>)
    requires ClearPending(w) && Valid(w, steps)
    ensures ClearPending(Final(w, steps))
    ensures w.life.closed ==>
              && Final(w, steps).life.closed && Final(w, steps).writes == w.writes
              && (w.disk == None ==> Final(w, steps).disk == None)
              && (Clear(Final(w, steps).life.latest) !in Final(w, steps).queue ==> Final(w, steps).disk == None)
    ensures ClaimClear in steps ==> Final(w, steps).life.closed
    decreases steps
  {
    if steps != [] {
      StepClear(w, steps[0]);
      ClearIsFinal(Do(w, steps[0]), steps[1..]);
    }
  }

  // ---- Below saturation --------------------------------------------------------------------

  /** Every claim got its own version, and what the disk lacks of the newest is still queued. */
  ghost predicate Numbered(w: World, last: Option<Counters>) {
    && w.life.latest == w.claims
    && (forall i :: 0 <= i < |w.queue| ==> w.queue[i].version <= w.claims)
    && (forall i, j :: 0 <= i < j < |w.queue| ==> w.queue[i].version != w.queue[j].version)
    && (forall i :: 0 <= i < |w.writes| ==> w.writes[i] <= w.claims)
    && (forall i, j :: 0 <= i < j < |w.writes| ==> w.writes[i] < w.writes[j])
    && (w.writes != [] && w.writes[|w.writes| - 1] == w.claims ==>
          forall i :: 0 <= i < |w.queue| ==> w.queue[i].version != w.claims)
    && (!w.life.closed ==>
          || w.disk == last
          || (last.Some? && Persist(w.claims, last.value) in w.queue))
    && (!w.life.closed ==>
          forall i :: 0 <= i < |w.queue| && w.queue[i].version == w.claims ==>
            last.Some? && w.queue[i] == Persist(w.claims, last.value))
  }

  lemma ClaimNumbered(w: World, last: Option<Counters>, j: Job, closed: bool, last': Option<Counters>)
    requires Numbered(w, last) && j.version == w.claims + 1
    requires !closed ==> j.Persist? && last' == Some(j.counters) && !w.life.closed
    ensures Numbered(Claim(w, j, closed), last')
  {
    var t := Claim(w, j, closed);
    assert t.queue[|w.queue|] == j;
  }

  lemma RunNumbered(w: World, last: Option<Counters>, i: nat)
    requires Numbered(w, last) && i < |w.queue|
    ensures Numbered(RunJob(w, i), last)
  {
    var t := RunJob(w, i);
    forall x | 0 <= x < |t.queue| ensures t.queue[x] == w.queue[if x < i then x else x + 1] {}
    if !w.life.closed && t.disk != last {
      var k := Persist(w.claims, last.value);
      var x :| 0 <= x < |w.queue| && w.queue[x] == k;
      assert t.queue[if x < i then x else x - 1] == k;
    }
  }

  lemma {:induction false} RunsNumbered(w: World, last: Option<Counters>, steps: seq<Step>)
    requires Numbered(w, last) && Valid(w, steps) && Final(w, steps).claims <= U64_MAX
    ensures Final(w, steps).life.closed || Numbered(Final(w, steps), LastPersist(steps, last))
    ensures ClaimClear !in steps && !w.life.closed ==> !Final(w, steps).life.closed
    ensures forall i, j :: 0 <= i < j < |Final(w, steps).writes| ==> Final(w, steps).writes[i] < Final(w, steps).writes[j]
    decreases steps
  {
    if steps != [] {
      var a, t := steps[0], Do(w, steps[0]);
      ClaimsGrow(t, steps[1..]);
      var last' := if a.ClaimPersist? then Some(a.counters) else last;
      if w.life.closed {
        ClosedWrites(w, steps);
      } else {
        match a {
          case ClaimPersist(c) => ClaimNumbered(w, last, Persist(Bump(w.life), c), false, last');
          case ClaimClear => ClaimNumbered(w, last, Clear(Bump(w.life)), true, last');
          case Run(i) => RunNumbered(w, last, i);
        }
        RunsNumbered(t, last', steps[1..]);
      }
    }
  }

  lemma {:induction false} ClaimsGrow(w: World, steps: seq<Step>)
    requires Valid(w, steps)
    ensures w.claims <= Final(w, steps).claims
    decreases steps
  {
    if steps != [] {
      ClaimsGrow(Do(w, steps[0]), steps[1..]);
    }
  }

  lemma {:induction false} ClosedWrites(w: World, steps: seq<Step>)
    requires Valid(w, steps) && w.life.closed
    ensures Final(w, steps).writes == w.writes && Final(w, steps).life.closed
    decreases steps
  {
    if steps != [] {
      ClosedWrites(Do(w, steps[0]), steps[1..]);
    }
  }

  /** Versions that reach the disk are strictly increasing, below saturation. */
  lemma WritesIncrease(steps: seq<Step>)
    requires Valid(Start, steps) && Final(Start, steps).claims <= U64_MAX
    ensures var writes := Final(Start, steps).writes;
            forall i, j :: 0 <= i < j < |writes| ==> writes[i] < writes[j]
  {
    RunsNumbered(Start, None, steps);
  }

  lemma {:induction false} ClaimsArePersists(w: World, steps: seq<Step>)
    requires Valid(w, steps) && ClaimClear !in steps && !w.life.closed
    ensures Final(w, steps).claims == w.claims + CountPersists(steps)
    decreases steps
  {
    if steps != [] {
      ClaimsArePersists(Do(w, steps[0]), steps[1..]);
    }
  }

  /** Convergence: once every claimed job has run, in whatever order, the disk is empty if the
      session was ever cleared, and otherwise holds the counters of the last persist claimed,
      as long as the claims number at most 2^64 - 1. */
  lemma Converges(steps: seq<Step>)
    requires Valid(Start, steps) && Final(Start, steps).queue == []
    ensures ClaimClear in steps ==> Final(Start, steps).disk == None
    ensures ClaimClear !in steps && CountPersists(steps) <= U64_MAX ==>
              Final(Start, steps).disk == LastPersist(steps, None)
  {
    ClearIsFinal(Start, steps);
    if ClaimClear !in steps && CountPersists(steps) <= U64_MAX {
      ClaimsArePersists(Start, steps);
      RunsNumbered(Start, None, steps);
    }
  }

  // ---- At saturation -----------------------------------------------------------------------

  lemma {:induction false} Extend(w: World, steps: seq<Step>, a: Step)
    requires Valid(w, steps) && Enabled(Final(w, steps), a)
    ensures Valid(w, steps + [a]) && Final(w, steps + [a]) == Do(Final(w, steps), a)
    ensures CountPersists(steps + [a]) == CountPersists(steps) + if a.ClaimPersist? then 1 else 0
    ensures forall l :: LastPersist(steps + [a], l) == if a.ClaimPersist? then Some(a.counters) else LastPersist(steps, l)
    ensures ClaimClear in steps + [a] <==> ClaimClear in steps || a == ClaimClear
    decreases steps
  {
    if steps == [] {
      assert steps + [a] == [a] && [a][1..] == [];
    } else {
      assert (steps + [a])[1..] == steps[1..] + [a];
      Extend(Do(w, steps[0]), steps[1..], a);
    }
  }

  /** `n` claims run one after the other. */
  lemma {:induction false} PersistTimes(n: nat) returns (steps: seq<Step>)
    ensures Valid(Start, steps) && CountPersists(steps) == n && ClaimClear !in steps
    ensures var w := Final(Start, steps);
            w.life == Lifecycle(if n <= U64_MAX then n else U64_MAX, false) && w.queue == []
    decreases n
  {
    if n == 0 {
      steps := [];
    } else {
      steps := PersistTimes(n - 1);
      Extend(Start, steps, ClaimPersist(0));
      steps := steps + [ClaimPersist(0)];
      Extend(Start, steps, Run(0));
      steps := steps + [Run(0)];
    }
  }

  /** The bound is exact: past 2^64 - 1 claims two persists share the stuck version, and for
      every such number of claims some order of runs leaves an older one on the disk. */
  lemma SaturationLosesTheNewest(n: nat) returns (steps: seq<Step>)
    requires n > U64_MAX
    ensures Valid(Start, steps) && CountPersists(steps) == n && ClaimClear !in steps
    ensures Final(Start, steps).queue == [] && Final(Start, steps).disk != LastPersist(steps, None)
  {
    steps := PersistTimes(n - 2);
    var w := Final(Start, steps);
    Extend(Start, steps, ClaimPersist(1));
    steps := steps + [ClaimPersist(1)];
    Extend(Start, steps, ClaimPersist(2));
    steps := steps + [ClaimPersist(2)];
    var t := Final(Start, steps);
    assert t.life == Lifecycle(U64_MAX, false);
    assert t.queue == [Persist(U64_MAX, 1), Persist(U64_MAX, 2)];
    Extend(Start, steps, Run(1));
    steps := steps + [Run(1)];
    assert Final(Start, steps).queue == [Persist(U64_MAX, 1)];
    Extend(Start, steps, Run(0));
    steps := steps + [Run(0)];
  }
}
