/** How the OpenAI-compatible adapter hands a prompt's result from its completion task to
    `wait_for_response`, while cancellations, a kill and other prompts' completions race it.
    One action is one lock scope; the active-map guard that `kill` keeps to its end blocks
    every other scope on that map. */
module OpenAiRendezvous {
  import opened Common
  import opened PromptCache

  datatype TaskPc =
    | Running
    | Storing(result: Payload)
    | Notifying(result: Payload)
    | Deactivating(result: Payload)
    | Finished(result: Payload)

  datatype Outcome = Got(result: Payload) | NotRunning | AlreadyWaiting | TimedOut

  datatype WaitPc =
    | PopFirst | CheckActive | PopInactive | Register | PopAgain
    | DropAfterPop(result: Payload)
    | Recheck | DropInactive | PopLast | Parked
    | PopWoken(result: Payload)
    | DropClosed | DropTimedOut
    | Done(outcome: Outcome)

  /** The oneshot of a waiter: unset, waiting, completed, or its sender dropped. */
  datatype Chan = Open | Sent(result: Payload) | Closed

  datatype CancelPc = RemoveActive | DropCompleter(had: bool) | PopResult(had: bool, dropped: bool)
    | Abort(had: bool, removed: bool) | CancelDone(ok: bool)

  datatype Cancel = Cancel(id: Id, pc: CancelPc)

  /** Inside `kill`, which holds the active-map lock from its drain to its end. */
  datatype KillPc = Idle | Drained | CompletersCleared | KeysCleared

  /** History: how a stored result left the cache. `ClearedEarly`: cleared by a kill while the
      prompt's own `send_prompt` had not yet entered it in the active map. */
  datatype Reason = Evicted | Taken(taker: Id) | TakenByCancel | Cleared | ClearedEarly

  /** A task in `aborted` may still run on to its next await point, or stop for good. */
  datatype State = State(
    alive: bool,
    admitted: set<Id>,
    tasks: map<Id, TaskPc>,
    aborted: set<Id>,
    stopped: set<Id>,
    active: set<Id>,
    returned: set<Id>,
    completers: map<Id, Id>,
    chans: map<Id, Chan>,
    cache: Cache,
    waitId: map<Id, Id>,
    waitPc: map<Id, WaitPc>,
    cancels: map<Id, Cancel>,
    kill: KillPc,
    gone: map<Id, Reason>)

  const Init: State :=
    State(true, {}, map[], {}, {}, {}, {}, map[], map[], Empty, map[], map[], map[], Idle, map[])

  datatype Action =
    | Admit(p: Id) | Spawn(p: Id) | Activate(p: Id)
    | Complete(p: Id, result: Payload) | StoreResult(p: Id) | Notify(p: Id) | Deactivate(p: Id) | Stop(p: Id)
    | StartWait(w: Id, p: Id) | Advance(w: Id) | Timeout(w: Id)
    | StartCancel(c: Id, p: Id) | AdvanceCancel(c: Id)
    | KillBegin | KillDrain | KillCompleters | KillKeys | KillResults

  predicate NeedsActiveMap(pc: WaitPc) {
    pc.CheckActive? || pc.Recheck?
  }

  predicate TaskAt(s: State, p: Id) {
    p in s.tasks && p !in s.stopped
  }

  predicate Enabled(s: State, a: Action) {
    match a
    case Admit(p) => s.alive && p !in s.admitted
    case Spawn(p) => p in s.admitted && p !in s.tasks
    case Activate(p) => p in s.tasks && p !in s.returned && s.kill.Idle?
    case Complete(p, _) => TaskAt(s, p) && s.tasks[p].Running?
    case StoreResult(p) => TaskAt(s, p) && s.tasks[p].Storing?
    case Notify(p) => TaskAt(s, p) && s.tasks[p].Notifying?
    case Deactivate(p) => TaskAt(s, p) && s.tasks[p].Deactivating? && s.kill.Idle?
    case Stop(p) => p in s.aborted
    case StartWait(w, p) => p in s.returned && w !in s.waitId
    case Advance(w) => CanAdvance(s, w)
    case Timeout(w) => w in s.waitPc && !s.waitPc[w].Done? && !s.waitPc[w].DropTimedOut?
    case StartCancel(c, p) => p in s.returned && c !in s.cancels
    case AdvanceCancel(c) =>
      c in s.cancels && !s.cancels[c].pc.CancelDone? && (s.cancels[c].pc.RemoveActive? ==> s.kill.Idle?)
    case KillBegin => true
    case KillDrain => !s.alive && s.kill.Idle?
    case KillCompleters => s.kill.Drained?
    case KillKeys => s.kill.CompletersCleared?
    case KillResults => s.kill.KeysCleared?
  }

  predicate CanAdvance(s: State, w: Id) {
    && w in s.waitId && w in s.waitPc && w in s.chans && !s.waitPc[w].Done?
    && (s.waitPc[w].Parked? ==> !s.chans[w].Open?)
    && (NeedsActiveMap(s.waitPc[w]) ==> s.kill.Idle?)
  }

  // ---- Updates -----------------------------------------------------------------------------

  function SetTask(s: State, p: Id, pc: TaskPc): State {
    s.(tasks := s.tasks[p := pc])
  }

  function SetWait(s: State, w: Id, pc: WaitPc): State {
    s.(waitPc := s.waitPc[w := pc])
  }

  /** Removing an id from the completer map drops its sender. */
  function DropSender(s: State, p: Id): State {
    if p in s.completers then
      s.(completers := s.completers - {p}, chans := s.chans[s.completers[p] := Closed])
    else s
  }

  /** Popping an id from the cache, and noting who took a result that was there. */
  function TakeResult(s: State, p: Id, why: Reason): State {
    s.(cache := PopRefresh(s.cache, p), gone := if p in s.cache.results then s.gone[p := why] else s.gone)
  }

  function DoStore(s: State, p: Id): State
    requires p in s.tasks && s.tasks[p].Storing?
  {
    var r := s.tasks[p].result;
    var c := StoreRefresh(s.cache, OPENAI_CAP, p, r);
    var lost := map q | q in s.cache.results.Keys + {p} && q !in c.results :: Evicted;
    SetTask(s.(cache := c, gone := s.gone + lost), p, Notifying(r))
  }

  function DoNotify(s: State, p: Id): State
    requires p in s.tasks && s.tasks[p].Notifying?
  {
    var r := s.tasks[p].result;
    var t := SetTask(s, p, Deactivating(r));
    if p in s.completers then
      t.(completers := s.completers - {p}, chans := s.chans[s.completers[p] := Sent(r)])
    else t
  }

  predicate Popping(pc: WaitPc) {
    pc.PopFirst? || pc.PopInactive? || pc.PopAgain? || pc.PopLast? || pc.PopWoken?
  }

  /** Where a pop at `pc` leads, given what it found. */
  function PoppedPc(pc: WaitPc, found: Option<Payload>): WaitPc
    requires Popping(pc)
  {
    if pc.PopAgain? then (if found.Some? then DropAfterPop(found.value) else Recheck)
    else if found.Some? then Done(Got(found.value))
    else if pc.PopFirst? then CheckActive
    else if pc.PopWoken? then Done(Got(pc.result))
    else Done(NotRunning)
  }

  function DoPop(s: State, w: Id): State
    requires w in s.waitId && w in s.waitPc && Popping(s.waitPc[w])
  {
    var p := s.waitId[w];
    SetWait(TakeResult(s, p, Taken(w)), w, PoppedPc(s.waitPc[w], Lookup(s.cache, p)))
  }

  function DoRegister(s: State, w: Id): State
    requires w in s.waitId
  {
    var p := s.waitId[w];
    if p in s.completers then SetWait(s, w, Done(AlreadyWaiting))
    else SetWait(s.(completers := s.completers[p := w], chans := s.chans[w := Open]), w, PopAgain)
  }

  predicate Dropping(pc: WaitPc) {
    pc.DropAfterPop? || pc.DropInactive? || pc.DropClosed? || pc.DropTimedOut?
  }

  /** Where a waiter goes after removing its prompt's completer. */
  function DroppedPc(pc: WaitPc): WaitPc
    requires Dropping(pc)
  {
    if pc.DropAfterPop? then Done(Got(pc.result))
    else if pc.DropInactive? then PopLast
    else if pc.DropClosed? then PopFirst
    else Done(TimedOut)
  }

  /** Where a waiter goes after looking at the active map or at its channel. */
  function LookedPc(pc: WaitPc, active: bool, chan: Chan): WaitPc {
    if pc.CheckActive? then (if active then Register else PopInactive)
    else if pc.Recheck? then (if active then Parked else DropInactive)
    else if chan.Sent? then PopWoken(chan.result)
    else DropClosed
  }

  function DoAdvance(s: State, w: Id): State
    requires w in s.waitId && w in s.waitPc && w in s.chans
  {
    var p := s.waitId[w];
    var pc := s.waitPc[w];
    if Popping(pc) then DoPop(s, w)
    else if Dropping(pc) then SetWait(DropSender(s, p), w, DroppedPc(pc))
    else if pc.Register? then DoRegister(s, w)
    else SetWait(s, w, LookedPc(pc, p in s.active, s.chans[w]))
  }

  function SetCancel(s: State, c: Id, pc: CancelPc): State {
    if c in s.cancels then s.(cancels := s.cancels[c := s.cancels[c].(pc := pc)]) else s
  }

  /** The lock scope a cancellation enters next, and where it goes from there. */
  function CancelEffect(s: State, c: Cancel): State {
    if c.pc.RemoveActive? then s.(active := s.active - {c.id})
    else if c.pc.DropCompleter? then DropSender(s, c.id)
    else if c.pc.PopResult? then TakeResult(s, c.id, TakenByCancel)
    else if c.pc.Abort? && c.pc.had then s.(aborted := s.aborted + {c.id})
    else s
  }

  function CancelNext(s: State, c: Cancel): CancelPc {
    match c.pc
    case RemoveActive => DropCompleter(c.id in s.active)
    case DropCompleter(had) => PopResult(had, c.id in s.completers)
    case PopResult(had, dropped) => Abort(had, dropped || c.id in s.cache.results)
    case Abort(had, removed) => CancelDone(had || removed)
    case CancelDone(ok) => CancelDone(ok)
  }

  function DoCancel(s: State, c: Id): State
    requires c in s.cancels
  {
    SetCancel(CancelEffect(s, s.cancels[c]), c, CancelNext(s, s.cancels[c]))
  }

  function DoDrain(s: State): State {
    s.(kill := Drained, active := {}, aborted := s.aborted + s.active)
  }

  function DoKillCompleters(s: State): State {
    s.(kill := CompletersCleared, completers := map[],
       chans := map w | w in s.chans :: if w in s.completers.Values then Closed else s.chans[w])
  }

  function DoKillResults(s: State): State {
    s.(kill := Idle, cache := s.cache.(results := map[]),
       gone := s.gone + map p | p in s.cache.results :: if p in s.returned then Cleared else ClearedEarly)
  }

  function Do(s: State, a: Action): State
    requires Enabled(s, a)
  {
    match a
    case Admit(p) => s.(admitted := s.admitted + {p})
    case Spawn(p) => SetTask(s, p, Running)
    case Activate(p) => s.(active := s.active + {p}, returned := s.returned + {p})
    case Complete(p, r) => SetTask(s, p, Storing(r))
    case StoreResult(p) => DoStore(s, p)
    case Notify(p) => DoNotify(s, p)
    case Deactivate(p) => SetTask(s.(active := s.active - {p}), p, Finished(s.tasks[p].result))
    case Stop(p) => s.(stopped := s.stopped + {p})
    case StartWait(w, p) =>
      s.(waitId := s.waitId[w := p], waitPc := s.waitPc[w := PopFirst], chans := s.chans[w := Closed])
    case Advance(w) => DoAdvance(s, w)
    case Timeout(w) => SetWait(s, w, DropTimedOut)
    case StartCancel(c, p) => s.(cancels := s.cancels[c := Cancel(p, RemoveActive)])
    case AdvanceCancel(c) => DoCancel(s, c)
    case KillBegin => s.(alive := false)
    case KillDrain => DoDrain(s)
    case KillCompleters => DoKillCompleters(s)
    case KillKeys => s.(kill := KeysCleared, cache := s.cache.(keys := []))
    case KillResults => DoKillResults(s)
  }

  predicate ValidFrom(s: State, run: seq<Action>)
    decreases run
  {
    run == [] || (Enabled(s, run[0]) && ValidFrom(Do(s, run[0]), run[1..]))
  }

  function Final(s: State, run: seq<Action>): State
    requires ValidFrom(s, run)
    decreases run
  {
    if run == [] then s else Final(Do(s, run[0]), run[1..])
  }

  // ---- The invariant -----------------------------------------------------------------------

  predicate StoredAlready(t: TaskPc) {
    !t.Running? && !t.Storing?
  }

  predicate NotifyPast(t: TaskPc) {
    t.Deactivating? || t.Finished?
  }

  /** The reasons that leave a later waiter of the prompt with nothing to be told. */
  predicate Excused(r: Reason) {
    r.Evicted? || r.Taken? || r.ClearedEarly?
  }

  predicate ExcusedIn(gone: map<Id, Reason>, p: Id) {
    p in gone && Excused(gone[p])
  }

  ghost predicate CancelDropping(cancels: map<Id, Cancel>, p: Id) {
    exists c :: c in cancels && cancels[c].id == p && cancels[c].pc.DropCompleter?
  }

  /** A wake-up of the prompt's waiter is still to come: its task has its notify ahead, a cancel
      is about to drop the completer, or a kill is about to clear all completers. */
  ghost predicate WakeAhead(s: State, p: Id) {
    || (p in s.tasks && !NotifyPast(s.tasks[p]) && p !in s.aborted)
    || CancelDropping(s.cancels, p)
    || s.kill.Drained?
  }

  /** A completer is the sender of the open channel of a waiter of its prompt, and every open
      channel has its sender there. */
  ghost predicate SendersOk(completers: map<Id, Id>, waitId: map<Id, Id>, chans: map<Id, Chan>) {
    && waitId.Keys == chans.Keys
    && (forall p <- completers ::
          && completers[p] in waitId && waitId[completers[p]] == p
          && completers[p] in chans && chans[completers[p]].Open?)
    && (forall w <- chans :: w in waitId && chans[w].Open? ==>
          waitId[w] in completers && completers[waitId[w]] == w)
  }

  ghost predicate ResultsOk(results: map<Id, Payload>, tasks: map<Id, TaskPc>, gone: map<Id, Reason>) {
    && (forall p <- results ::
          p in tasks && StoredAlready(tasks[p]) && p !in gone && results[p] == tasks[p].result)
    && (forall p <- gone :: p in tasks && StoredAlready(tasks[p]))
    && (forall p <- tasks :: StoredAlready(tasks[p]) ==> p in results || p in gone)
  }

  ghost predicate ActiveOk(active: set<Id>, aborted: set<Id>, returned: set<Id>, gone: map<Id, Reason>) {
    && active <= returned && aborted <= returned && active !! aborted
    && (forall p <- gone :: p in active || p !in returned ==> Excused(gone[p]))
  }

  ghost predicate CancelsOk(cancels: map<Id, Cancel>, returned: set<Id>, active: set<Id>) {
    forall c <- cancels ::
      cancels[c].id in returned && (!cancels[c].pc.RemoveActive? ==> cancels[c].id !in active)
  }

  ghost predicate WaitIdsOk(waitId: map<Id, Id>, returned: set<Id>) {
    forall w <- waitId :: waitId[w] in returned
  }

  predicate Spent(pc: WaitPc) {
    pc.DropAfterPop? || pc.DropTimedOut? || pc.Done?
  }

  /** Whoever took a result is past looking for one. */
  ghost predicate TakersSpent(gone: map<Id, Reason>, waitPc: map<Id, WaitPc>) {
    forall p <- gone :: gone[p].Taken? ==> gone[p].taker in waitPc && Spent(waitPc[gone[p].taker])
  }

  ghost predicate Structure(s: State) {
    && SendersOk(s.completers, s.waitId, s.chans)
    && ResultsOk(s.cache.results, s.tasks, s.gone)
    && ActiveOk(s.active, s.aborted, s.returned, s.gone)
    && (!s.kill.Idle? ==> s.active == {})
    && CancelsOk(s.cancels, s.returned, s.active)
    && s.returned <= s.tasks.Keys
    && WaitIdsOk(s.waitId, s.returned)
    && s.waitId.Keys == s.waitPc.Keys
    && TakersSpent(s.gone, s.waitPc)
  }

  /** What a waiter of `p` may count on at point `pc` while its channel is open. */
  ghost predicate WaiterOk(s: State, p: Id, pc: WaitPc) {
    && (pc.Recheck? ==> (p in s.tasks && !NotifyPast(s.tasks[p])) || p in s.gone)
    && (pc.Parked? ==>
          || (p in s.active && p in s.tasks && !NotifyPast(s.tasks[p]))
          || CancelDropping(s.cancels, p)
          || s.kill.Drained?
          || ExcusedIn(s.gone, p))
  }

  ghost predicate WaitersOk(s: State) {
    forall w <- s.waitPc :: w in s.waitId && w in s.chans && s.chans[w].Open? ==>
      WaiterOk(s, s.waitId[w], s.waitPc[w])
  }

  ghost predicate Produced(tasks: map<Id, TaskPc>, p: Id, r: Payload) {
    p in tasks && StoredAlready(tasks[p]) && tasks[p].result == r
  }

  /** Every result on a waiter's hands is the one its prompt's task produced. */
  ghost predicate ValuesOk(waitId: map<Id, Id>, waitPc: map<Id, WaitPc>, chans: map<Id, Chan>, tasks: map<Id, TaskPc>) {
    && (forall w <- chans :: w in waitId && chans[w].Sent? ==> Produced(tasks, waitId[w], chans[w].result))
    && (forall w <- waitPc :: w in waitId && (waitPc[w].DropAfterPop? || waitPc[w].PopWoken?) ==>
          Produced(tasks, waitId[w], waitPc[w].result))
    && (forall w <- waitPc :: w in waitId && waitPc[w].Done? && waitPc[w].outcome.Got? ==>
          Produced(tasks, waitId[w], waitPc[w].outcome.result))
  }

  ghost predicate Inv(s: State) {
    Structure(s) && WaitersOk(s) && ValuesOk(s.waitId, s.waitPc, s.chans, s.tasks)
  }

  // ---- Every step keeps it -----------------------------------------------------------------

  ghost predicate Values(s: State) {
    ValuesOk(s.waitId, s.waitPc, s.chans, s.tasks)
  }

  /** A task may only move on: what it has produced stays produced. */
  predicate MovesOn(tasks: map<Id, TaskPc>, p: Id, pc: TaskPc) {
    p in tasks && StoredAlready(tasks[p]) ==> StoredAlready(pc) && pc.result == tasks[p].result
  }

  lemma ValuesKept(waitId: map<Id, Id>, waitPc: map<Id, WaitPc>, chans: map<Id, Chan>, tasks: map<Id, TaskPc>, p: Id, pc: TaskPc)
    requires ValuesOk(waitId, waitPc, chans, tasks) && MovesOn(tasks, p, pc)
    ensures ValuesOk(waitId, waitPc, chans, tasks[p := pc])
  {
    assert forall q, r :: Produced(tasks, q, r) ==> Produced(tasks[p := pc], q, r);
  }

  /** Moving a task without crossing its notify step, and with the active map untouched. */
  lemma SetTaskWaiters(s: State, p: Id, pc: TaskPc)
    requires WaitersOk(s) && (p in s.tasks && !NotifyPast(s.tasks[p]) ==> !NotifyPast(pc))
    ensures WaitersOk(SetTask(s, p, pc))
  {
  }

  lemma SpawnInv(s: State, p: Id)
    requires Inv(s) && p !in s.tasks
    ensures Inv(SetTask(s, p, Running))
  {
    SetTaskWaiters(s, p, Running);
    ValuesKept(s.waitId, s.waitPc, s.chans, s.tasks, p, Running);
  }

  lemma CompleteInv(s: State, p: Id, r: Payload)
    requires Inv(s) && p in s.tasks && s.tasks[p].Running?
    ensures Inv(SetTask(s, p, Storing(r)))
  {
    SetTaskWaiters(s, p, Storing(r));
    ValuesKept(s.waitId, s.waitPc, s.chans, s.tasks, p, Storing(r));
  }

  lemma ActivateInv(s: State, p: Id)
    requires Inv(s) && Enabled(s, Activate(p))
    ensures Inv(Do(s, Activate(p)))
  {
  }

  lemma StoreGone(s: State, p: Id)
    requires ResultsOk(s.cache.results, s.tasks, s.gone) && Enabled(s, StoreResult(p))
    ensures forall q <- s.gone :: q in DoStore(s, p).gone && DoStore(s, p).gone[q] == s.gone[q]
    ensures forall q <- DoStore(s, p).gone :: q in s.gone || DoStore(s, p).gone[q] == Evicted
  {
  }

  lemma StoreResults(s: State, p: Id)
    requires ResultsOk(s.cache.results, s.tasks, s.gone) && Enabled(s, StoreResult(p))
    ensures var t := DoStore(s, p); ResultsOk(t.cache.results, t.tasks, t.gone)
  {
    var r := s.tasks[p].result;
    StoreOnlyAdds(Refresh, OPENAI_CAP, s.cache, p, r);
    assert Apply(Refresh, OPENAI_CAP, s.cache, Store(p, r)) == DoStore(s, p).cache;
  }

  lemma StoreWaiters(s: State, p: Id)
    requires Inv(s) && Enabled(s, StoreResult(p))
    ensures WaitersOk(DoStore(s, p))
  {
    StoreGone(s, p);
  }

  lemma StoreInv(s: State, p: Id)
    requires Inv(s) && Enabled(s, StoreResult(p))
    ensures Inv(DoStore(s, p))
  {
    StoreGone(s, p);
    StoreResults(s, p);
    StoreWaiters(s, p);
    ValuesKept(s.waitId, s.waitPc, s.chans, s.tasks, p, Notifying(s.tasks[p].result));
  }

  lemma SendersClose(completers: map<Id, Id>, waitId: map<Id, Id>, chans: map<Id, Chan>, p: Id, c: Chan)
    requires SendersOk(completers, waitId, chans) && p in completers && !c.Open?
    ensures SendersOk(completers - {p}, waitId, chans[completers[p] := c])
  {
  }

  lemma ResultsMove(results: map<Id, Payload>, tasks: map<Id, TaskPc>, gone: map<Id, Reason>, p: Id, pc: TaskPc)
    requires ResultsOk(results, tasks, gone) && p in tasks && StoredAlready(tasks[p])
    requires StoredAlready(pc) && pc.result == tasks[p].result
    ensures ResultsOk(results, tasks[p := pc], gone)
  {
  }

  lemma ResultsTake(results: map<Id, Payload>, tasks: map<Id, TaskPc>, gone: map<Id, Reason>, p: Id, why: Reason)
    requires ResultsOk(results, tasks, gone)
    ensures ResultsOk(results - {p}, tasks, if p in results then gone[p := why] else gone)
  {
  }

  lemma NotifyWaiters(s: State, p: Id)
    requires WaitersOk(s) && SendersOk(s.completers, s.waitId, s.chans) && Enabled(s, Notify(p))
    ensures WaitersOk(DoNotify(s, p))
  {
    var t := DoNotify(s, p);
    forall w | w in t.waitPc && w in t.waitId && w in t.chans && t.chans[w].Open?
      ensures WaiterOk(t, t.waitId[w], t.waitPc[w])
    {
      assert s.completers[s.waitId[w]] == w && s.waitId[w] != p;
      assert WaiterOk(s, s.waitId[w], s.waitPc[w]);
    }
  }

  lemma NotifyValues(s: State, p: Id)
    requires Inv(s) && Enabled(s, Notify(p))
    ensures Values(DoNotify(s, p))
  {
    ValuesKept(s.waitId, s.waitPc, s.chans, s.tasks, p, Deactivating(s.tasks[p].result));
  }

  lemma NotifyInv(s: State, p: Id)
    requires Inv(s) && Enabled(s, Notify(p))
    ensures Inv(DoNotify(s, p))
  {
    var r := s.tasks[p].result;
    if p in s.completers {
      SendersClose(s.completers, s.waitId, s.chans, p, Sent(r));
    }
    NotifyWaiters(s, p);
    ResultsMove(s.cache.results, s.tasks, s.gone, p, Deactivating(r));
    NotifyValues(s, p);
  }

  lemma DeactivateInv(s: State, p: Id)
    requires Inv(s) && Enabled(s, Deactivate(p))
    ensures Inv(Do(s, Deactivate(p)))
  {
    ValuesKept(s.waitId, s.waitPc, s.chans, s.tasks, p, Finished(s.tasks[p].result));
  }

  lemma StartWaitStructure(s: State, w: Id, p: Id)
    requires Structure(s) && Enabled(s, StartWait(w, p))
    ensures Structure(Do(s, StartWait(w, p)))
  {
    var t := Do(s, StartWait(w, p));
    assert SendersOk(t.completers, t.waitId, t.chans);
    assert TakersSpent(t.gone, t.waitPc);
  }

  lemma StartWaitInv(s: State, w: Id, p: Id)
    requires Inv(s) && Enabled(s, StartWait(w, p))
    ensures Inv(Do(s, StartWait(w, p)))
  {
    StartWaitStructure(s, w, p);
  }

  // Waiters.

  /** Moving waiter `w` to a point where it holds what that point promises. */
  ghost predicate MayMoveTo(s: State, w: Id, pc: WaitPc) {
    && w in s.waitId && w in s.waitPc && w in s.chans
    && (Spent(s.waitPc[w]) ==> Spent(pc))
    && (s.chans[w].Open? ==> WaiterOk(s, s.waitId[w], pc))
    && (pc.DropAfterPop? || pc.PopWoken? ==> Produced(s.tasks, s.waitId[w], pc.result))
    && (pc.Done? && pc.outcome.Got? ==> Produced(s.tasks, s.waitId[w], pc.outcome.result))
  }

  lemma SetWaitWaiters(s: State, w: Id, pc: WaitPc)
    requires WaitersOk(s) && MayMoveTo(s, w, pc)
    ensures WaitersOk(SetWait(s, w, pc))
  {
  }

  lemma SetWaitInv(s: State, w: Id, pc: WaitPc)
    requires Inv(s) && MayMoveTo(s, w, pc)
    ensures Inv(SetWait(s, w, pc))
  {
    TakersMove(s.gone, s.waitPc, w, pc, s.waitId[w]);
    ValuesMove(s.waitId, s.waitPc, s.chans, s.tasks, w, pc);
    SetWaitWaiters(s, w, pc);
  }

  lemma DropSenderInv(s: State, p: Id)
    requires Inv(s)
    ensures Inv(DropSender(s, p))
  {
    if p in s.completers {
      SendersClose(s.completers, s.waitId, s.chans, p, Closed);
    }
  }

  lemma RegisterInv(s: State, w: Id)
    requires Inv(s) && CanAdvance(s, w) && s.waitPc[w].Register?
    ensures Inv(DoRegister(s, w))
  {
    var p := s.waitId[w];
    if p in s.completers {
      SetWaitInv(s, w, Done(AlreadyWaiting));
    } else {
      SetWaitInv(s, w, PopAgain);
      OpenInv(SetWait(s, w, PopAgain), w);
    }
  }

  lemma OpenInv(s: State, w: Id)
    requires Inv(s) && w in s.waitPc && w in s.waitId && s.waitPc[w].PopAgain? && s.waitId[w] !in s.completers
    ensures Inv(s.(completers := s.completers[s.waitId[w] := w], chans := s.chans[w := Open]))
  {
  }

  lemma ActiveTake(active: set<Id>, aborted: set<Id>, returned: set<Id>, gone: map<Id, Reason>, p: Id, why: Reason)
    requires ActiveOk(active, aborted, returned, gone) && Excused(why)
    ensures ActiveOk(active, aborted, returned, gone[p := why])
  {
  }

  lemma TakersMove(gone: map<Id, Reason>, waitPc: map<Id, WaitPc>, w: Id, pc: WaitPc, p: Id)
    requires TakersSpent(gone, waitPc) && w in waitPc && (Spent(waitPc[w]) ==> Spent(pc))
    ensures TakersSpent(gone, waitPc[w := pc])
    ensures Spent(pc) ==> TakersSpent(gone[p := Taken(w)], waitPc[w := pc])
  {
  }

  /** What a pop changes. */
  lemma PopShape(s: State, w: Id)
    requires CanAdvance(s, w) && Popping(s.waitPc[w])
    ensures var p := s.waitId[w];
            DoPop(s, w) == s.(cache := PopRefresh(s.cache, p),
                              gone := if p in s.cache.results then s.gone[p := Taken(w)] else s.gone,
                              waitPc := s.waitPc[w := PoppedPc(s.waitPc[w], Lookup(s.cache, p))])
  {
  }

  lemma PopStructure(s: State, w: Id)
    requires Structure(s) && CanAdvance(s, w) && Popping(s.waitPc[w])
    ensures Structure(DoPop(s, w))
  {
    var p := s.waitId[w];
    PopShape(s, w);
    ResultsTake(s.cache.results, s.tasks, s.gone, p, Taken(w));
    ActiveTake(s.active, s.aborted, s.returned, s.gone, p, Taken(w));
    TakersMove(s.gone, s.waitPc, w, PoppedPc(s.waitPc[w], Lookup(s.cache, p)), p);
  }

  lemma PopWaiters(s: State, w: Id)
    requires Inv(s) && CanAdvance(s, w) && Popping(s.waitPc[w])
    ensures WaitersOk(DoPop(s, w))
  {
  }

  lemma ValuesMove(waitId: map<Id, Id>, waitPc: map<Id, WaitPc>, chans: map<Id, Chan>, tasks: map<Id, TaskPc>, w: Id, pc: WaitPc)
    requires ValuesOk(waitId, waitPc, chans, tasks) && w in waitId
    requires pc.DropAfterPop? || pc.PopWoken? ==> Produced(tasks, waitId[w], pc.result)
    requires pc.Done? && pc.outcome.Got? ==> Produced(tasks, waitId[w], pc.outcome.result)
    ensures ValuesOk(waitId, waitPc[w := pc], chans, tasks)
  {
  }

  lemma PopInv(s: State, w: Id)
    requires Inv(s) && CanAdvance(s, w) && Popping(s.waitPc[w])
    ensures Inv(DoPop(s, w))
  {
    var p := s.waitId[w];
    PopStructure(s, w);
    PopWaiters(s, w);
    if p in s.cache.results {
      assert Produced(s.tasks, p, s.cache.results[p]);
    }
    ValuesMove(s.waitId, s.waitPc, s.chans, s.tasks, w, PoppedPc(s.waitPc[w], Lookup(s.cache, p)));
  }

  lemma LookInv(s: State, w: Id)
    requires Inv(s) && CanAdvance(s, w)
    requires s.waitPc[w].CheckActive? || s.waitPc[w].Recheck? || s.waitPc[w].Parked?
    ensures Inv(SetWait(s, w, LookedPc(s.waitPc[w], s.waitId[w] in s.active, s.chans[w])))
  {
    SetWaitInv(s, w, LookedPc(s.waitPc[w], s.waitId[w] in s.active, s.chans[w]));
  }

  lemma AdvanceInv(s: State, w: Id)
    requires Inv(s) && CanAdvance(s, w)
    ensures Inv(DoAdvance(s, w))
  {
    var p := s.waitId[w];
    var pc := s.waitPc[w];
    if Popping(pc) {
      PopInv(s, w);
    } else if Dropping(pc) {
      DropSenderInv(s, p);
      SetWaitInv(DropSender(s, p), w, DroppedPc(pc));
    } else if pc.Register? {
      RegisterInv(s, w);
    } else {
      LookInv(s, w);
    }
  }

  // Cancellations and the kill.

  lemma DroppingKept(cancels: map<Id, Cancel>, c: Id, x: Cancel, p: Id)
    requires CancelDropping(cancels, p)
    requires c in cancels && cancels[c].pc.DropCompleter? ==> cancels[c].id != p
    ensures CancelDropping(cancels[c := x], p)
  {
    var d :| d in cancels && cancels[d].id == p && cancels[d].pc.DropCompleter?;
    assert cancels[c := x][d] == cancels[d];
  }

  lemma RemoveActiveInv(s: State, c: Id)
    requires Inv(s) && c in s.cancels && s.cancels[c].pc.RemoveActive? && s.kill.Idle?
    ensures Inv(DoCancel(s, c))
  {
    var t := DoCancel(s, c);
    forall p | CancelDropping(s.cancels, p) ensures CancelDropping(t.cancels, p) {
      DroppingKept(s.cancels, c, t.cancels[c], p);
    }
    assert t.cancels[c].id == s.cancels[c].id && t.cancels[c].pc.DropCompleter?;
    assert CancelDropping(t.cancels, s.cancels[c].id);
  }

  lemma SetCancelInv(s: State, c: Id, pc: CancelPc)
    requires Inv(s) && c in s.cancels && !s.cancels[c].pc.RemoveActive? && !pc.RemoveActive?
    requires s.cancels[c].pc.DropCompleter? ==> s.cancels[c].id !in s.completers
    ensures Inv(SetCancel(s, c, pc))
  {
    var t := SetCancel(s, c, pc);
    var id := s.cancels[c].id;
    forall p | CancelDropping(s.cancels, p) && (p != id || !s.cancels[c].pc.DropCompleter?)
      ensures CancelDropping(t.cancels, p)
    {
      DroppingKept(s.cancels, c, t.cancels[c], p);
    }
  }

  lemma CancelTakeInv(s: State, p: Id)
    requires Inv(s) && p in s.returned && p !in s.active
    ensures Inv(TakeResult(s, p, TakenByCancel))
  {
  }

  lemma DropCompleterInv(s: State, c: Id)
    requires Inv(s) && c in s.cancels && s.cancels[c].pc.DropCompleter?
    ensures Inv(DoCancel(s, c))
  {
    DropSenderInv(s, s.cancels[c].id);
    SetCancelInv(DropSender(s, s.cancels[c].id), c, CancelNext(s, s.cancels[c]));
  }

  lemma PopResultInv(s: State, c: Id)
    requires Inv(s) && c in s.cancels && s.cancels[c].pc.PopResult?
    ensures Inv(DoCancel(s, c))
  {
    CancelTakeInv(s, s.cancels[c].id);
    SetCancelInv(TakeResult(s, s.cancels[c].id, TakenByCancel), c, CancelNext(s, s.cancels[c]));
  }

  lemma AbortInv(s: State, c: Id)
    requires Inv(s) && c in s.cancels && s.cancels[c].pc.Abort?
    ensures Inv(DoCancel(s, c))
  {
    assert Inv(CancelEffect(s, s.cancels[c]));
    SetCancelInv(CancelEffect(s, s.cancels[c]), c, CancelNext(s, s.cancels[c]));
  }

  lemma CancelInv(s: State, c: Id)
    requires Inv(s) && Enabled(s, AdvanceCancel(c))
    ensures Inv(DoCancel(s, c))
  {
    if s.cancels[c].pc.RemoveActive? {
      RemoveActiveInv(s, c);
    } else if s.cancels[c].pc.DropCompleter? {
      DropCompleterInv(s, c);
    } else if s.cancels[c].pc.PopResult? {
      PopResultInv(s, c);
    } else {
      AbortInv(s, c);
    }
  }

  lemma DrainInv(s: State)
    requires Inv(s) && Enabled(s, KillDrain)
    ensures Inv(DoDrain(s))
  {
  }

  lemma KillCompletersInv(s: State)
    requires Inv(s) && Enabled(s, KillCompleters)
    ensures Inv(DoKillCompleters(s))
  {
  }

  lemma KillResultsInv(s: State)
    requires Inv(s) && Enabled(s, KillResults)
    ensures Inv(DoKillResults(s))
  {
  }

  lemma StartCancelInv(s: State, c: Id, p: Id)
    requires Inv(s) && Enabled(s, StartCancel(c, p))
    ensures Inv(Do(s, StartCancel(c, p)))
  {
    var t := Do(s, StartCancel(c, p));
    forall q | CancelDropping(s.cancels, q) ensures CancelDropping(t.cancels, q) {
      DroppingKept(s.cancels, c, t.cancels[c], q);
    }
  }

  lemma QuietInv(s: State, a: Action)
    requires Inv(s) && Enabled(s, a) && (a.Admit? || a.Stop? || a.KillBegin? || a.KillKeys?)
    ensures Inv(Do(s, a))
  {
  }

  lemma StepInv(s: State, a: Action)
    requires Inv(s) && Enabled(s, a)
    ensures Inv(Do(s, a))
  {
    match a
    case Admit(p) => QuietInv(s, a);
    case Spawn(p) => SpawnInv(s, p);
    case Activate(p) => ActivateInv(s, p);
    case Complete(p, r) => CompleteInv(s, p, r);
    case StoreResult(p) => StoreInv(s, p);
    case Notify(p) => NotifyInv(s, p);
    case Deactivate(p) => DeactivateInv(s, p);
    case Stop(p) => QuietInv(s, a);
    case StartWait(w, p) => StartWaitInv(s, w, p);
    case Advance(w) => AdvanceInv(s, w);
    case Timeout(w) => SetWaitInv(s, w, DropTimedOut);
    case StartCancel(c, p) => StartCancelInv(s, c, p);
    case AdvanceCancel(c) => CancelInv(s, c);
    case KillBegin => QuietInv(s, a);
    case KillDrain => DrainInv(s);
    case KillCompleters => KillCompletersInv(s);
    case KillKeys => QuietInv(s, a);
    case KillResults => KillResultsInv(s);
  }

  /** Whoever took a result waits for its prompt. */
  ghost predicate TakersWait(gone: map<Id, Reason>, waitId: map<Id, Id>) {
    forall p <- gone :: gone[p].Taken? ==> gone[p].taker in waitId && waitId[gone[p].taker] == p
  }

  ghost predicate Takers(s: State) {
    TakersWait(s.gone, s.waitId)
  }

  /** What happened to the prompts, as far as waits and cancellations do not change it. */
  datatype Prompts = Prompts(
    waitId: map<Id, Id>, tasks: map<Id, TaskPc>, admitted: set<Id>, returned: set<Id>, alive: bool, kill: KillPc)

  function PromptsOf(s: State): Prompts {
    Prompts(s.waitId, s.tasks, s.admitted, s.returned, s.alive, s.kill)
  }

  /** Nothing there changed, and no result left the cache. */
  ghost predicate Same(s: State, t: State) {
    PromptsOf(t) == PromptsOf(s) && t.gone == s.gone
  }

  /** Nothing there changed, but the result of `p`, if it was cached, left for the reason `why`. */
  ghost predicate Took(s: State, t: State, p: Id, why: Reason) {
    && PromptsOf(t) == PromptsOf(s)
    && t.gone == if p in s.cache.results then s.gone[p := why] else s.gone
  }

  lemma DropFrame(s: State, p: Id)
    ensures Same(s, DropSender(s, p))
  {
  }

  lemma TakeFrame(s: State, p: Id, why: Reason)
    ensures Took(s, TakeResult(s, p, why), p, why)
  {
  }

  lemma WaitFrame(s: State, w: Id, pc: WaitPc)
    ensures Same(s, SetWait(s, w, pc))
  {
  }

  lemma RegisterFrame(s: State, w: Id)
    requires w in s.waitId
    ensures Same(s, DoRegister(s, w))
  {
  }

  lemma PopFrame(s: State, w: Id)
    requires CanAdvance(s, w) && Popping(s.waitPc[w])
    ensures Took(s, DoPop(s, w), s.waitId[w], Taken(w))
  {
    var p := s.waitId[w];
    TakeFrame(s, p, Taken(w));
    WaitFrame(TakeResult(s, p, Taken(w)), w, PoppedPc(s.waitPc[w], Lookup(s.cache, p)));
  }

  lemma LeaveFrame(s: State, w: Id)
    requires CanAdvance(s, w) && Dropping(s.waitPc[w])
    ensures Same(s, SetWait(DropSender(s, s.waitId[w]), w, DroppedPc(s.waitPc[w])))
  {
    DropFrame(s, s.waitId[w]);
    WaitFrame(DropSender(s, s.waitId[w]), w, DroppedPc(s.waitPc[w]));
  }

  lemma AdvanceFrame(s: State, w: Id)
    requires CanAdvance(s, w)
    ensures Same(s, DoAdvance(s, w)) || Took(s, DoAdvance(s, w), s.waitId[w], Taken(w))
  {
    var pc := s.waitPc[w];
    if Popping(pc) {
      PopFrame(s, w);
    } else if Dropping(pc) {
      LeaveFrame(s, w);
    } else if pc.Register? {
      RegisterFrame(s, w);
    } else {
      WaitFrame(s, w, LookedPc(pc, s.waitId[w] in s.active, s.chans[w]));
    }
  }

  lemma RemoveFrame(s: State, c: Cancel)
    requires c.pc.RemoveActive?
    ensures Same(s, CancelEffect(s, c))
  {
  }

  lemma AbortFrame(s: State, c: Cancel)
    requires c.pc.Abort? || c.pc.CancelDone?
    ensures Same(s, CancelEffect(s, c))
  {
  }

  lemma EffectFrame(s: State, c: Cancel)
    ensures Same(s, CancelEffect(s, c)) || Took(s, CancelEffect(s, c), c.id, TakenByCancel)
  {
    if c.pc.DropCompleter? {
      DropFrame(s, c.id);
    } else if c.pc.PopResult? {
      TakeFrame(s, c.id, TakenByCancel);
    } else if c.pc.RemoveActive? {
      RemoveFrame(s, c);
    } else {
      AbortFrame(s, c);
    }
  }

  lemma CancelFrame(s: State, c: Id)
    requires c in s.cancels
    ensures Same(CancelEffect(s, s.cancels[c]), DoCancel(s, c))
  {
  }

  lemma StepTakers(s: State, a: Action)
    requires Takers(s) && Enabled(s, a)
    ensures Takers(Do(s, a))
  {
    match a
    case Advance(w) => AdvanceFrame(s, w);
    case AdvanceCancel(c) =>
      EffectFrame(s, s.cancels[c]);
      CancelFrame(s, c);
    case _ =>
  }

  lemma {:induction false} RunInv(s: State, run: seq<Action>)
    requires Inv(s) && Takers(s) && ValidFrom(s, run)
    ensures Inv(Final(s, run)) && Takers(Final(s, run))
    decreases run
  {
    if run != [] {
      StepInv(s, run[0]);
      StepTakers(s, run[0]);
      RunInv(Do(s, run[0]), run[1..]);
    }
  }

  // ---- What follows for waiters ------------------------------------------------------------

  predicate ParkedUnwoken(s: State, w: Id) {
    w in s.waitId && w in s.waitPc && w in s.chans && s.waitPc[w].Parked? && s.chans[w].Open?
  }

  lemma {:induction false} InitRun(run: seq<Action>)
    requires ValidFrom(Init, run)
    ensures Inv(Final(Init, run)) && Takers(Final(Init, run))
  {
    RunInv(Init, run);
  }

  /** No lost wake-up: in every run, a waiter parked on its completer and not yet woken has a
      wake-up still to come, unless its result was evicted, taken by another waiter of the same
      prompt, or cleared by a kill that overtook the prompt's own `send_prompt`. */
  lemma NoLostWakeup(run: seq<Action>, w: Id)
    requires ValidFrom(Init, run) && ParkedUnwoken(Final(Init, run), w)
    ensures var s := Final(Init, run);
            var p := s.waitId[w];
            || WakeAhead(s, p)
            || (p in s.gone && (s.gone[p] == Evicted || s.gone[p] == ClearedEarly))
            || (p in s.gone && s.gone[p].Taken? && s.gone[p].taker != w
                && s.gone[p].taker in s.waitId && s.waitId[s.gone[p].taker] == p)
  {
    InitRun(run);
    var s := Final(Init, run);
    assert WaiterOk(s, s.waitId[w], s.waitPc[w]);
  }

  /** Each of those steps does wake the waiter: the notify with its task's result, the cancel
      and the kill by dropping the sender. */
  lemma WakeStepsWake(run: seq<Action>, w: Id, a: Action)
    requires ValidFrom(Init, run) && ParkedUnwoken(Final(Init, run), w) && Enabled(Final(Init, run), a)
    ensures var s := Final(Init, run);
            var p := s.waitId[w];
            && (a == Notify(p) ==> Do(s, a).chans[w] == Sent(s.tasks[p].result))
            && (a.AdvanceCancel? && s.cancels[a.c].id == p && s.cancels[a.c].pc.DropCompleter? ==>
                  Do(s, a).chans[w] == Closed)
            && (a.KillCompleters? ==> w in Do(s, a).chans && Do(s, a).chans[w] == Closed)
  {
    InitRun(run);
    var s := Final(Init, run);
    assert s.completers[s.waitId[w]] == w;
    assert s.waitId[w] in s.completers.Keys;
    assert w in s.completers.Values;
  }

  /** Whatever a wait returns as the answer is the result its prompt's task produced. */
  lemma AnswerIsTheTasks(run: seq<Action>, w: Id, r: Payload)
    requires ValidFrom(Init, run)
    requires w in Final(Init, run).waitPc && Final(Init, run).waitPc[w] == Done(Got(r))
    ensures var s := Final(Init, run); w in s.waitId && Produced(s.tasks, s.waitId[w], r)
  {
    InitRun(run);
  }

  // ---- Without the kill race ---------------------------------------------------------------

  /** No kill starts draining while some `send_prompt` is between its liveness check and its
      entry in the active map. */
  predicate Orderly(s: State, run: seq<Action>)
    requires ValidFrom(s, run)
    decreases run
  {
    run == [] ||
    (&& (run[0].KillDrain? ==> s.admitted <= s.returned)
     && Orderly(Do(s, run[0]), run[1..]))
  }

  /** Prompts with a task were admitted, and none is on its way into the active map during a kill. */
  ghost predicate Unspoilt(s: State) {
    && s.tasks.Keys <= s.admitted
    && (!s.kill.Idle? ==> !s.alive && s.admitted <= s.returned)
    && (forall p <- s.gone :: !s.gone[p].ClearedEarly?)
  }

  lemma KillResultsUnspoilt(s: State)
    requires Inv(s) && Unspoilt(s) && Enabled(s, KillResults)
    ensures Unspoilt(DoKillResults(s))
  {
    assert s.cache.results.Keys <= s.returned;
  }

  lemma FramedUnspoilt(s: State, t: State, p: Id, why: Reason)
    requires Unspoilt(s) && (Same(s, t) || Took(s, t, p, why)) && !why.ClearedEarly?
    ensures Unspoilt(t)
  {
  }

  lemma AdvanceUnspoilt(s: State, w: Id)
    requires Unspoilt(s) && CanAdvance(s, w)
    ensures Unspoilt(DoAdvance(s, w))
  {
    AdvanceFrame(s, w);
    FramedUnspoilt(s, DoAdvance(s, w), s.waitId[w], Taken(w));
  }

  lemma CancelUnspoilt(s: State, c: Id)
    requires Unspoilt(s) && c in s.cancels
    ensures Unspoilt(DoCancel(s, c))
  {
    var e := CancelEffect(s, s.cancels[c]);
    EffectFrame(s, s.cancels[c]);
    FramedUnspoilt(s, e, s.cancels[c].id, TakenByCancel);
    CancelFrame(s, c);
    FramedUnspoilt(e, DoCancel(s, c), s.cancels[c].id, TakenByCancel);
  }

  lemma StoreUnspoilt(s: State, p: Id)
    requires Unspoilt(s) && Enabled(s, StoreResult(p))
    ensures Unspoilt(DoStore(s, p))
  {
  }

  lemma StepUnspoilt(s: State, a: Action)
    requires Inv(s) && Unspoilt(s) && Enabled(s, a) && (a.KillDrain? ==> s.admitted <= s.returned)
    ensures Unspoilt(Do(s, a))
  {
    match a
    case Advance(w) => AdvanceUnspoilt(s, w);
    case AdvanceCancel(c) => CancelUnspoilt(s, c);
    case StoreResult(p) => StoreUnspoilt(s, p);
    case KillResults => KillResultsUnspoilt(s);
    case _ =>
  }

  lemma {:induction false} RunUnspoilt(s: State, run: seq<Action>)
    requires Inv(s) && Unspoilt(s) && ValidFrom(s, run) && Orderly(s, run)
    ensures Unspoilt(Final(s, run))
    decreases run
  {
    if run != [] {
      StepInv(s, run[0]);
      StepUnspoilt(s, run[0]);
      RunUnspoilt(Do(s, run[0]), run[1..]);
    }
  }

  /** In an orderly run, of any length, the only waiter of a prompt is parked with a wake-up to
      come, or its result was evicted. */
  lemma SoleWaiterIsWoken(run: seq<Action>, w: Id)
    requires ValidFrom(Init, run) && Orderly(Init, run) && ParkedUnwoken(Final(Init, run), w)
    requires var s := Final(Init, run); forall v <- s.waitId :: s.waitId[v] == s.waitId[w] ==> v == w
    ensures var s := Final(Init, run);
            var p := s.waitId[w];
            WakeAhead(s, p) || (p in s.gone && s.gone[p] == Evicted)
  {
    NoLostWakeup(run, w);
    RunUnspoilt(Init, run);
  }

  // ---- Each exception does strand a waiter -------------------------------------------------

  lemma {:induction false} Extend(s: State, run: seq<Action>, a: Action)
    requires ValidFrom(s, run) && Enabled(Final(s, run), a)
    ensures ValidFrom(s, run + [a]) && Final(s, run + [a]) == Do(Final(s, run), a)
    decreases run
  {
    if run == [] {
      assert run + [a] == [a] && [a][1..] == [];
    } else {
      assert (run + [a])[1..] == run[1..] + [a];
      Extend(Do(s, run[0]), run[1..], a);
    }
  }

  lemma StoreFirst(s: State)
    requires s.tasks == map[1 := Storing(7)] && s.cache == Empty && s.gone == map[]
    ensures DoStore(s, 1) == s.(tasks := map[1 := Notifying(7)], cache := Cache([1], map[1 := 7]))
  {
    assert RemoveFirst<Id>([], 1) + [1] == [1];
    assert StoreRefresh(Empty, OPENAI_CAP, 1, 7) == Cache([1], map[1 := 7]);
  }

  lemma ResultStoredBeforeActivation() returns (run: seq<Action>)
    ensures ValidFrom(Init, run)
    ensures Final(Init, run) == Init.(alive := false, admitted := {1}, tasks := map[1 := Deactivating(7)],
                                      cache := Cache([1], map[1 := 7]))
  {
    run := [];
    Extend(Init, run, Admit(1)); run := run + [Admit(1)];
    Extend(Init, run, Spawn(1)); run := run + [Spawn(1)];
    Extend(Init, run, KillBegin); run := run + [KillBegin];
    var s := Init.(alive := false, admitted := {1}, tasks := map[1 := Running]);
    assert Final(Init, run) == s;
    Extend(Init, run, Complete(1, 7)); run := run + [Complete(1, 7)];
    s := s.(tasks := map[1 := Storing(7)]);
    assert Final(Init, run) == s;
    StoreFirst(s);
    Extend(Init, run, StoreResult(1)); run := run + [StoreResult(1)];
    Extend(Init, run, Notify(1)); run := run + [Notify(1)];
  }

  lemma KillDropsCompleters() returns (run: seq<Action>)
    ensures ValidFrom(Init, run)
    ensures Final(Init, run) == Init.(alive := false, admitted := {1}, tasks := map[1 := Deactivating(7)],
                                      cache := Cache([1], map[1 := 7]), kill := CompletersCleared)
  {
    run := ResultStoredBeforeActivation();
    var s := Final(Init, run);
    Extend(Init, run, KillDrain); run := run + [KillDrain];
    assert Final(Init, run) == s.(kill := Drained);
    Extend(Init, run, KillCompleters); run := run + [KillCompleters];
  }

  lemma KillClearsEarly() returns (run: seq<Action>)
    ensures ValidFrom(Init, run)
    ensures Final(Init, run) == Init.(alive := false, admitted := {1}, tasks := map[1 := Deactivating(7)],
                                      gone := map[1 := ClearedEarly])
  {
    run := KillDropsCompleters();
    var s := Final(Init, run);
    Extend(Init, run, KillKeys); run := run + [KillKeys];
    assert Final(Init, run) == s.(kill := KeysCleared, cache := Cache([], map[1 := 7]));
    Extend(Init, run, KillResults); run := run + [KillResults];
  }

  lemma KillLeaksActivePrompt() returns (run: seq<Action>)
    ensures ValidFrom(Init, run)
    ensures Final(Init, run) == Init.(alive := false, admitted := {1}, tasks := map[1 := Finished(7)],
                                      active := {1}, returned := {1}, gone := map[1 := ClearedEarly])
  {
    run := KillClearsEarly();
    var s := Final(Init, run).(tasks := map[1 := Finished(7)]);
    Extend(Init, run, Deactivate(1)); run := run + [Deactivate(1)];
    assert Final(Init, run) == s;
    Extend(Init, run, Activate(1)); run := run + [Activate(1)];
  }

  /** A waiter at point `pc` of its wait for `p`, with its channel as given. */
  function WaitingAt(s: State, w: Id, p: Id, pc: WaitPc, c: Chan): State {
    s.(waitId := s.waitId[w := p], waitPc := s.waitPc[w := pc], chans := s.chans[w := c])
  }

  lemma MissedPop(s: State, w: Id)
    requires CanAdvance(s, w) && Popping(s.waitPc[w])
    requires s.waitId[w] !in s.cache.results && s.waitId[w] !in s.cache.keys
    ensures Do(s, Advance(w)) == SetWait(s, w, PoppedPc(s.waitPc[w], None))
  {
    var p := s.waitId[w];
    RemoveFirstAbsent(s.cache.keys, p);
    assert s.cache.results - {p} == s.cache.results;
    assert TakeResult(s, p, Taken(w)) == s;
  }

  /** A prompt in the active map whose result is not in the cache and that nobody waits for. */
  predicate Lingering(s: State, p: Id) {
    && p in s.returned && p in s.active && s.kill.Idle?
    && p !in s.completers && p !in s.cache.results && p !in s.cache.keys
  }

  lemma Then(run: seq<Action>, s: State, a: Action, t: State) returns (longer: seq<Action>)
    requires ValidFrom(Init, run) && s == Final(Init, run) && Enabled(s, a) && Do(s, a) == t
    ensures ValidFrom(Init, longer) && t == Final(Init, longer)
  {
    Extend(Init, run, a);
    longer := run + [a];
  }

  /** The steps by which a late waiter comes to park, one state after the other. */
  lemma LateStart(s: State, w: Id, p: Id)
    requires Lingering(s, p) && w !in s.waitId
    ensures Enabled(s, StartWait(w, p)) && Do(s, StartWait(w, p)) == WaitingAt(s, w, p, PopFirst, Closed)
  {
  }

  lemma LatePop(s: State, w: Id, p: Id, pc: WaitPc, c: Chan)
    requires Popping(pc) && p !in s.cache.results && p !in s.cache.keys
    ensures var t := WaitingAt(s, w, p, pc, c);
            && Enabled(t, Advance(w))
            && Do(t, Advance(w)) == WaitingAt(s, w, p, PoppedPc(pc, None), c)
  {
    var t := WaitingAt(s, w, p, pc, c);
    MissedPop(t, w);
    assert t.waitPc[w := PoppedPc(pc, None)] == s.waitPc[w := PoppedPc(pc, None)];
  }

  lemma LateLook(s: State, w: Id, p: Id, c: Chan)
    requires p in s.active && s.kill.Idle?
    ensures var t := WaitingAt(s, w, p, CheckActive, c);
            Enabled(t, Advance(w)) && Do(t, Advance(w)) == WaitingAt(s, w, p, Register, c)
  {
    assert s.waitPc[w := CheckActive][w := Register] == s.waitPc[w := Register];
  }

  lemma LateRecheck(s: State, w: Id, p: Id, c: Chan)
    requires p in s.active && s.kill.Idle?
    ensures var t := WaitingAt(s, w, p, Recheck, c);
            Enabled(t, Advance(w)) && Do(t, Advance(w)) == WaitingAt(s, w, p, Parked, c)
  {
    assert s.waitPc[w := Recheck][w := Parked] == s.waitPc[w := Parked];
  }

  lemma LateRegister(s: State, w: Id, p: Id)
    requires p !in s.completers
    ensures var t := WaitingAt(s, w, p, Register, Closed);
            && Enabled(t, Advance(w))
            && Do(t, Advance(w)) == WaitingAt(s.(completers := s.completers[p := w]), w, p, PopAgain, Open)
  {
    assert s.waitPc[w := Register][w := PopAgain] == s.waitPc[w := PopAgain];
    assert s.chans[w := Closed][w := Open] == s.chans[w := Open];
  }

  lemma LateWaiterParks(run: seq<Action>, w: Id, p: Id) returns (longer: seq<Action>)
    requires ValidFrom(Init, run) && Lingering(Final(Init, run), p) && w !in Final(Init, run).waitId
    ensures ValidFrom(Init, longer)
    ensures var s := Final(Init, run);
            Final(Init, longer) == WaitingAt(s.(completers := s.completers[p := w]), w, p, Parked, Open)
  {
    var s := Final(Init, run);
    var r := s.(completers := s.completers[p := w]);
    LateStart(s, w, p);
    longer := Then(run, s, StartWait(w, p), WaitingAt(s, w, p, PopFirst, Closed));
    LatePop(s, w, p, PopFirst, Closed);
    longer := Then(longer, WaitingAt(s, w, p, PopFirst, Closed), Advance(w), WaitingAt(s, w, p, CheckActive, Closed));
    LateLook(s, w, p, Closed);
    longer := Then(longer, WaitingAt(s, w, p, CheckActive, Closed), Advance(w), WaitingAt(s, w, p, Register, Closed));
    LateRegister(s, w, p);
    longer := Then(longer, WaitingAt(s, w, p, Register, Closed), Advance(w), WaitingAt(r, w, p, PopAgain, Open));
    LatePop(r, w, p, PopAgain, Open);
    longer := Then(longer, WaitingAt(r, w, p, PopAgain, Open), Advance(w), WaitingAt(r, w, p, Recheck, Open));
    LateRecheck(r, w, p, Open);
    longer := Then(longer, WaitingAt(r, w, p, Recheck, Open), Advance(w), WaitingAt(r, w, p, Parked, Open));
  }

  /** Cleared early: a kill that runs between the liveness check of `send_prompt` and its entry
      in the active map clears the result, its completion removes itself from the map before
      the insertion, and the only waiter of the only prompt parks with nothing to wake it. */
  lemma KillRaceStrandsSoleWaiter() returns (run: seq<Action>, w: Id)
    ensures ValidFrom(Init, run) && ParkedUnwoken(Final(Init, run), w)
    ensures Final(Init, run).waitId.Keys == {w}
    ensures Final(Init, run).tasks.Keys == {Final(Init, run).waitId[w]}
    ensures !WakeAhead(Final(Init, run), Final(Init, run).waitId[w])
  {
    w := 2;
    run := KillLeaksActivePrompt();
    run := LateWaiterParks(run, w, 1);
  }

  lemma FirstResultStored() returns (run: seq<Action>)
    ensures ValidFrom(Init, run)
    ensures Final(Init, run) == Init.(admitted := {1}, tasks := map[1 := Notifying(7)], active := {1},
                                      returned := {1}, cache := Cache([1], map[1 := 7]))
  {
    run := [];
    Extend(Init, run, Admit(1)); run := run + [Admit(1)];
    Extend(Init, run, Spawn(1)); run := run + [Spawn(1)];
    Extend(Init, run, Activate(1)); run := run + [Activate(1)];
    var s := Init.(admitted := {1}, tasks := map[1 := Running], active := {1}, returned := {1});
    assert Final(Init, run) == s;
    Extend(Init, run, Complete(1, 7)); run := run + [Complete(1, 7)];
    s := s.(tasks := map[1 := Storing(7)]);
    assert Final(Init, run) == s;
    StoreFirst(s);
    Extend(Init, run, StoreResult(1)); run := run + [StoreResult(1)];
  }

  lemma FirstWaiterTakes() returns (run: seq<Action>)
    ensures ValidFrom(Init, run)
    ensures Final(Init, run) == WaitingAt(Init, 2, 1, Done(Got(7)), Closed)
                                .(admitted := {1}, tasks := map[1 := Deactivating(7)], active := {1},
                                  returned := {1}, gone := map[1 := Taken(2)])
  {
    run := FirstResultStored();
    var s := Final(Init, run).(tasks := map[1 := Deactivating(7)]);
    Extend(Init, run, Notify(1)); run := run + [Notify(1)];
    assert Final(Init, run) == s;
    Extend(Init, run, StartWait(2, 1)); run := run + [StartWait(2, 1)];
    assert Final(Init, run) == WaitingAt(s, 2, 1, PopFirst, Closed);
    assert PopRefresh(Cache([1], map[1 := 7]), 1) == Empty;
    Extend(Init, run, Advance(2)); run := run + [Advance(2)];
  }

  /** Taken: a first waiter takes the result between the notify and the prompt's removal from the
      active map, and a second one parks with nothing to wake it. */
  lemma TakenResultStrandsSecondWaiter() returns (run: seq<Action>, w: Id)
    ensures ValidFrom(Init, run) && ParkedUnwoken(Final(Init, run), w)
    ensures var s := Final(Init, run); s.gone == map[1 := Taken(2)] && s.waitId == map[2 := 1, w := 1] && w != 2
    ensures !WakeAhead(Final(Init, run), Final(Init, run).waitId[w])
  {
    w := 3;
    run := FirstWaiterTakes();
    run := LateWaiterParks(run, w, 1);
    Extend(Init, run, Deactivate(1)); run := run + [Deactivate(1)];
  }

  // Evicted: 64 other results are stored between the prompt's own store and its notify.

  function UpTo(n: nat): seq<Id> {
    seq(n, i requires 0 <= i < n => i + 1)
  }

  /** Prompts 1 to `n` have stored their results; only the first is in the active map. */
  ghost predicate Stocked(s: State, n: nat) {
    && s.kill.Idle? && s.alive && s.active == {1} && s.returned == {1} && s.aborted == {} && s.stopped == {}
    && s.completers == map[] && s.waitId == map[] && s.waitPc == map[] && s.chans == map[] && s.cancels == map[]
    && s.gone == map[] && s.cache.keys == UpTo(n)
    && (forall q <- s.admitted :: q <= n) && (forall q <- s.tasks :: q <= n)
    && 1 in s.tasks && s.tasks[1] == Notifying(7) && 1 in s.cache.results
  }

  /** The state with a further prompt about to store its result. */
  function AboutToStore(s: State, q: Id): State {
    s.(admitted := s.admitted + {q}, tasks := s.tasks[q := Storing(7)])
  }

  lemma CompleteAnother(run: seq<Action>, q: Id) returns (longer: seq<Action>)
    requires ValidFrom(Init, run)
    requires var s := Final(Init, run); s.alive && q !in s.admitted && q !in s.tasks && q !in s.stopped
    ensures ValidFrom(Init, longer) && Final(Init, longer) == AboutToStore(Final(Init, run), q)
  {
    var s := Final(Init, run);
    longer := run;
    Extend(Init, longer, Admit(q)); longer := longer + [Admit(q)];
    Extend(Init, longer, Spawn(q)); longer := longer + [Spawn(q)];
    var t := s.(admitted := s.admitted + {q}, tasks := s.tasks[q := Running]);
    assert Final(Init, longer) == t;
    Extend(Init, longer, Complete(q, 7)); longer := longer + [Complete(q, 7)];
    assert t.tasks[q := Storing(7)] == s.tasks[q := Storing(7)];
  }

  lemma NextKeys(n: nat)
    ensures RemoveFirst<Id>(UpTo(n), n + 1) + [n + 1] == UpTo(n + 1)
  {
    RemoveFirstAbsent<Id>(UpTo(n), n + 1);
  }

  lemma StoreFits(s: State, n: nat)
    requires Stocked(s, n) && 1 <= n < OPENAI_CAP
    ensures var t := AboutToStore(s, n + 1); Enabled(t, StoreResult(n + 1)) && Stocked(DoStore(t, n + 1), n + 1)
  {
    NextKeys(n);
    var t := AboutToStore(s, n + 1);
    var entered := Cache(UpTo(n + 1), s.cache.results[n + 1 := 7]);
    assert RemoveFirst<Id>(t.cache.keys, n + 1) + [n + 1] == entered.keys;
    assert EvictByKeys(entered, OPENAI_CAP) == entered;
    assert StoreRefresh(t.cache, OPENAI_CAP, n + 1, 7) == entered;
    assert DoStore(t, n + 1).gone == s.gone;
  }

  lemma {:induction false} Stock(n: nat) returns (run: seq<Action>)
    requires 1 <= n <= OPENAI_CAP
    ensures ValidFrom(Init, run) && Stocked(Final(Init, run), n)
    decreases n
  {
    if n == 1 {
      run := FirstResultStored();
      assert UpTo(1) == [1];
    } else {
      run := Stock(n - 1);
      StoreFits(Final(Init, run), n - 1);
      run := CompleteAnother(run, n);
      Extend(Init, run, StoreResult(n)); run := run + [StoreResult(n)];
    }
  }

  /** One result more than the cache holds evicts the first. */
  lemma StoreEvicts(s: State)
    requires Stocked(s, OPENAI_CAP)
    ensures var t := AboutToStore(s, OPENAI_CAP + 1);
            && Enabled(t, StoreResult(OPENAI_CAP + 1))
            && DoStore(t, OPENAI_CAP + 1).gone == map[1 := Evicted]
            && 1 !in DoStore(t, OPENAI_CAP + 1).cache.keys && 1 !in DoStore(t, OPENAI_CAP + 1).cache.results
  {
    NextKeys(OPENAI_CAP);
    var t := AboutToStore(s, OPENAI_CAP + 1);
    var keys := UpTo(OPENAI_CAP + 1);
    var results := s.cache.results[OPENAI_CAP + 1 := 7];
    assert |keys| == OPENAI_CAP + 1 && keys[0] == 1;
    var c := Cache(keys[1..], results - {1});
    assert EvictByKeys(c, OPENAI_CAP) == c;
    assert RemoveFirst<Id>(t.cache.keys, OPENAI_CAP + 1) + [OPENAI_CAP + 1] == keys;
    assert EvictByKeys(Cache(keys, results), OPENAI_CAP) == c;
    assert StoreRefresh(t.cache, OPENAI_CAP, OPENAI_CAP + 1, 7) == c;
  }

  lemma FirstIsEvicted() returns (run: seq<Action>)
    ensures ValidFrom(Init, run) && Lingering(Final(Init, run), 1)
    ensures var s := Final(Init, run);
            && s.gone == map[1 := Evicted] && s.waitId == map[] && s.cancels == map[]
            && 1 in s.tasks && s.tasks[1] == Deactivating(7) && 1 !in s.stopped
  {
    run := Stock(OPENAI_CAP);
    StoreEvicts(Final(Init, run));
    run := CompleteAnother(run, OPENAI_CAP + 1);
    Extend(Init, run, StoreResult(OPENAI_CAP + 1)); run := run + [StoreResult(OPENAI_CAP + 1)];
    Extend(Init, run, Notify(1)); run := run + [Notify(1)];
  }

  lemma EvictionStrandsSoleWaiter() returns (run: seq<Action>, w: Id)
    ensures ValidFrom(Init, run) && ParkedUnwoken(Final(Init, run), w)
    ensures var s := Final(Init, run); s.gone == map[1 := Evicted] && s.waitId == map[w := 1]
    ensures !WakeAhead(Final(Init, run), Final(Init, run).waitId[w])
  {
    w := 0;
    run := FirstIsEvicted();
    run := LateWaiterParks(run, w, 1);
    Extend(Init, run, Deactivate(1)); run := run + [Deactivate(1)];
  }
}
