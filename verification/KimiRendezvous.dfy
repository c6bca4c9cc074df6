/** The Kimi adapter: a prompt is answered either inside the short acceptance window of
    `send_prompt` or later through the reader, results are cached and announced with
    `notify_waiters`, and a fatal provider error ends every wait. One step is one lock scope;
    a oneshot wait that times out checks and drops its receiver in one step. */
module KimiRendezvous {
  import opened Common
  import opened PromptCache

  /** An answer of the peer: `ok` when it parses as a prompt result; `body` is what the cache
      keeps for it, the result or the error text. */
  datatype Response = Response(ok: bool, body: Payload)

  /** The acceptance oneshot of one `send_prompt`. */
  datatype AcceptChan = Waiting | Delivered(resp: Response) | ReceiverGone | SenderGone

  /** How a send ends: answered within the window, accepted without an answer yet, or failed. */
  datatype How = Answered(resp: Response) | NotYet | Failed

  datatype SendPc =
    | CheckFatal | PopOld | InsertActive | RegisterPending | Write | AwaitAccept
    | Unregister(timedOut: bool)
    | CacheIt(resp: Response) | NotifyIt(resp: Response)
    | EmitCheck(how: How) | EmitIt(how: How)
    | SendDone(how: How)

  datatype ReaderPc =
    | ReaderIdle
    | GotTx(p: Id, resp: Response) | LateCache(p: Id, resp: Response)
    | LateNotify(p: Id) | LateEmitCheck(p: Id) | LateEmit(p: Id)

  datatype FatalPc =
    | FatalIdle | StoreDead | ClearPending | ClearActive
    | FatalNotify(ids: set<Id>) | FatalEmit(ids: set<Id>) | FatalDone

  datatype Outcome = Got(body: Payload) | FatalError | NotRunning | AlreadyWaiting | TimedOut

  datatype WaitPc =
    | PopFirst | Insert | CheckFatal1 | Enable | CheckFatal2 | PopEnabled | Parked
    | Remove(out: Outcome) | Done(out: Outcome)

  /** Where the reader put a response. */
  datatype Place = ToAccept | ToCache

  /** The request side: sends, the reader and the pending map between them. `answered`,
      `routed` and `rerouted` are history: the peer's answers, where the reader put each, and
      the ids it would have routed twice. */
  datatype Net = Net(
    pending: set<Id>,
    chans: map<Id, AcceptChan>,
    sends: map<Id, SendPc>,
    written: set<Id>,
    reader: ReaderPc,
    answered: map<Id, Response>,
    routed: map<Id, Place>,
    rerouted: set<Id>)

  /** The wait side. `asleep`: waiters whose `Notified` future is enabled and not yet notified. */
  datatype Waits = Waits(waiters: set<Id>, ids: map<Id, Id>, pcs: map<Id, WaitPc>, asleep: set<Id>)

  /** Who took a prompt off the active set, and so owes the event of its turn's completion. */
  datatype Owner = BySend | ByReader | ByFatal

  /** The active prompts and, as history, the completion events: the prompts each stands for. */
  datatype Turns = Turns(
    active: set<Id>, sent: set<Id>, owner: map<Id, Owner>, emitted: set<Id>, completions: seq<set<Id>>)

  datatype State = State(
    fatal: bool, alive: bool, fatalPc: FatalPc, cache: Cache, net: Net, waits: Waits, turns: Turns)

  const Init: State :=
    State(false, true, FatalIdle, Empty,
          Net({}, map[], map[], {}, ReaderIdle, map[], map[], {}),
          Waits({}, map[], map[], {}),
          Turns({}, {}, map[], {}, []))

  datatype SendStep =
    | Start | PassFatal | PopStale | Activate | Register | Written | WriteFailed | TimeOutAccept
    | TakeAnswer | Unreg | CacheAnswer | NotifyAll | CheckActive | EmitTurn

  datatype ReadStep = Receive(p: Id, resp: Response) | HandOff | ReadCache | ReadNotify | ReadCheck | ReadEmit

  datatype FatalStep = Mark | Die | DropPending | DropActive | FatalWake | FatalTurn

  datatype WaitStep =
    | Begin(p: Id) | Pop | Enter | Look | Arm | LookAgain | PopArmed | Wake | Leave | Expire

  datatype Action =
    | Send(p: Id, send: SendStep) | Read(read: ReadStep) | Fatal(step: FatalStep)
    | Wait(w: Id, wait: WaitStep) | PeerGone

  // ---- The request side --------------------------------------------------------------------

  function SetSend(n: Net, p: Id, pc: SendPc): Net {
    n.(sends := n.sends[p := pc])
  }

  function SetReader(n: Net, pc: ReaderPc): Net {
    n.(reader := pc)
  }

  function DoRegister(n: Net, p: Id): Net {
    n.(pending := n.pending + {p}, chans := n.chans[p := Waiting], sends := n.sends[p := Write])
  }

  function DoWritten(n: Net, p: Id): Net {
    n.(written := n.written + {p}, sends := n.sends[p := AwaitAccept])
  }

  function DoGiveUp(n: Net, p: Id): Net {
    n.(chans := n.chans[p := ReceiverGone], sends := n.sends[p := Unregister(true)])
  }

  function DoUnregister(n: Net, p: Id, timedOut: bool): Net {
    n.(pending := n.pending - {p},
       sends := n.sends[p := if timedOut then SendDone(NotYet) else EmitCheck(Failed)])
  }

  function AcceptedPc(c: AcceptChan): SendPc {
    if c.Delivered? then (if c.resp.ok then CacheIt(c.resp) else EmitCheck(Answered(c.resp)))
    else EmitCheck(Failed)
  }

  function DoReceive(n: Net, p: Id, resp: Response): Net {
    n.(answered := n.answered[p := resp], pending := n.pending - {p},
       reader := if p in n.pending then GotTx(p, resp) else LateCache(p, resp))
  }

  function RouteTo(n: Net, p: Id, place: Place): Net {
    n.(routed := n.routed[p := place], rerouted := if p in n.routed then n.rerouted + {p} else n.rerouted)
  }

  /** The reader sends through the acceptance oneshot; a dropped receiver gives the response back. */
  function DoHandOff(n: Net): Net
    requires n.reader.GotTx? && n.reader.p in n.chans
  {
    var p := n.reader.p;
    var resp := n.reader.resp;
    if n.chans[p].Waiting? then
      RouteTo(n, p, ToAccept).(chans := n.chans[p := Delivered(resp)], reader := ReaderIdle)
    else SetReader(n, LateCache(p, resp))
  }

  function DoDropPending(n: Net): Net {
    n.(pending := {},
       chans := map p | p in n.chans ::
         if p in n.pending && n.chans[p].Waiting? then SenderGone else n.chans[p])
  }

  // ---- The active set ----------------------------------------------------------------------

  function TakeActive(t: Turns, p: Id, who: Owner): Turns {
    if p in t.active then t.(active := t.active - {p}, owner := t.owner[p := who]) else t
  }

  function Emit(t: Turns, ids: set<Id>): Turns {
    t.(completions := t.completions + [ids], emitted := t.emitted + ids)
  }

  // ---- Steps -------------------------------------------------------------------------------

  predicate SendEnabled(s: State, p: Id, a: SendStep) {
    var sends := s.net.sends;
    match a
    case Start => p !in sends
    case PassFatal => p in sends && sends[p].CheckFatal?
    case PopStale => p in sends && sends[p].PopOld?
    case Activate => p in sends && sends[p].InsertActive?
    case Register => p in sends && sends[p].RegisterPending?
    case Written => p in sends && sends[p].Write?
    case WriteFailed => p in sends && sends[p].Write?
    case TimeOutAccept => p in sends && sends[p].AwaitAccept? && p in s.net.chans && s.net.chans[p].Waiting?
    case TakeAnswer =>
      p in sends && sends[p].AwaitAccept? && p in s.net.chans &&
      (s.net.chans[p].Delivered? || s.net.chans[p].SenderGone?)
    case Unreg => p in sends && sends[p].Unregister?
    case CacheAnswer => p in sends && sends[p].CacheIt?
    case NotifyAll => p in sends && sends[p].NotifyIt?
    case CheckActive => p in sends && sends[p].EmitCheck?
    case EmitTurn => p in sends && sends[p].EmitIt?
  }

  function DoSend(s: State, p: Id, a: SendStep): State
    requires SendEnabled(s, p, a)
  {
    var n := s.net;
    match a
    case Start => s.(net := SetSend(n, p, CheckFatal))
    case PassFatal => s.(net := SetSend(n, p, if s.fatal then SendDone(Failed) else PopOld))
    case PopStale => s.(net := SetSend(n, p, InsertActive), cache := PopKeepPlace(s.cache, p))
    case Activate =>
      s.(net := SetSend(n, p, RegisterPending),
         turns := s.turns.(active := s.turns.active + {p}, sent := s.turns.sent + {p}))
    case Register => s.(net := DoRegister(n, p))
    case Written => s.(net := DoWritten(n, p))
    case WriteFailed => s.(net := SetSend(n, p, Unregister(false)))
    case TimeOutAccept => s.(net := DoGiveUp(n, p))
    case TakeAnswer => s.(net := SetSend(n, p, AcceptedPc(n.chans[p])))
    case Unreg => s.(net := DoUnregister(n, p, n.sends[p].timedOut))
    case CacheAnswer =>
      s.(net := SetSend(n, p, NotifyIt(n.sends[p].resp)),
         cache := StoreKeepPlace(s.cache, KIMI_CAP, p, n.sends[p].resp.body))
    case NotifyAll =>
      s.(net := SetSend(n, p, EmitCheck(Answered(n.sends[p].resp))), waits := s.waits.(asleep := {}))
    case CheckActive =>
      s.(net := SetSend(n, p, if p in s.turns.active then EmitIt(n.sends[p].how) else SendDone(n.sends[p].how)),
         turns := TakeActive(s.turns, p, BySend))
    case EmitTurn => s.(net := SetSend(n, p, SendDone(n.sends[p].how)), turns := Emit(s.turns, {p}))
  }

  predicate ReadEnabled(s: State, a: ReadStep) {
    var r := s.net.reader;
    match a
    case Receive(p, _) => r.ReaderIdle? && p in s.net.written && p !in s.net.answered
    case HandOff => r.GotTx? && r.p in s.net.chans
    case ReadCache => r.LateCache?
    case ReadNotify => r.LateNotify?
    case ReadCheck => r.LateEmitCheck?
    case ReadEmit => r.LateEmit?
  }

  function DoRead(s: State, a: ReadStep): State
    requires ReadEnabled(s, a)
  {
    var n := s.net;
    match a
    case Receive(p, resp) => s.(net := DoReceive(n, p, resp))
    case HandOff => s.(net := DoHandOff(n))
    case ReadCache =>
      s.(net := SetReader(RouteTo(n, n.reader.p, ToCache), LateNotify(n.reader.p)),
         cache := StoreKeepPlace(s.cache, KIMI_CAP, n.reader.p, n.reader.resp.body))
    case ReadNotify => s.(net := SetReader(n, LateEmitCheck(n.reader.p)), waits := s.waits.(asleep := {}))
    case ReadCheck =>
      s.(net := SetReader(n, if n.reader.p in s.turns.active then LateEmit(n.reader.p) else ReaderIdle),
         turns := TakeActive(s.turns, n.reader.p, ByReader))
    case ReadEmit => s.(net := SetReader(n, ReaderIdle), turns := Emit(s.turns, {n.reader.p}))
  }

  predicate FatalEnabled(s: State, a: FatalStep) {
    match a
    case Mark => s.fatalPc.FatalIdle? && !s.fatal
    case Die => s.fatalPc.StoreDead?
    case DropPending => s.fatalPc.ClearPending?
    case DropActive => s.fatalPc.ClearActive?
    case FatalWake => s.fatalPc.FatalNotify?
    case FatalTurn => s.fatalPc.FatalEmit?
  }

  function DoFatal(s: State, a: FatalStep): State
    requires FatalEnabled(s, a)
  {
    match a
    case Mark => s.(fatal := true, fatalPc := StoreDead)
    case Die => s.(alive := false, fatalPc := ClearPending)
    case DropPending => s.(net := DoDropPending(s.net), fatalPc := ClearActive)
    case DropActive =>
      s.(fatalPc := FatalNotify(s.turns.active),
         turns := s.turns.(active := {}, owner := s.turns.owner + map p | p in s.turns.active :: ByFatal))
    case FatalWake => s.(fatalPc := FatalEmit(s.fatalPc.ids), waits := s.waits.(asleep := {}))
    case FatalTurn =>
      s.(fatalPc := FatalDone,
         turns := if s.fatalPc.ids == {} then s.turns else Emit(s.turns, s.fatalPc.ids))
  }

  predicate InLoop(pc: WaitPc) {
    pc.CheckFatal1? || pc.Enable? || pc.CheckFatal2? || pc.PopEnabled? || pc.Parked?
  }

  predicate WaitEnabled(s: State, w: Id, a: WaitStep) {
    var pcs := s.waits.pcs;
    if a.Begin? then
      w !in s.waits.ids && w !in pcs && a.p in s.net.sends && s.net.sends[a.p].SendDone?
    else
      && w in s.waits.ids && w in pcs
      && match a
         case Begin(_) => false
         case Pop => pcs[w].PopFirst?
         case Enter => pcs[w].Insert?
         case Look => pcs[w].CheckFatal1?
         case Arm => pcs[w].Enable?
         case LookAgain => pcs[w].CheckFatal2?
         case PopArmed => pcs[w].PopEnabled?
         case Wake => pcs[w].Parked? && w !in s.waits.asleep
         case Leave => pcs[w].Remove?
         case Expire => InLoop(pcs[w])
  }

  function SetWait(x: Waits, w: Id, pc: WaitPc): Waits {
    x.(pcs := x.pcs[w := pc])
  }

  function EnteredPc(alive: bool, already: bool): WaitPc {
    if !alive then Done(NotRunning) else if already then Done(AlreadyWaiting) else CheckFatal1
  }

  function PoppedPc(found: Option<Payload>, armed: bool): WaitPc {
    match found
    case Some(b) => if armed then Remove(Got(b)) else Done(Got(b))
    case None => if armed then Parked else Insert
  }

  function DoWait(s: State, w: Id, a: WaitStep): State
    requires WaitEnabled(s, w, a)
  {
    var x := s.waits;
    if a.Begin? then s.(waits := x.(ids := x.ids[w := a.p], pcs := x.pcs[w := PopFirst]))
    else if a.Pop? || a.PopArmed? then
      s.(waits := SetWait(x, w, PoppedPc(Lookup(s.cache, x.ids[w]), a.PopArmed?)),
         cache := PopKeepPlace(s.cache, x.ids[w]))
    else if a.Enter? then
      s.(waits := SetWait(x.(waiters := if s.alive then x.waiters + {x.ids[w]} else x.waiters), w,
                          EnteredPc(s.alive, x.ids[w] in x.waiters)))
    else if a.Look? then s.(waits := SetWait(x, w, if s.fatal then Remove(FatalError) else Enable))
    else if a.Arm? then s.(waits := SetWait(x.(asleep := x.asleep + {w}), w, CheckFatal2))
    else if a.LookAgain? then s.(waits := SetWait(x, w, if s.fatal then Remove(FatalError) else PopEnabled))
    else if a.Wake? then s.(waits := SetWait(x, w, CheckFatal1))
    else if a.Leave? then s.(waits := SetWait(x.(waiters := x.waiters - {x.ids[w]}), w, Done(x.pcs[w].out)))
    else s.(waits := SetWait(x, w, Remove(TimedOut)))
  }

  predicate Enabled(s: State, a: Action) {
    match a
    case Send(p, step) => SendEnabled(s, p, step)
    case Read(step) => ReadEnabled(s, step)
    case Fatal(step) => FatalEnabled(s, step)
    case Wait(w, step) => WaitEnabled(s, w, step)
    case PeerGone => true
  }

  function Do(s: State, a: Action): State
    requires Enabled(s, a)
  {
    match a
    case Send(p, step) => DoSend(s, p, step)
    case Read(step) => DoRead(s, step)
    case Fatal(step) => DoFatal(s, step)
    case Wait(w, step) => DoWait(s, w, step)
    case PeerGone => s.(alive := false)
  }

  predicate ValidFrom(s: State, run: seq<Action>)
    decreases run
  {
    run == [] || (Enabled(s, run[0]) && ValidFrom(Do(s, run[0]), run[1..]))
  }

  function Final(s: State, run: seq<Action>): State
    requires ValidFrom(s, run)
    decreases run
  {
    if run == [] then s else Final(Do(s, run[0]), run[1..])
  }

  // ---- Wake-ups ----------------------------------------------------------------------------

  /** Some producer has stored a result of `p` and not yet called `notify_waiters`. */
  predicate ProducerAhead(sends: map<Id, SendPc>, reader: ReaderPc, p: Id) {
    || (p in sends && sends[p].NotifyIt?)
    || (reader.LateNotify? && reader.p == p)
  }

  /** The fatal path has set the error and not yet called `notify_waiters`. */
  predicate FatalNotifyAhead(f: FatalPc) {
    f.StoreDead? || f.ClearPending? || f.ClearActive? || f.FatalNotify?
  }

  /** An armed waiter that no `notify_waiters` has reached yet, past its second fatal check: if
      the session is fatal, the fatal path is still to notify; once the waiter has found the
      cache empty, a result there since has a producer still to notify. */
  ghost predicate WakeOk(x: Waits, kept: set<Id>, silentFatal: bool, sends: map<Id, SendPc>, reader: ReaderPc) {
    forall w <- x.asleep :: w in x.ids && w in x.pcs &&
      (x.pcs[w].PopEnabled? || x.pcs[w].Parked? ==> !silentFatal) &&
      (x.pcs[w].Parked? && x.ids[w] in kept ==> ProducerAhead(sends, reader, x.ids[w]))
  }

  predicate SilentFatal(s: State) {
    s.fatal && !FatalNotifyAhead(s.fatalPc)
  }

  ghost predicate Waking(s: State) {
    && WakeOk(s.waits, s.cache.results.Keys, SilentFatal(s), s.net.sends, s.net.reader)
    && (s.fatalPc.FatalIdle? ==> !s.fatal)
  }

  lemma WakeSends(x: Waits, kept: set<Id>, f: bool, sends: map<Id, SendPc>, reader: ReaderPc, p: Id, pc: SendPc)
    requires WakeOk(x, kept, f, sends, reader) && (p in sends && sends[p].NotifyIt? ==> pc.NotifyIt?)
    ensures WakeOk(x, kept, f, sends[p := pc], reader)
  {
  }

  lemma WakeStored(x: Waits, kept: set<Id>, kept': set<Id>, f: bool, sends: map<Id, SendPc>, reader: ReaderPc, p: Id)
    requires WakeOk(x, kept, f, sends, reader) && kept' <= kept + {p} && ProducerAhead(sends, reader, p)
    ensures WakeOk(x, kept', f, sends, reader)
  {
  }

  lemma WakeFewer(x: Waits, kept: set<Id>, kept': set<Id>, f: bool, sends: map<Id, SendPc>, reader: ReaderPc)
    requires WakeOk(x, kept, f, sends, reader) && kept' <= kept
    ensures WakeOk(x, kept', f, sends, reader)
  {
  }

  lemma StoredKeys(c: Cache, cap: nat, p: Id, r: Payload)
    ensures StoreKeepPlace(c, cap, p, r).results.Keys <= c.results.Keys + {p}
    ensures forall q <- StoreKeepPlace(c, cap, p, r).results ::
              StoreKeepPlace(c, cap, p, r).results[q] == if q == p then r else c.results[q]
  {
    StoreOnlyAdds(KeepPlace, cap, c, p, r);
    assert Apply(KeepPlace, cap, c, Store(p, r)) == StoreKeepPlace(c, cap, p, r);
  }

  lemma SendWaking(s: State, p: Id, a: SendStep)
    requires Waking(s) && SendEnabled(s, p, a)
    ensures Waking(DoSend(s, p, a))
  {
    var n := s.net;
    var kept := s.cache.results.Keys;
    if a.PopStale? {
      WakeSends(s.waits, kept, SilentFatal(s), n.sends, n.reader, p, InsertActive);
      WakeFewer(s.waits, kept, kept - {p}, SilentFatal(s), n.sends[p := InsertActive], n.reader);
    } else if a.CacheAnswer? {
      var r := n.sends[p].resp;
      StoredKeys(s.cache, KIMI_CAP, p, r.body);
      WakeSends(s.waits, kept, SilentFatal(s), n.sends, n.reader, p, NotifyIt(r));
      WakeStored(s.waits, kept, StoreKeepPlace(s.cache, KIMI_CAP, p, r.body).results.Keys, SilentFatal(s),
                 n.sends[p := NotifyIt(r)], n.reader, p);
    } else if !a.NotifyAll? {
      WakeSends(s.waits, kept, SilentFatal(s), n.sends, n.reader, p, DoSend(s, p, a).net.sends[p]);
    }
  }

  lemma ReadWaking(s: State, a: ReadStep)
    requires Waking(s) && ReadEnabled(s, a)
    ensures Waking(DoRead(s, a))
  {
    if a.ReadCache? {
      var r := s.net.reader;
      StoredKeys(s.cache, KIMI_CAP, r.p, r.resp.body);
    }
  }

  lemma FatalWaking(s: State, a: FatalStep)
    requires Waking(s) && FatalEnabled(s, a)
    ensures Waking(DoFatal(s, a))
  {
  }

  lemma WaitWaking(s: State, w: Id, a: WaitStep)
    requires Waking(s) && WaitEnabled(s, w, a)
    ensures Waking(DoWait(s, w, a))
  {
  }

  // ---- Routing -----------------------------------------------------------------------------

  predicate InHands(reader: ReaderPc, p: Id) {
    (reader.GotTx? || reader.LateCache?) && reader.p == p
  }

  /** The response a send has taken from its acceptance channel, if any. */
  function Taken(pc: SendPc): Option<Response> {
    if pc.CacheIt? || pc.NotifyIt? then Some(pc.resp)
    else if (pc.EmitCheck? || pc.EmitIt? || pc.SendDone?) && pc.how.Answered? then Some(pc.how.resp)
    else None
  }

  /** A send that gave up waiting for acceptance. */
  predicate GaveUp(pc: SendPc) {
    pc == Unregister(true) || ((pc.EmitCheck? || pc.EmitIt? || pc.SendDone?) && pc.how.NotYet?)
  }

  predicate BeforeRegister(pc: SendPc) {
    pc.CheckFatal? || pc.PopOld? || pc.InsertActive? || pc.RegisterPending?
  }

  ghost predicate AnswersOk(n: Net) {
    && n.answered.Keys <= n.written && n.routed.Keys <= n.answered.Keys && n.rerouted == {}
    && (forall p <- n.answered :: p in n.routed || InHands(n.reader, p))
    && (n.reader.GotTx? || n.reader.LateCache? ==>
          && n.reader.p in n.answered && n.answered[n.reader.p] == n.reader.resp
          && n.reader.p !in n.routed)
  }

  ghost predicate ChansOk(n: Net) {
    && (forall p <- n.routed :: n.routed[p].ToAccept? ==> p in n.chans && n.chans[p].Delivered?)
    && (forall p <- n.chans :: n.chans[p].Delivered? ==>
          && p in n.routed && n.routed[p].ToAccept? && p in n.answered && n.chans[p].resp == n.answered[p])
  }

  predicate Undelivered(c: AcceptChan) {
    c.Waiting? || c.ReceiverGone?
  }

  ghost predicate PendingOk(n: Net) {
    && (forall p <- n.pending :: p in n.chans && p !in n.answered && Undelivered(n.chans[p]))
    && (n.reader.GotTx? ==> n.reader.p in n.chans && Undelivered(n.chans[n.reader.p]))
  }

  /** What a send at `pc` can show: its channel's state fits how far it has come. */
  ghost predicate StandsAt(chans: map<Id, AcceptChan>, written: set<Id>, p: Id, pc: SendPc) {
    && (p in written ==> !BeforeRegister(pc) && !pc.Write?)
    && (p in chans ==> !BeforeRegister(pc))
    && (p in written && p in chans && chans[p].Waiting? ==> pc.AwaitAccept?)
    && (p in chans && chans[p].Delivered? ==> pc.AwaitAccept? || Taken(pc) == Some(chans[p].resp))
    && (Taken(pc).Some? ==> p in chans && chans[p] == Delivered(Taken(pc).value))
    && (GaveUp(pc) ==> p in chans && chans[p].ReceiverGone?)
    && (pc.AwaitAccept? ==> p in written)
  }

  ghost predicate SendsOk(n: Net) {
    && n.written <= n.sends.Keys && n.chans.Keys <= n.sends.Keys
    && (forall p <- n.sends :: StandsAt(n.chans, n.written, p, n.sends[p]))
  }

  ghost predicate Routing(n: Net) {
    AnswersOk(n) && ChansOk(n) && PendingOk(n) && SendsOk(n)
  }

  lemma SetSendRouting(n: Net, p: Id, pc: SendPc)
    requires Routing(n) && StandsAt(n.chans, n.written, p, pc)
    ensures Routing(SetSend(n, p, pc))
  {
  }

  lemma SetReaderRouting(n: Net, pc: ReaderPc)
    requires Routing(n) && !n.reader.GotTx? && !n.reader.LateCache? && !pc.GotTx? && !pc.LateCache?
    ensures Routing(SetReader(n, pc))
  {
  }

  lemma RegisterRouting(n: Net, p: Id)
    requires Routing(n) && p in n.sends && n.sends[p].RegisterPending?
    ensures Routing(DoRegister(n, p))
  {
  }

  lemma WrittenRouting(n: Net, p: Id)
    requires Routing(n) && p in n.sends && n.sends[p].Write?
    ensures Routing(DoWritten(n, p))
  {
  }

  lemma GiveUpRouting(n: Net, p: Id)
    requires Routing(n) && p in n.sends && n.sends[p].AwaitAccept? && p in n.chans && n.chans[p].Waiting?
    ensures Routing(DoGiveUp(n, p))
  {
  }

  lemma UnregisterRouting(n: Net, p: Id)
    requires Routing(n) && p in n.sends && n.sends[p].Unregister?
    ensures Routing(DoUnregister(n, p, n.sends[p].timedOut))
  {
  }

  lemma ReceiveRouting(n: Net, p: Id, resp: Response)
    requires Routing(n) && n.reader.ReaderIdle? && p in n.written && p !in n.answered
    ensures Routing(DoReceive(n, p, resp))
  {
  }

  lemma HandOffRouting(n: Net)
    requires Routing(n) && n.reader.GotTx?
    ensures Routing(DoHandOff(n))
  {
  }

  lemma CacheRouting(n: Net)
    requires Routing(n) && n.reader.LateCache?
    ensures Routing(SetReader(RouteTo(n, n.reader.p, ToCache), LateNotify(n.reader.p)))
  {
  }

  lemma DropPendingRouting(n: Net)
    requires Routing(n)
    ensures Routing(DoDropPending(n))
  {
  }

  predicate Opening(a: SendStep) {
    a.Start? || a.PassFatal? || a.PopStale? || a.Activate? || a.WriteFailed?
  }

  lemma OpeningRouting(s: State, p: Id, a: SendStep)
    requires Routing(s.net) && SendEnabled(s, p, a) && Opening(a)
    ensures Routing(DoSend(s, p, a).net)
  {
    SetSendRouting(s.net, p, DoSend(s, p, a).net.sends[p]);
  }

  lemma ClosingRouting(s: State, p: Id, a: SendStep)
    requires Routing(s.net) && SendEnabled(s, p, a)
    requires a.TakeAnswer? || a.CacheAnswer? || a.NotifyAll? || a.CheckActive? || a.EmitTurn?
    ensures Routing(DoSend(s, p, a).net)
  {
    assert StandsAt(s.net.chans, s.net.written, p, s.net.sends[p]);
    SetSendRouting(s.net, p, DoSend(s, p, a).net.sends[p]);
  }

  lemma SendRouting(s: State, p: Id, a: SendStep)
    requires Routing(s.net) && SendEnabled(s, p, a)
    ensures Routing(DoSend(s, p, a).net)
  {
    if Opening(a) {
      OpeningRouting(s, p, a);
    } else {
      match a
      case Register => RegisterRouting(s.net, p);
      case Written => WrittenRouting(s.net, p);
      case TimeOutAccept => GiveUpRouting(s.net, p);
      case Unreg => UnregisterRouting(s.net, p);
      case _ => ClosingRouting(s, p, a);
    }
  }

  lemma ReadRouting(s: State, a: ReadStep)
    requires Routing(s.net) && ReadEnabled(s, a)
    ensures Routing(DoRead(s, a).net)
  {
    match a
    case Receive(p, resp) => ReceiveRouting(s.net, p, resp);
    case HandOff => HandOffRouting(s.net);
    case ReadCache => CacheRouting(s.net);
    case _ => SetReaderRouting(s.net, DoRead(s, a).net.reader);
  }

  lemma FatalRouting(s: State, a: FatalStep)
    requires Routing(s.net) && FatalEnabled(s, a)
    ensures Routing(DoFatal(s, a).net)
  {
    DropPendingRouting(s.net);
  }

  // ---- Values ------------------------------------------------------------------------------

  ghost predicate Holds(answered: map<Id, Response>, p: Id, b: Payload) {
    p in answered && answered[p].body == b
  }

  /** Every cached result and every answer a waiter holds is the peer's answer to its prompt. */
  ghost predicate ValuesOk(results: map<Id, Payload>, x: Waits, answered: map<Id, Response>) {
    && x.ids.Keys == x.pcs.Keys
    && (forall p <- results :: Holds(answered, p, results[p]))
    && (forall w <- x.pcs :: (x.pcs[w].Remove? || x.pcs[w].Done?) && x.pcs[w].out.Got? ==>
          Holds(answered, x.ids[w], x.pcs[w].out.body))
  }

  ghost predicate Valued(s: State) {
    ValuesOk(s.cache.results, s.waits, s.net.answered)
  }

  lemma TakenIsTheAnswer(n: Net, p: Id)
    requires Routing(n) && p in n.sends && Taken(n.sends[p]).Some?
    ensures Holds(n.answered, p, Taken(n.sends[p]).value.body)
  {
    assert StandsAt(n.chans, n.written, p, n.sends[p]);
  }

  lemma SendValued(s: State, p: Id, a: SendStep)
    requires Valued(s) && SendEnabled(s, p, a)
    requires a.CacheAnswer? ==> Holds(s.net.answered, p, s.net.sends[p].resp.body)
    ensures Valued(DoSend(s, p, a))
  {
    if a.CacheAnswer? {
      StoredKeys(s.cache, KIMI_CAP, p, s.net.sends[p].resp.body);
    }
  }

  lemma ReadValued(s: State, a: ReadStep)
    requires Valued(s) && ReadEnabled(s, a)
    requires a.ReadCache? ==> Holds(s.net.answered, s.net.reader.p, s.net.reader.resp.body)
    ensures Valued(DoRead(s, a))
  {
    if a.ReadCache? {
      StoredKeys(s.cache, KIMI_CAP, s.net.reader.p, s.net.reader.resp.body);
    }
  }

  lemma WaitValued(s: State, w: Id, a: WaitStep)
    requires Valued(s) && WaitEnabled(s, w, a)
    ensures Valued(DoWait(s, w, a))
  {
  }

  // ---- Turn completions --------------------------------------------------------------------

  predicate Owes(t: Turns, p: Id, who: Owner) {
    p in t.owner && t.owner[p] == who && p !in t.emitted
  }

  /** Completion events stand for disjoint, non-empty sets of prompts. */
  ghost predicate CompletionsOk(completions: seq<set<Id>>, emitted: set<Id>) {
    && (forall i :: 0 <= i < |completions| ==> completions[i] != {} && completions[i] <= emitted)
    && (forall i, j :: 0 <= i < j < |completions| ==> completions[i] !! completions[j])
  }

  ghost predicate TurnsOk(t: Turns) {
    && t.active <= t.sent && t.owner.Keys <= t.sent && t.active !! t.owner.Keys && t.emitted <= t.owner.Keys
    && CompletionsOk(t.completions, t.emitted)
  }

  ghost predicate SendTurn(t: Turns, p: Id, pc: SendPc) {
    && (p in t.sent ==> !pc.CheckFatal? && !pc.PopOld? && !pc.InsertActive?)
    && (pc.EmitIt? ==> Owes(t, p, BySend))
  }

  ghost predicate OwedOk(t: Turns, sends: map<Id, SendPc>, reader: ReaderPc, f: FatalPc) {
    && t.sent <= sends.Keys
    && (forall p <- sends :: SendTurn(t, p, sends[p]))
    && (reader.LateEmit? ==> Owes(t, reader.p, ByReader))
    && (f.FatalNotify? || f.FatalEmit? ==> forall p <- f.ids :: Owes(t, p, ByFatal))
  }

  ghost predicate Turning(s: State) {
    TurnsOk(s.turns) && OwedOk(s.turns, s.net.sends, s.net.reader, s.fatalPc)
  }

  lemma CompletionsGrow(completions: seq<set<Id>>, emitted: set<Id>, ids: set<Id>)
    requires CompletionsOk(completions, emitted) && ids !! emitted && ids != {}
    ensures CompletionsOk(completions + [ids], emitted + ids)
  {
  }

  lemma EmitTurns(t: Turns, ids: set<Id>, who: Owner)
    requires TurnsOk(t) && ids != {} && forall p <- ids :: Owes(t, p, who)
    ensures TurnsOk(Emit(t, ids))
    ensures forall q, o: Owner :: Owes(t, q, o) && (o != who || q !in ids) ==> Owes(Emit(t, ids), q, o)
  {
    CompletionsGrow(t.completions, t.emitted, ids);
  }

  lemma OwedMove(t: Turns, sends: map<Id, SendPc>, reader: ReaderPc, f: FatalPc, p: Id, pc: SendPc)
    requires OwedOk(t, sends, reader, f) && SendTurn(t, p, pc)
    ensures OwedOk(t, sends[p := pc], reader, f)
  {
  }

  lemma TakeTurns(t: Turns, p: Id, who: Owner)
    requires TurnsOk(t)
    ensures TurnsOk(TakeActive(t, p, who)) && TakeActive(t, p, who).sent == t.sent
    ensures p in t.active ==> Owes(TakeActive(t, p, who), p, who)
    ensures forall q, o: Owner :: Owes(t, q, o) ==> Owes(TakeActive(t, p, who), q, o)
  {
  }

  lemma SendTurning(s: State, p: Id, a: SendStep)
    requires Turning(s) && SendEnabled(s, p, a)
    ensures Turning(DoSend(s, p, a))
  {
    var n := s.net;
    var pc := DoSend(s, p, a).net.sends[p];
    match a
    case CheckActive => TakeTurns(s.turns, p, BySend);
    case EmitTurn => EmitTurns(s.turns, {p}, BySend);
    case Activate =>
    case _ => OwedMove(s.turns, n.sends, n.reader, s.fatalPc, p, pc);
  }

  lemma ReadTurning(s: State, a: ReadStep)
    requires Turning(s) && ReadEnabled(s, a)
    ensures Turning(DoRead(s, a))
  {
    match a
    case ReadCheck => TakeTurns(s.turns, s.net.reader.p, ByReader);
    case ReadEmit => EmitTurns(s.turns, {s.net.reader.p}, ByReader);
    case _ =>
  }

  lemma FatalTurning(s: State, a: FatalStep)
    requires Turning(s) && FatalEnabled(s, a)
    ensures Turning(DoFatal(s, a))
  {
    if a.FatalTurn? && s.fatalPc.ids != {} {
      EmitTurns(s.turns, s.fatalPc.ids, ByFatal);
    }
  }

  // ---- Over whole runs ---------------------------------------------------------------------

  ghost predicate Inv(s: State) {
    Waking(s) && Routing(s.net) && Valued(s) && Turning(s)
  }

  lemma StepInv(s: State, a: Action)
    requires Inv(s) && Enabled(s, a)
    ensures Inv(Do(s, a))
  {
    match a
    case Send(p, step) =>
      SendWaking(s, p, step);
      SendRouting(s, p, step);
      if step.CacheAnswer? {
        TakenIsTheAnswer(s.net, p);
      }
      SendValued(s, p, step);
      SendTurning(s, p, step);
    case Read(step) =>
      ReadWaking(s, step);
      ReadRouting(s, step);
      ReadValued(s, step);
      ReadTurning(s, step);
    case Fatal(step) =>
      FatalWaking(s, step);
      FatalRouting(s, step);
      FatalTurning(s, step);
    case Wait(w, step) =>
      WaitWaking(s, w, step);
      WaitValued(s, w, step);
    case PeerGone =>
  }

  lemma {:induction false} RunInv(s: State, run: seq<Action>)
    requires Inv(s) && ValidFrom(s, run)
    ensures Inv(Final(s, run))
    decreases run
  {
    if run != [] {
      StepInv(s, run[0]);
      RunInv(Do(s, run[0]), run[1..]);
    }
  }

  /** No lost wake-up: in every run, a parked waiter that no `notify_waiters` has reached has a
      producer still between its store and its notify if its result is cached, and the fatal
      path still before its notify if the session is fatal. */
  lemma NoLostWakeup(run: seq<Action>, w: Id)
    requires ValidFrom(Init, run)
    requires var x := Final(Init, run).waits; w in x.pcs && x.pcs[w].Parked? && w in x.asleep
    ensures var s := Final(Init, run);
            && w in s.waits.ids
            && (s.waits.ids[w] in s.cache.results ==> ProducerAhead(s.net.sends, s.net.reader, s.waits.ids[w]))
            && (s.fatal ==> FatalNotifyAhead(s.fatalPc))
  {
    RunInv(Init, run);
  }

  /** Every wait that returns an answer returns the peer's answer to its own prompt. */
  lemma AnswerIsThePeers(run: seq<Action>, w: Id, b: Payload)
    requires ValidFrom(Init, run)
    requires var x := Final(Init, run).waits; w in x.pcs && x.pcs[w] == Done(Got(b))
    ensures var s := Final(Init, run); w in s.waits.ids && Holds(s.net.answered, s.waits.ids[w], b)
  {
    RunInv(Init, run);
  }

  /** A response the reader is done with has been routed once, to exactly one place: to the
      accepting `send_prompt`, which has taken it or is about to, or to the result cache, and
      then the send never saw it. */
  lemma ResponseGoesToOnePlace(run: seq<Action>, p: Id)
    requires ValidFrom(Init, run)
    requires var n := Final(Init, run).net; p in n.answered && !InHands(n.reader, p)
    ensures var n := Final(Init, run).net;
            && p in n.routed && p !in n.rerouted && p in n.sends
            && (n.routed[p].ToAccept? ==>
                  && p in n.chans && n.chans[p] == Delivered(n.answered[p])
                  && (n.sends[p].AwaitAccept? || Taken(n.sends[p]) == Some(n.answered[p])))
            && (n.routed[p].ToCache? ==>
                  && Taken(n.sends[p]).None? && !(p in n.chans && n.chans[p].Delivered?))
  {
    RunInv(Init, run);
    var n := Final(Init, run).net;
    assert StandsAt(n.chans, n.written, p, n.sends[p]);
  }

  lemma {:induction false} DisjointCount(completions: seq<set<Id>>, all: set<Id>)
    requires CompletionsOk(completions, all)
    ensures |completions| <= |all|
  {
    if completions != [] {
      var k := |completions| - 1;
      var rest, last := completions[..k], completions[k];
      assert forall i :: 0 <= i < k ==> completions[i] !! last;
      assert CompletionsOk(rest, all - last);
      DisjointCount(rest, all - last);
      var x :| x in last;
      SubsetCardinality(all - last, all - {x});
    }
  }

  /** Turn completions never outnumber prompts sent: each stands for at least one sent prompt,
      no prompt is counted by two of them, and a prompt still active by none. */
  lemma CompletionsNeverOutnumberSends(run: seq<Action>)
    requires ValidFrom(Init, run)
    ensures var t := Final(Init, run).turns;
            && |t.completions| <= |t.sent|
            && (forall i :: 0 <= i < |t.completions| ==>
                  t.completions[i] != {} && t.completions[i] <= t.sent - t.active)
            && (forall i, j :: 0 <= i < j < |t.completions| ==> t.completions[i] !! t.completions[j])
  {
    RunInv(Init, run);
    var t := Final(Init, run).turns;
    DisjointCount(t.completions, t.emitted);
    SubsetCardinality(t.emitted, t.sent);
  }
}
