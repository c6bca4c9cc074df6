/** The ACP session: one active-prompt slot, one token attribution, and a sender/receiver pair
    per prompt, shared by `send_prompt`, `wait_for_response`, `cancel_prompt`, the reader task and
    a shutdown. One step is one lock scope. The reader keeps the slot's lock from releasing the
    slot to the end of its response branch, which blocks every other scope on the slot. */
module AcpSession {
  import opened Common

  type Answer = nat

  datatype Chan = Open | Sent(answer: Answer) | Closed

  /** What the locks guard. `attribution` is the prompt that token usage is billed to. */
  datatype Slots = Slots(
    slot: Option<Id>, attribution: Option<Id>, senders: set<Id>, receivers: set<Id>, chans: map<Id, Chan>)

  datatype SendPc =
    | SetAttribution | PutSender | PutReceiver | Write
    | UndoSender | UndoReceiver | UndoAttribution | UndoSlot
    | Returned | Failed | Refused

  datatype Verdict = Got(answer: Answer) | ProcessDied | NoPending | TimedOut

  datatype WaitPc = TakeReceiver | Parked | ExpireSender | ExpireAttribution | Done(verdict: Verdict)

  /** `holders`: the wait that took a prompt's receiver. */
  datatype Waits = Waits(ids: map<Id, Id>, pcs: map<Id, WaitPc>, holders: map<Id, Id>)

  datatype CancelPc = CancelSender | CancelReceiver | CancelAttribution | CancelSlot | Cancelled

  datatype Cancel = Cancel(id: Id, pc: CancelPc)

  datatype ReaderPc =
    | Listening
    | Settling(id: Id, answer: Answer) | Delivering(id: Id, answer: Answer)
    | ExitSenders | ExitReceivers | ExitAttribution | Gone

  datatype DownPc = Up | PeerTaken | Joined | NoSenders | NoReceivers | NoAttribution | Down

  /** History: prompts with a task to bill, prompts that may have reached the peer, first
      answers, prompts whose cancellation began, whose cancellation passed the slot, whose wait
      timed out, and whether the reader left its loop. */
  datatype Past = Past(
    tasked: set<Id>, reached: set<Id>, answers: map<Id, Answer>,
    cancelling: set<Id>, released: set<Id>, expired: set<Id>, eof: bool)

  datatype State = State(
    slots: Slots, sends: map<Id, SendPc>, waits: Waits, cancels: map<Id, Cancel>,
    reader: ReaderPc, down: DownPc, past: Past)

  const Init: State :=
    State(Slots(None, None, {}, {}, map[]), map[], Waits(map[], map[], map[]), map[], Listening, Up,
          Past({}, {}, map[], {}, {}, {}, false))

  datatype ReadStep = Receive(id: Id, answer: Answer) | Settle | HandOver | PeerClosed | Exit

  datatype Action =
    | Claim(p: Id, tasked: bool) | Register(p: Id) | Written(p: Id) | WriteFails(p: Id, reached: bool) | Undo(p: Id)
    | StartWait(w: Id, p: Id) | Take(w: Id) | Wake(w: Id) | Expire(w: Id) | GiveUp(w: Id)
    | StartCancel(c: Id, p: Id) | AdvanceCancel(c: Id)
    | Read(step: ReadStep)
    | ShutDown

  // ---- Lock scopes -------------------------------------------------------------------------

  function DropSender(k: Slots, p: Id): Slots {
    if p in k.senders then k.(senders := k.senders - {p}, chans := k.chans[p := Closed]) else k
  }

  function DropAllSenders(k: Slots): Slots {
    k.(senders := {}, chans := map q | q in k.chans :: if q in k.senders then Closed else k.chans[q])
  }

  function Deliver(k: Slots, p: Id, r: Answer): Slots {
    if p in k.senders then k.(senders := k.senders - {p}, chans := k.chans[p := Sent(r)]) else k
  }

  function DropReceiver(k: Slots, p: Id): Slots {
    k.(receivers := k.receivers - {p})
  }

  /** `clear_prompt_token_attribution`, and the taking half of `finish_prompt_token_attribution`. */
  function ClearAttribution(k: Slots, p: Id): Slots {
    if k.attribution == Some(p) then k.(attribution := None) else k
  }

  /** `clear_active_prompt_slot`. */
  function ClearSlot(k: Slots, p: Id): Slots {
    if k.slot == Some(p) then k.(slot := None) else k
  }

  // ---- Steps -------------------------------------------------------------------------------

  predicate SlotLocked(r: ReaderPc) {
    r.Settling? || r.Delivering?
  }

  predicate Registering(pc: SendPc) {
    pc.SetAttribution? || pc.PutSender? || pc.PutReceiver?
  }

  predicate Undoing(pc: SendPc) {
    pc.UndoSender? || pc.UndoReceiver? || pc.UndoAttribution? || pc.UndoSlot?
  }

  predicate At(s: State, p: Id, pc: SendPc) {
    p in s.sends && s.sends[p] == pc
  }

  predicate WaitAt(s: State, w: Id) {
    w in s.waits.ids && w in s.waits.pcs && s.waits.ids[w] in s.slots.chans
  }

  predicate EnabledRead(s: State, a: ReadStep) {
    match a
    case Receive(p, _) => s.reader.Listening? && p in s.past.reached
    case Settle => s.reader.Settling?
    case HandOver => s.reader.Delivering?
    case PeerClosed => s.reader.Listening?
    case Exit => s.reader.ExitSenders? || s.reader.ExitReceivers? || s.reader.ExitAttribution?
  }

  /** Waits and cancellations are only issued for a prompt whose send returned; the peer answers
      only what it was sent, any number of times. */
  predicate Enabled(s: State, a: Action) {
    match a
    case Claim(p, _) => p !in s.sends && !SlotLocked(s.reader)
    case Register(p) => p in s.sends && Registering(s.sends[p])
    case Written(p) => At(s, p, Write) && s.down.Up?
    case WriteFails(p, reached) => At(s, p, Write) && (reached ==> s.down.Up?)
    case Undo(p) => p in s.sends && Undoing(s.sends[p]) && (s.sends[p].UndoSlot? ==> !SlotLocked(s.reader))
    case StartWait(w, p) => w !in s.waits.ids && At(s, p, Returned)
    case Take(w) => WaitAt(s, w) && s.waits.pcs[w].TakeReceiver?
    case Wake(w) => WaitAt(s, w) && s.waits.pcs[w].Parked? && !s.slots.chans[s.waits.ids[w]].Open?
    case Expire(w) => WaitAt(s, w) && s.waits.pcs[w].Parked? && s.slots.chans[s.waits.ids[w]].Open?
    case GiveUp(w) => WaitAt(s, w) && (s.waits.pcs[w].ExpireSender? || s.waits.pcs[w].ExpireAttribution?)
    case StartCancel(c, p) => c !in s.cancels && At(s, p, Returned)
    case AdvanceCancel(c) =>
      c in s.cancels && !s.cancels[c].pc.Cancelled? && (s.cancels[c].pc.CancelSlot? ==> !SlotLocked(s.reader))
    case Read(step) => EnabledRead(s, step)
    case ShutDown => !s.down.Down? && (s.down.NoAttribution? ==> !SlotLocked(s.reader))
  }

  function SetSend(s: State, p: Id, k: Slots, pc: SendPc): State {
    s.(slots := k, sends := s.sends[p := pc])
  }

  function DoClaim(s: State, p: Id, tasked: bool): State {
    if s.slots.slot.Some? then s.(sends := s.sends[p := Refused])
    else
      s.(slots := s.slots.(slot := Some(p)), sends := s.sends[p := SetAttribution],
         past := s.past.(tasked := if tasked then s.past.tasked + {p} else s.past.tasked))
  }

  function DoRegister(s: State, p: Id): State
    requires p in s.sends && Registering(s.sends[p])
  {
    var k := s.slots;
    match s.sends[p]
    case SetAttribution =>
      SetSend(s, p, k.(attribution := if p in s.past.tasked then Some(p) else None), PutSender)
    case PutSender => SetSend(s, p, k.(senders := k.senders + {p}, chans := k.chans[p := Open]), PutReceiver)
    case PutReceiver => SetSend(s, p, k.(receivers := k.receivers + {p}), Write)
  }

  /** `cleanup_pending_prompt` and the slot, after a write that failed. */
  function DoUndo(s: State, p: Id): State
    requires p in s.sends && Undoing(s.sends[p])
  {
    match s.sends[p]
    case UndoSender => SetSend(s, p, DropSender(s.slots, p), UndoReceiver)
    case UndoReceiver => SetSend(s, p, DropReceiver(s.slots, p), UndoAttribution)
    case UndoAttribution => SetSend(s, p, ClearAttribution(s.slots, p), UndoSlot)
    case UndoSlot => SetSend(s, p, ClearSlot(s.slots, p), Failed)
  }

  function DoWrite(s: State, p: Id, reached: bool, pc: SendPc): State {
    s.(sends := s.sends[p := pc],
       past := s.past.(reached := if reached then s.past.reached + {p} else s.past.reached))
  }

  function SetWait(s: State, w: Id, k: Slots, pc: WaitPc): State {
    s.(slots := k, waits := s.waits.(pcs := s.waits.pcs[w := pc]))
  }

  function DoTake(s: State, w: Id): State
    requires w in s.waits.ids
  {
    var p := s.waits.ids[w];
    if p in s.slots.receivers then
      SetWait(s.(waits := s.waits.(holders := s.waits.holders[p := w])), w, DropReceiver(s.slots, p), Parked)
    else SetWait(s, w, s.slots, Done(NoPending))
  }

  function DoWake(s: State, w: Id): State
    requires w in s.waits.ids && s.waits.ids[w] in s.slots.chans
  {
    var chan := s.slots.chans[s.waits.ids[w]];
    SetWait(s, w, s.slots, Done(if chan.Sent? then Got(chan.answer) else ProcessDied))
  }

  function DoGiveUp(s: State, w: Id): State
    requires w in s.waits.ids && w in s.waits.pcs
  {
    var p := s.waits.ids[w];
    if s.waits.pcs[w].ExpireSender? then SetWait(s, w, DropSender(s.slots, p), ExpireAttribution)
    else SetWait(s, w, ClearAttribution(s.slots, p), Done(TimedOut))
  }

  function DoExpire(s: State, w: Id): State
    requires w in s.waits.ids
  {
    SetWait(s, w, s.slots, ExpireSender).(past := s.past.(expired := s.past.expired + {s.waits.ids[w]}))
  }

  function CancelScope(k: Slots, c: Cancel): Slots {
    match c.pc
    case CancelSender => DropSender(k, c.id)
    case CancelReceiver => DropReceiver(k, c.id)
    case CancelAttribution => ClearAttribution(k, c.id)
    case CancelSlot => ClearSlot(k, c.id)
    case Cancelled => k
  }

  function CancelNext(pc: CancelPc): CancelPc {
    match pc
    case CancelSender => CancelReceiver
    case CancelReceiver => CancelAttribution
    case CancelAttribution => CancelSlot
    case CancelSlot => Cancelled
    case Cancelled => Cancelled
  }

  function DoCancel(s: State, c: Id): State
    requires c in s.cancels
  {
    var x := s.cancels[c];
    s.(slots := CancelScope(s.slots, x), cancels := s.cancels[c := x.(pc := CancelNext(x.pc))],
       past := if x.pc.CancelSlot? then s.past.(released := s.past.released + {x.id}) else s.past)
  }

  function DoReceive(s: State, p: Id, r: Answer): State {
    s.(slots := ClearSlot(s.slots, p), reader := Settling(p, r),
       past := s.past.(answers := if p in s.past.answers then s.past.answers else s.past.answers[p := r]))
  }

  function DoExit(s: State): State {
    if s.reader.ExitSenders? then s.(slots := DropAllSenders(s.slots), reader := ExitReceivers)
    else if s.reader.ExitReceivers? then s.(slots := s.slots.(receivers := {}), reader := ExitAttribution)
    else s.(slots := s.slots.(attribution := None), reader := Gone)
  }

  function DoRead(s: State, a: ReadStep): State
    requires EnabledRead(s, a)
  {
    match a
    case Receive(p, r) => DoReceive(s, p, r)
    case Settle =>
      s.(slots := ClearAttribution(s.slots, s.reader.id), reader := Delivering(s.reader.id, s.reader.answer))
    case HandOver => s.(slots := Deliver(s.slots, s.reader.id, s.reader.answer), reader := Listening)
    case PeerClosed => s.(reader := ExitSenders, past := s.past.(eof := true))
    case Exit => DoExit(s)
  }

  /** `shutdown_session_inner`: joining the reader ends it wherever it is. */
  function DoShutDown(s: State): State {
    match s.down
    case Up => s.(down := PeerTaken)
    case PeerTaken => s.(down := Joined, reader := Gone)
    case Joined => s.(down := NoSenders, slots := DropAllSenders(s.slots))
    case NoSenders => s.(down := NoReceivers, slots := s.slots.(receivers := {}))
    case NoReceivers => s.(down := NoAttribution, slots := s.slots.(attribution := None))
    case NoAttribution => s.(down := Down, slots := s.slots.(slot := None))
    case Down => s
  }

  function Do(s: State, a: Action): State
    requires Enabled(s, a)
  {
    match a
    case Claim(p, tasked) => DoClaim(s, p, tasked)
    case Register(p) => DoRegister(s, p)
    case Written(p) => DoWrite(s, p, true, Returned)
    case WriteFails(p, reached) => DoWrite(s, p, reached, UndoSender)
    case Undo(p) => DoUndo(s, p)
    case StartWait(w, p) =>
      s.(waits := s.waits.(ids := s.waits.ids[w := p], pcs := s.waits.pcs[w := TakeReceiver]))
    case Take(w) => DoTake(s, w)
    case Wake(w) => DoWake(s, w)
    case Expire(w) => DoExpire(s, w)
    case GiveUp(w) => DoGiveUp(s, w)
    case StartCancel(c, p) =>
      s.(cancels := s.cancels[c := Cancel(p, CancelSender)],
         past := s.past.(cancelling := s.past.cancelling + {p}))
    case AdvanceCancel(c) => DoCancel(s, c)
    case Read(step) => DoRead(s, step)
    case ShutDown => DoShutDown(s)
  }

  predicate ValidFrom(s: State, run: seq<Action>)
    decreases run
  {
    run == [] || (Enabled(s, run[0]) && ValidFrom(Do(s, run[0]), run[1..]))
  }

  function Final(s: State, run: seq<Action>): State
    requires ValidFrom(s, run)
    decreases run
  {
    if run == [] then s else Final(Do(s, run[0]), run[1..])
  }

  // ---- Until shutdown ----------------------------------------------------------------------

  predicate InHands(r: ReaderPc, p: Id) {
    (r.Settling? || r.Delivering?) && r.id == p
  }

  /** A registered sender or the attribution belongs to the slot's prompt, or to the prompt whose
      answer is in the reader's hands, and then the slot is empty and locked. */
  ghost predicate HeldOk(k: Slots, r: ReaderPc) {
    && (forall p <- k.senders :: k.slot == Some(p) || (InHands(r, p) && k.slot.None?))
    && (k.attribution.Some? ==>
          || k.slot == k.attribution
          || (r.Settling? && r.id == k.attribution.value && k.slot.None?))
    && (SlotLocked(r) ==> k.slot != Some(r.id))
  }

  /** Before its write a send owns the slot. After it, an unanswered prompt whose send returned
      owns it until its cancellation clears it. */
  ghost predicate OwnsSlot(sends: map<Id, SendPc>, past: Past, p: Id) {
    && p in sends
    && (|| sends[p].SetAttribution? || sends[p].PutSender? || sends[p].PutReceiver? || sends[p].Write?
        || (sends[p].Returned? && p !in past.answers && p !in past.released))
  }

  ghost predicate OwnersOk(k: Slots, sends: map<Id, SendPc>, past: Past) {
    forall p <- sends :: OwnsSlot(sends, past, p) ==> k.slot == Some(p)
  }

  predicate SenderGone(pc: SendPc) {
    pc.UndoReceiver? || pc.UndoAttribution? || pc.UndoSlot? || pc.Failed? || pc.Refused?
  }

  predicate AttributionGone(pc: SendPc) {
    pc.UndoSlot? || pc.Failed? || pc.Refused?
  }

  /** A clean-up gives up sender, then attribution, then slot. */
  ghost predicate UndoneOk(k: Slots, sends: map<Id, SendPc>) {
    && (forall p <- k.senders :: p in sends && !SenderGone(sends[p]))
    && (k.attribution.Some? ==> k.attribution.value in sends && !AttributionGone(sends[k.attribution.value]))
  }

  ghost predicate CancelsOk(k: Slots, sends: map<Id, SendPc>, cancels: map<Id, Cancel>, past: Past) {
    && past.released <= past.cancelling
    && (forall c <- cancels ::
          var x := cancels[c];
          && x.id in sends && sends[x.id].Returned? && x.id in past.cancelling
          && (!x.pc.CancelSender? ==> x.id !in k.senders)
          && (x.pc.CancelSlot? || x.pc.Cancelled? ==> k.attribution != Some(x.id)))
  }

  /** Nothing was done to the prompt but to send it and perhaps to answer it. */
  predicate Untouched(past: Past, p: Id) {
    p !in past.cancelling && p !in past.expired && !past.eof
  }

  ghost predicate Registered(k: Slots, sends: map<Id, SendPc>, past: Past, p: Id) {
    && p in sends
    && (sends[p].PutReceiver? || sends[p].Write? || sends[p].Returned? ==> p in k.senders)
    && (sends[p].PutSender? || sends[p].PutReceiver? || sends[p].Write? || sends[p].Returned? ==>
          p in past.tasked ==> k.attribution == Some(p))
  }

  ghost predicate IntactOk(k: Slots, sends: map<Id, SendPc>, past: Past) {
    forall p <- sends :: Untouched(past, p) && p !in past.answers ==> Registered(k, sends, past, p)
  }

  ghost predicate DeliveredOk(k: Slots, sends: map<Id, SendPc>, r: ReaderPc, past: Past) {
    forall p <- past.answers ::
      p in sends && sends[p].Returned? && Untouched(past, p) && !InHands(r, p) ==>
        p in k.chans && k.chans[p] == Sent(past.answers[p])
  }

  /** A channel closes only for a reason. */
  ghost predicate ClosedOk(k: Slots, sends: map<Id, SendPc>, past: Past) {
    forall p <- k.chans :: k.chans[p].Closed? ==> !Untouched(past, p) || (p in sends && !sends[p].Returned?)
  }

  ghost predicate SlotInv(s: State) {
    && HeldOk(s.slots, s.reader)
    && OwnersOk(s.slots, s.sends, s.past)
    && UndoneOk(s.slots, s.sends)
    && CancelsOk(s.slots, s.sends, s.cancels, s.past)
  }

  ghost predicate PromptInv(s: State) {
    && IntactOk(s.slots, s.sends, s.past)
    && DeliveredOk(s.slots, s.sends, s.reader, s.past)
    && ClosedOk(s.slots, s.sends, s.past)
    && (s.reader.Listening? || SlotLocked(s.reader) || s.past.eof)
  }

  // ---- At all times ------------------------------------------------------------------------

  predicate PastWrite(pc: SendPc) {
    pc.Returned? || pc.UndoSender? || pc.UndoReceiver? || pc.UndoAttribution? || pc.UndoSlot? || pc.Failed?
  }

  ghost predicate PastOk(sends: map<Id, SendPc>, past: Past) {
    && past.answers.Keys <= past.reached
    && (forall p <- past.reached :: p in sends && PastWrite(sends[p]))
    && (forall p <- past.cancelling :: p in sends && sends[p].Returned?)
    && (forall p <- past.expired :: p in sends && sends[p].Returned?)
    && past.tasked <= sends.Keys
  }

  ghost predicate ChansOk(k: Slots, sends: map<Id, SendPc>, r: ReaderPc, past: Past) {
    && k.chans.Keys <= sends.Keys
    && (forall p <- sends :: sends[p].PutReceiver? || sends[p].Write? || PastWrite(sends[p]) ==> p in k.chans)
    && (forall p <- k.senders :: p in k.chans && k.chans[p].Open?)
    && (forall p <- k.chans :: k.chans[p].Open? ==> p in k.senders)
    && (forall p <- k.chans :: k.chans[p].Sent? ==> p in past.answers && k.chans[p].answer == past.answers[p])
    && (forall p <- k.senders :: p in past.answers ==>
          (InHands(r, p) && r.answer == past.answers[p]) || r.Gone?)
    && (SlotLocked(r) ==> r.id in past.answers)
  }

  ghost predicate WaitsOk(receivers: set<Id>, sends: map<Id, SendPc>, x: Waits) {
    && (forall w <- x.ids :: x.ids[w] in sends && sends[x.ids[w]].Returned?)
    && (forall p <- receivers :: p !in x.holders && p in sends)
    && (forall p <- x.holders :: p in sends && sends[p].Returned?)
  }

  /** A receiver is taken once, and only the wait that took it goes on to a verdict. */
  ghost predicate HoldersOk(x: Waits, expired: set<Id>) {
    && x.ids.Keys == x.pcs.Keys
    && (forall p <- x.holders ::
          x.holders[p] in x.ids && x.ids[x.holders[p]] == p && !x.pcs[x.holders[p]].TakeReceiver?)
    && (forall w <- x.pcs :: !x.pcs[w].TakeReceiver? && x.pcs[w] != Done(NoPending) ==>
          x.ids[w] in x.holders && x.holders[x.ids[w]] == w)
    && (forall p <- expired :: p in x.holders && GaveUp(x.pcs[x.holders[p]]))
    && (forall w <- x.pcs :: GaveUp(x.pcs[w]) ==> x.ids[w] in expired)
  }

  predicate GaveUp(pc: WaitPc) {
    pc.ExpireSender? || pc.ExpireAttribution? || pc == Done(TimedOut)
  }

  /** A wait that got an answer got its prompt's first one; one that was told that the process
      died was cancelled, cut off by the end of the reader, or by a shutdown. */
  ghost predicate VerdictOk(past: Past, down: DownPc, p: Id, v: Verdict) {
    && (v.Got? ==> p in past.answers && v.answer == past.answers[p])
    && (v.ProcessDied? ==> p in past.cancelling || past.eof || !down.Up?)
  }

  ghost predicate VerdictsOk(x: Waits, past: Past, down: DownPc) {
    forall w <- x.pcs :: w in x.ids && x.pcs[w].Done? ==> VerdictOk(past, down, x.ids[w], x.pcs[w].verdict)
  }

  /** After each of the shutdown's clears, what is left belongs to a send on its way to undoing it. */
  ghost predicate DownOk(k: Slots, sends: map<Id, SendPc>, down: DownPc) {
    && (down.NoSenders? || down.NoReceivers? || down.NoAttribution? || down.Down? ==>
          forall p <- k.senders :: p in sends && (sends[p].PutReceiver? || sends[p].Write? || sends[p].UndoSender?))
    && (down.NoReceivers? || down.NoAttribution? || down.Down? ==>
          forall p <- k.receivers :: p in sends && (sends[p].Write? || sends[p].UndoSender? || sends[p].UndoReceiver?))
    && (down.NoAttribution? || down.Down? ==>
          k.attribution.Some? ==> k.attribution.value in sends && BillsUntil(sends[k.attribution.value]))
    && (down.Down? ==> k.slot.Some? ==> k.slot.value in sends && InProgress(sends[k.slot.value]))
  }

  predicate InProgress(pc: SendPc) {
    Registering(pc) || pc.Write? || Undoing(pc)
  }

  predicate BillsUntil(pc: SendPc) {
    pc.PutSender? || pc.PutReceiver? || pc.Write? || pc.UndoSender? || pc.UndoReceiver? || pc.UndoAttribution?
  }

  ghost predicate ChanInv(s: State) {
    PastOk(s.sends, s.past) && ChansOk(s.slots, s.sends, s.reader, s.past)
  }

  ghost predicate DownInv(s: State) {
    DownOk(s.slots, s.sends, s.down)
  }

  ghost predicate WaitInv(s: State) {
    && WaitsOk(s.slots.receivers, s.sends, s.waits)
    && HoldersOk(s.waits, s.past.expired)
    && VerdictsOk(s.waits, s.past, s.down)
  }

  ghost predicate Inv(s: State) {
    ChanInv(s) && DownInv(s) && WaitInv(s) && (s.down.Up? ==> SlotInv(s) && PromptInv(s))
  }

  // ---- Every step keeps it -----------------------------------------------------------------

  lemma ClaimPast(sends: map<Id, SendPc>, past: Past, p: Id, pc: SendPc, tasked: bool)
    requires PastOk(sends, past) && p !in sends
    ensures PastOk(sends[p := pc], past) && PastOk(sends[p := pc], past.(tasked := past.tasked + {p}))
  {
  }

  lemma ClaimChans(k: Slots, sends: map<Id, SendPc>, r: ReaderPc, past: Past, p: Id, pc: SendPc)
    requires ChansOk(k, sends, r, past) && p !in sends && (pc.SetAttribution? || pc.Refused?)
    ensures ChansOk(k, sends[p := pc], r, past)
  {
  }

  lemma ClaimKeepsChan(s: State, p: Id, tasked: bool)
    requires ChanInv(s) && Enabled(s, Claim(p, tasked))
    ensures ChanInv(Do(s, Claim(p, tasked)))
  {
    var pc := DoClaim(s, p, tasked).sends[p];
    ClaimPast(s.sends, s.past, p, pc, tasked);
    ClaimChans(s.slots, s.sends, s.reader, s.past, p, pc);
  }

  lemma RegisterKeepsChan(s: State, p: Id)
    requires ChanInv(s) && Enabled(s, Register(p))
    ensures ChanInv(Do(s, Register(p)))
  {
  }

  lemma UndoKeepsChan(s: State, p: Id)
    requires ChanInv(s) && Enabled(s, Undo(p))
    ensures ChanInv(Do(s, Undo(p)))
  {
  }

  lemma ReceiveKeepsChan(s: State, p: Id, r: Answer)
    requires ChanInv(s) && Enabled(s, Read(Receive(p, r)))
    ensures ChanInv(Do(s, Read(Receive(p, r))))
  {
  }

  lemma ExitKeepsChan(s: State)
    requires ChanInv(s) && Enabled(s, Read(Exit))
    ensures ChanInv(Do(s, Read(Exit)))
  {
  }

  lemma ShutDownKeepsChan(s: State)
    requires ChanInv(s) && Enabled(s, ShutDown)
    ensures ChanInv(Do(s, ShutDown))
  {
  }

  lemma HandOverKeepsChan(s: State)
    requires ChanInv(s) && Enabled(s, Read(HandOver))
    ensures ChanInv(Do(s, Read(HandOver)))
  {
  }

  lemma AdvanceCancelKeepsChan(s: State, c: Id)
    requires ChanInv(s) && Enabled(s, AdvanceCancel(c))
    ensures ChanInv(Do(s, AdvanceCancel(c)))
  {
  }

  lemma GiveUpKeepsChan(s: State, w: Id)
    requires ChanInv(s) && Enabled(s, GiveUp(w))
    ensures ChanInv(Do(s, GiveUp(w)))
  {
  }

  lemma SettleKeepsChan(s: State)
    requires ChanInv(s) && Enabled(s, Read(Settle))
    ensures ChanInv(Do(s, Read(Settle)))
  {
  }

  lemma PeerClosedKeepsChan(s: State)
    requires ChanInv(s) && Enabled(s, Read(PeerClosed))
    ensures ChanInv(Do(s, Read(PeerClosed)))
  {
  }

  lemma ExpireKeepsChan(s: State, w: Id)
    requires ChanInv(s) && WaitInv(s) && Enabled(s, Expire(w))
    ensures ChanInv(Do(s, Expire(w)))
  {
  }

  lemma QuietKeepsChan(s: State, a: Action)
    requires ChanInv(s) && WaitInv(s) && Enabled(s, a)
    requires a.Written? || a.WriteFails? || a.StartWait? || a.Take? || a.Wake? || a.StartCancel?
    ensures ChanInv(Do(s, a))
  {
  }

  lemma StepKeepsChan(s: State, a: Action)
    requires ChanInv(s) && WaitInv(s) && Enabled(s, a)
    ensures ChanInv(Do(s, a))
  {
    match a
    case Claim(p, tasked) => ClaimKeepsChan(s, p, tasked);
    case Register(p) => RegisterKeepsChan(s, p);
    case Undo(p) => UndoKeepsChan(s, p);
    case Read(Receive(p, r)) => ReceiveKeepsChan(s, p, r);
    case Read(Exit) => ExitKeepsChan(s);
    case ShutDown => ShutDownKeepsChan(s);
    case Read(HandOver) => HandOverKeepsChan(s);
    case AdvanceCancel(c) => AdvanceCancelKeepsChan(s, c);
    case GiveUp(w) => GiveUpKeepsChan(s, w);
    case Read(Settle) => SettleKeepsChan(s);
    case Read(PeerClosed) => PeerClosedKeepsChan(s);
    case Expire(w) => ExpireKeepsChan(s, w);
    case _ => QuietKeepsChan(s, a);
  }

  lemma HoldersTake(x: Waits, expired: set<Id>, p: Id, w: Id)
    requires HoldersOk(x, expired) && w in x.ids && x.ids[w] == p && p !in x.holders && x.pcs[w].TakeReceiver?
    ensures HoldersOk(x.(holders := x.holders[p := w], pcs := x.pcs[w := Parked]), expired)
  {
  }

  /** Only a cancellation or the end of the reader closes a channel somebody is parked on. */
  lemma WakeVerdict(s: State, w: Id)
    requires ChanInv(s) && WaitInv(s) && PromptInv(s) && Enabled(s, Wake(w)) && s.slots.chans[s.waits.ids[w]].Closed?
    ensures s.waits.ids[w] in s.past.cancelling || s.past.eof
  {
  }

  lemma ClaimKeepsWait(s: State, p: Id, tasked: bool)
    requires WaitInv(s) && Enabled(s, Claim(p, tasked))
    ensures WaitInv(Do(s, Claim(p, tasked)))
  {
  }

  lemma RegisterKeepsWait(s: State, p: Id)
    requires WaitInv(s) && Enabled(s, Register(p))
    ensures WaitInv(Do(s, Register(p)))
  {
  }

  lemma UndoKeepsWait(s: State, p: Id)
    requires WaitInv(s) && Enabled(s, Undo(p))
    ensures WaitInv(Do(s, Undo(p)))
  {
  }

  /** A wait that ends without giving up, from its channel or for want of a receiver. */
  lemma HoldersEnd(x: Waits, expired: set<Id>, w: Id, v: Verdict)
    requires HoldersOk(x, expired) && w in x.ids && !v.TimedOut?
    requires if v.NoPending? then x.pcs[w].TakeReceiver? else x.pcs[w].Parked?
    ensures HoldersOk(x.(pcs := x.pcs[w := Done(v)]), expired)
  {
  }

  lemma HoldersGiveUp(x: Waits, expired: set<Id>, w: Id, pc: WaitPc)
    requires HoldersOk(x, expired) && w in x.ids && GaveUp(x.pcs[w]) && GaveUp(pc)
    ensures HoldersOk(x.(pcs := x.pcs[w := pc]), expired)
  {
  }

  lemma VerdictMove(x: Waits, past: Past, down: DownPc, w: Id, pc: WaitPc)
    requires VerdictsOk(x, past, down) && w in x.ids && (pc.Done? ==> VerdictOk(past, down, x.ids[w], pc.verdict))
    ensures VerdictsOk(x.(pcs := x.pcs[w := pc]), past, down)
  {
  }

  lemma TakeKeepsWait(s: State, w: Id)
    requires WaitInv(s) && Enabled(s, Take(w))
    ensures WaitInv(Do(s, Take(w)))
  {
    VerdictMove(s.waits, s.past, s.down, w, DoTake(s, w).waits.pcs[w]);
    if s.waits.ids[w] in s.slots.receivers {
      HoldersTake(s.waits, s.past.expired, s.waits.ids[w], w);
    } else {
      HoldersEnd(s.waits, s.past.expired, w, NoPending);
    }
  }

  lemma WakeKeepsWait(s: State, w: Id)
    requires ChanInv(s) && WaitInv(s) && (s.down.Up? ==> PromptInv(s)) && Enabled(s, Wake(w))
    ensures WaitInv(Do(s, Wake(w)))
  {
    if s.down.Up? && s.slots.chans[s.waits.ids[w]].Closed? {
      WakeVerdict(s, w);
    }
    var pc := DoWake(s, w).waits.pcs[w];
    HoldersEnd(s.waits, s.past.expired, w, pc.verdict);
    VerdictMove(s.waits, s.past, s.down, w, pc);
  }

  lemma ExpireKeepsWait(s: State, w: Id)
    requires WaitInv(s) && Enabled(s, Expire(w))
    ensures WaitInv(Do(s, Expire(w)))
  {
  }

  lemma GiveUpKeepsWait(s: State, w: Id)
    requires WaitInv(s) && Enabled(s, GiveUp(w))
    ensures WaitInv(Do(s, GiveUp(w)))
  {
    var pc := DoGiveUp(s, w).waits.pcs[w];
    HoldersGiveUp(s.waits, s.past.expired, w, pc);
    VerdictMove(s.waits, s.past, s.down, w, pc);
  }

  lemma StartWaitKeepsWait(s: State, w: Id, p: Id)
    requires WaitInv(s) && Enabled(s, StartWait(w, p))
    ensures WaitInv(Do(s, StartWait(w, p)))
  {
  }

  lemma AdvanceCancelKeepsWait(s: State, c: Id)
    requires WaitInv(s) && Enabled(s, AdvanceCancel(c))
    ensures WaitInv(Do(s, AdvanceCancel(c)))
  {
  }

  lemma ReceiveKeepsWait(s: State, p: Id, r: Answer)
    requires WaitInv(s) && Enabled(s, Read(Receive(p, r)))
    ensures WaitInv(Do(s, Read(Receive(p, r))))
  {
  }

  lemma ExitKeepsWait(s: State)
    requires WaitInv(s) && Enabled(s, Read(Exit))
    ensures WaitInv(Do(s, Read(Exit)))
  {
  }

  lemma ShutDownKeepsWait(s: State)
    requires WaitInv(s) && Enabled(s, ShutDown)
    ensures WaitInv(Do(s, ShutDown))
  {
  }

  lemma QuietKeepsWait(s: State, a: Action)
    requires ChanInv(s) && WaitInv(s) && (s.down.Up? ==> PromptInv(s)) && Enabled(s, a)
    requires a.Written? || a.WriteFails? || a.StartCancel? || (a.Read? && (a.step.Settle? || a.step.HandOver? || a.step.PeerClosed?))
    ensures WaitInv(Do(s, a))
  {
  }

  lemma StepKeepsWait(s: State, a: Action)
    requires ChanInv(s) && WaitInv(s) && (s.down.Up? ==> PromptInv(s)) && Enabled(s, a)
    ensures WaitInv(Do(s, a))
  {
    match a
    case Claim(p, tasked) => ClaimKeepsWait(s, p, tasked);
    case Register(p) => RegisterKeepsWait(s, p);
    case Undo(p) => UndoKeepsWait(s, p);
    case Take(w) => TakeKeepsWait(s, w);
    case Wake(w) => WakeKeepsWait(s, w);
    case Expire(w) => ExpireKeepsWait(s, w);
    case GiveUp(w) => GiveUpKeepsWait(s, w);
    case StartWait(w, p) => StartWaitKeepsWait(s, w, p);
    case AdvanceCancel(c) => AdvanceCancelKeepsWait(s, c);
    case Read(Receive(p, r)) => ReceiveKeepsWait(s, p, r);
    case Read(Exit) => ExitKeepsWait(s);
    case ShutDown => ShutDownKeepsWait(s);
    case _ => QuietKeepsWait(s, a);
  }

  lemma RegisterKeepsDown(s: State, p: Id)
    requires DownInv(s) && Enabled(s, Register(p))
    ensures DownInv(Do(s, Register(p)))
  {
  }

  lemma UndoKeepsDown(s: State, p: Id)
    requires DownInv(s) && Enabled(s, Undo(p))
    ensures DownInv(Do(s, Undo(p)))
  {
  }

  lemma ExitKeepsDown(s: State)
    requires DownInv(s) && Enabled(s, Read(Exit))
    ensures DownInv(Do(s, Read(Exit)))
  {
  }

  lemma StepKeepsDown(s: State, a: Action)
    requires DownInv(s) && Enabled(s, a)
    ensures DownInv(Do(s, a))
  {
    match a
    case Register(p) => RegisterKeepsDown(s, p);
    case Undo(p) => UndoKeepsDown(s, p);
    case Read(Exit) => ExitKeepsDown(s);
    case _ =>
  }

  lemma UndoKeepsHeld(s: State, p: Id)
    requires HeldOk(s.slots, s.reader) && UndoneOk(s.slots, s.sends) && Enabled(s, Undo(p))
    ensures HeldOk(DoUndo(s, p).slots, s.reader) && UndoneOk(DoUndo(s, p).slots, DoUndo(s, p).sends)
  {
  }

  lemma ClaimKeepsSlot(s: State, p: Id, tasked: bool)
    requires SlotInv(s) && PastOk(s.sends, s.past) && Enabled(s, Claim(p, tasked))
    ensures SlotInv(Do(s, Claim(p, tasked)))
  {
  }

  lemma RegisterKeepsSlot(s: State, p: Id)
    requires ChanInv(s) && SlotInv(s) && Enabled(s, Register(p))
    ensures SlotInv(Do(s, Register(p)))
  {
  }

  lemma UndoKeepsSlot(s: State, p: Id)
    requires SlotInv(s) && Enabled(s, Undo(p))
    ensures SlotInv(Do(s, Undo(p)))
  {
    UndoKeepsHeld(s, p);
  }

  lemma AdvanceCancelKeepsSlot(s: State, c: Id)
    requires ChanInv(s) && SlotInv(s) && Enabled(s, AdvanceCancel(c))
    ensures SlotInv(Do(s, AdvanceCancel(c)))
  {
  }

  lemma GiveUpKeepsSlot(s: State, w: Id)
    requires ChanInv(s) && SlotInv(s) && Enabled(s, GiveUp(w))
    ensures SlotInv(Do(s, GiveUp(w)))
  {
  }

  lemma ReceiveKeepsSlot(s: State, p: Id, r: Answer)
    requires ChanInv(s) && SlotInv(s) && Enabled(s, Read(Receive(p, r)))
    ensures SlotInv(Do(s, Read(Receive(p, r))))
  {
  }

  lemma SettleKeepsSlot(s: State)
    requires ChanInv(s) && SlotInv(s) && Enabled(s, Read(Settle))
    ensures SlotInv(Do(s, Read(Settle)))
  {
  }

  lemma HandOverKeepsSlot(s: State)
    requires ChanInv(s) && SlotInv(s) && Enabled(s, Read(HandOver))
    ensures SlotInv(Do(s, Read(HandOver)))
  {
  }

  lemma ExitKeepsSlot(s: State)
    requires ChanInv(s) && SlotInv(s) && Enabled(s, Read(Exit))
    ensures SlotInv(Do(s, Read(Exit)))
  {
  }

  lemma QuietKeepsSlot(s: State, a: Action)
    requires ChanInv(s) && SlotInv(s) && Enabled(s, a)
    requires a.Written? || a.WriteFails? || a.StartWait? || a.Take? || a.Wake? || a.Expire? || a.StartCancel? || (a.Read? && a.step.PeerClosed?)
    ensures SlotInv(Do(s, a))
  {
  }

  lemma StepKeepsSlot(s: State, a: Action)
    requires ChanInv(s) && SlotInv(s) && Enabled(s, a) && s.down.Up? && !a.ShutDown?
    ensures SlotInv(Do(s, a))
  {
    match a
    case Claim(p, tasked) => ClaimKeepsSlot(s, p, tasked);
    case Register(p) => RegisterKeepsSlot(s, p);
    case Undo(p) => UndoKeepsSlot(s, p);
    case AdvanceCancel(c) => AdvanceCancelKeepsSlot(s, c);
    case GiveUp(w) => GiveUpKeepsSlot(s, w);
    case Read(Receive(p, r)) => ReceiveKeepsSlot(s, p, r);
    case Read(Settle) => SettleKeepsSlot(s);
    case Read(HandOver) => HandOverKeepsSlot(s);
    case Read(Exit) => ExitKeepsSlot(s);
    case _ => QuietKeepsSlot(s, a);
  }

  lemma ClaimKeepsPrompt(s: State, p: Id, tasked: bool)
    requires PromptInv(s) && Enabled(s, Claim(p, tasked))
    ensures PromptInv(Do(s, Claim(p, tasked)))
  {
  }

  lemma RegisterKeepsPrompt(s: State, p: Id)
    requires ChanInv(s) && SlotInv(s) && PromptInv(s) && Enabled(s, Register(p))
    ensures PromptInv(Do(s, Register(p)))
  {
  }

  lemma UndoKeepsPrompt(s: State, p: Id)
    requires PromptInv(s) && Enabled(s, Undo(p))
    ensures PromptInv(Do(s, Undo(p)))
  {
  }

  lemma WrittenKeepsPrompt(s: State, p: Id)
    requires ChanInv(s) && PromptInv(s) && Enabled(s, Written(p))
    ensures PromptInv(Do(s, Written(p)))
  {
  }

  lemma WriteFailsKeepsPrompt(s: State, p: Id, reached: bool)
    requires ChanInv(s) && PromptInv(s) && Enabled(s, WriteFails(p, reached))
    ensures PromptInv(Do(s, WriteFails(p, reached)))
  {
  }

  lemma ReceiveKeepsPrompt(s: State, p: Id, r: Answer)
    requires ChanInv(s) && PromptInv(s) && Enabled(s, Read(Receive(p, r)))
    ensures PromptInv(Do(s, Read(Receive(p, r))))
  {
  }

  lemma HandOverKeepsPrompt(s: State)
    requires ChanInv(s) && PromptInv(s) && Enabled(s, Read(HandOver))
    ensures PromptInv(Do(s, Read(HandOver)))
  {
  }

  lemma GiveUpKeepsPrompt(s: State, w: Id)
    requires WaitInv(s) && PromptInv(s) && Enabled(s, GiveUp(w))
    ensures PromptInv(Do(s, GiveUp(w)))
  {
  }

  lemma AdvanceCancelKeepsPrompt(s: State, c: Id)
    requires SlotInv(s) && PromptInv(s) && Enabled(s, AdvanceCancel(c))
    ensures PromptInv(Do(s, AdvanceCancel(c)))
  {
  }

  lemma TakeKeepsPrompt(s: State, w: Id)
    requires ChanInv(s) && PromptInv(s) && Enabled(s, Take(w))
    ensures PromptInv(Do(s, Take(w)))
  {
  }

  lemma ExpireKeepsPrompt(s: State, w: Id)
    requires ChanInv(s) && PromptInv(s) && Enabled(s, Expire(w))
    ensures PromptInv(Do(s, Expire(w)))
  {
  }

  lemma SettleKeepsPrompt(s: State)
    requires ChanInv(s) && PromptInv(s) && Enabled(s, Read(Settle))
    ensures PromptInv(Do(s, Read(Settle)))
  {
  }

  lemma PeerClosedKeepsPrompt(s: State)
    requires ChanInv(s) && PromptInv(s) && Enabled(s, Read(PeerClosed))
    ensures PromptInv(Do(s, Read(PeerClosed)))
  {
  }

  lemma QuietKeepsPrompt(s: State, a: Action)
    requires ChanInv(s) && SlotInv(s) && WaitInv(s) && PromptInv(s) && Enabled(s, a)
    requires a.StartWait? || a.Wake? || a.StartCancel? || (a.Read? && a.step.Exit?)
    ensures PromptInv(Do(s, a))
  {
  }

  lemma StepKeepsPrompt(s: State, a: Action)
    requires ChanInv(s) && SlotInv(s) && WaitInv(s) && PromptInv(s) && Enabled(s, a) && s.down.Up? && !a.ShutDown?
    ensures PromptInv(Do(s, a))
  {
    match a
    case Claim(p, tasked) => ClaimKeepsPrompt(s, p, tasked);
    case Register(p) => RegisterKeepsPrompt(s, p);
    case Undo(p) => UndoKeepsPrompt(s, p);
    case Written(p) => WrittenKeepsPrompt(s, p);
    case WriteFails(p, reached) => WriteFailsKeepsPrompt(s, p, reached);
    case Read(Receive(p, r)) => ReceiveKeepsPrompt(s, p, r);
    case Read(HandOver) => HandOverKeepsPrompt(s);
    case GiveUp(w) => GiveUpKeepsPrompt(s, w);
    case AdvanceCancel(c) => AdvanceCancelKeepsPrompt(s, c);
    case Take(w) => TakeKeepsPrompt(s, w);
    case Expire(w) => ExpireKeepsPrompt(s, w);
    case Read(Settle) => SettleKeepsPrompt(s);
    case Read(PeerClosed) => PeerClosedKeepsPrompt(s);
    case _ => QuietKeepsPrompt(s, a);
  }

  lemma StepInv(s: State, a: Action)
    requires Inv(s) && Enabled(s, a)
    ensures Inv(Do(s, a))
  {
    StepKeepsChan(s, a);
    StepKeepsWait(s, a);
    StepKeepsDown(s, a);
    if Do(s, a).down.Up? {
      StepKeepsSlot(s, a);
      StepKeepsPrompt(s, a);
    }
  }

  lemma {:induction false} RunInv(s: State, run: seq<Action>)
    requires Inv(s) && ValidFrom(s, run)
    ensures Inv(Final(s, run))
    decreases run
  {
    if run != [] {
      StepInv(s, run[0]);
      RunInv(Do(s, run[0]), run[1..]);
    }
  }

  // ---- What holds in every run -------------------------------------------------------------

  lemma ReachedInv(run: seq<Action>)
    requires ValidFrom(Init, run)
    ensures Inv(Final(Init, run))
  {
    RunInv(Init, run);
  }

  /** Until shutdown there is at most one registered sender. It is the slot's prompt exactly
      while the reader is not handling that prompt's answer, and meanwhile the slot is empty. */
  lemma SendersWithinSlot(run: seq<Action>, p: Id)
    requires ValidFrom(Init, run) && Final(Init, run).down.Up? && p in Final(Init, run).slots.senders
    ensures var s := Final(Init, run);
            && s.slots.senders == {p}
            && (s.slots.slot == Some(p) <==> !InHands(s.reader, p))
            && (s.slots.slot == None <==> InHands(s.reader, p))
  {
    ReachedInv(run);
    var s := Final(Init, run);
    assert forall q <- s.slots.senders :: q == p;
  }

  /** The prompt was written, and neither answered nor dropped by a cancellation. */
  predicate Outstanding(s: State, p: Id) {
    At(s, p, Returned) && p !in s.past.answers && p !in s.past.released
  }

  /** Until shutdown at most one prompt is outstanding, and no other can be claimed. */
  lemma OneOutstanding(run: seq<Action>, p: Id, q: Id)
    requires ValidFrom(Init, run) && Final(Init, run).down.Up?
    requires Outstanding(Final(Init, run), p) && Outstanding(Final(Init, run), q)
    ensures p == q && Final(Init, run).slots.slot == Some(p)
  {
    ReachedInv(run);
  }

  /** An outstanding prompt that was itself neither cancelled nor timed out keeps its slot, its
      waiter's sender and its token attribution, whatever late answers, clean-ups,
      cancellations and time-outs of other prompts happened or are under way. */
  lemma SuccessorIntact(run: seq<Action>, q: Id)
    requires ValidFrom(Init, run) && Final(Init, run).down.Up?
    requires Outstanding(Final(Init, run), q) && Untouched(Final(Init, run).past, q)
    ensures var s := Final(Init, run);
            && s.slots.slot == Some(q) && s.slots.senders == {q}
            && q in s.slots.chans && s.slots.chans[q].Open?
            && (q in s.past.tasked ==> s.slots.attribution == Some(q))
  {
    ReachedInv(run);
    var s := Final(Init, run);
    assert Registered(s.slots, s.sends, s.past, q);
    SendersWithinSlot(run, q);
  }

  /** An answered prompt that was neither cancelled nor timed out has its first answer waiting in
      its channel; a wait returns only that answer; and a wait is told that the process died
      only after a cancellation, the end of the reader, or a shutdown. */
  lemma AnswerReachesWaiter(run: seq<Action>, p: Id)
    requires ValidFrom(Init, run) && Final(Init, run).down.Up?
    requires var s := Final(Init, run);
             At(s, p, Returned) && p in s.past.answers && Untouched(s.past, p) && !InHands(s.reader, p)
    ensures var s := Final(Init, run); p in s.slots.chans && s.slots.chans[p] == Sent(s.past.answers[p])
  {
    ReachedInv(run);
  }

  lemma VerdictIsTrue(run: seq<Action>, w: Id)
    requires ValidFrom(Init, run)
    requires var x := Final(Init, run).waits; w in x.pcs && x.pcs[w].Done?
    ensures var s := Final(Init, run);
            && w in s.waits.ids
            && (s.waits.pcs[w].verdict.Got? ==>
                  && s.waits.ids[w] in s.past.answers
                  && s.waits.pcs[w].verdict.answer == s.past.answers[s.waits.ids[w]])
            && (s.waits.pcs[w].verdict.ProcessDied? ==>
                  s.waits.ids[w] in s.past.cancelling || s.past.eof || !s.down.Up?)
  {
    ReachedInv(run);
  }

  /** A finished shutdown leaves nothing behind once no send is in progress, however the sends
      that raced it were interleaved with its clears. */
  lemma ShutdownLeavesNothing(run: seq<Action>)
    requires ValidFrom(Init, run) && Final(Init, run).down.Down?
    requires var s := Final(Init, run); forall p <- s.sends :: !InProgress(s.sends[p])
    ensures var k := Final(Init, run).slots;
            k.slot == None && k.attribution == None && k.senders == {} && k.receivers == {}
  {
    ReachedInv(run);
  }
}
