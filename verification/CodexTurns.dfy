/** The Codex websocket adapter: one active-prompt slot, and beside it the id of the turn that the
    peer runs for that prompt. `turn/completed` notifications name a turn; the reader resolves,
    bills and releases the active prompt if the turn is the recorded one. One step is one lock
    scope; the reader keeps the locks of slot and turn id while it handles a completion. The
    model covers a session until its reader leaves its loop or a kill begins. */
module CodexTurns {
  import opened Common

  datatype Slots = Slots(
    slot: Option<Id>, turn: Option<Id>, attribution: Option<Id>, senders: set<Id>, receivers: set<Id>)

  datatype SendPc =
    | SetAttribution | PutSender | PutReceiver | Request | Record(turn: Id)
    | UndoSender | UndoReceiver | UndoSlot | UndoAttribution
    | Returned | Failed | Refused

  datatype WaitPc = TakeReceiver | Parked | ExpireSlot | ExpireSender | Done

  datatype Waits = Waits(ids: map<Id, Id>, pcs: map<Id, WaitPc>)

  /** A `turn/completed` notification; the turn id may be missing. */
  datatype Completion = Completion(turn: Option<Id>, tokens: nat)

  datatype ReaderPc = Listening | Billing(prompt: Id, done: Completion) | Releasing(prompt: Id, done: Completion)

  /** History: prompts with a task to bill, the prompt of each turn the peer started, the turn
      recorded for each prompt, the completion each prompt was resolved with, prompts resolved
      again, tokens billed to each prompt's task, and prompts whose wait timed out. */
  datatype Past = Past(
    tasked: set<Id>, owner: map<Id, Id>, turnOf: map<Id, Id>,
    resolved: map<Id, Completion>, again: set<Id>, bills: map<Id, nat>, expired: set<Id>)

  datatype State = State(slots: Slots, sends: map<Id, SendPc>, waits: Waits, reader: ReaderPc, past: Past)

  const Init: State :=
    State(Slots(None, None, None, {}, {}), map[], Waits(map[], map[]), Listening,
          Past({}, map[], map[], map[], {}, map[], {}))

  datatype Action =
    | Claim(p: Id, tasked: bool) | Register(p: Id)
    | StartTurn(p: Id, t: Id)
    | Accepted(p: Id, t: Id) | Rejected(p: Id)
    | RecordTurn(p: Id) | Undo(p: Id)
    | StartWait(w: Id, p: Id) | Take(w: Id) | Wake(w: Id) | Expire(w: Id) | GiveUp(w: Id)
    | Completed(done: Completion) | Bill | Release

  // ---- Steps -------------------------------------------------------------------------------

  predicate Registering(pc: SendPc) {
    pc.SetAttribution? || pc.PutSender? || pc.PutReceiver?
  }

  predicate Undoing(pc: SendPc) {
    pc.UndoSender? || pc.UndoReceiver? || pc.UndoSlot? || pc.UndoAttribution?
  }

  predicate At(s: State, p: Id, pc: SendPc) {
    p in s.sends && s.sends[p] == pc
  }

  predicate WaitAt(s: State, w: Id, pc: WaitPc) {
    w in s.waits.ids && w in s.waits.pcs && s.waits.pcs[w] == pc
  }

  /** The peer starts turns under fresh ids, reports the id of a turn it started for the request,
      and completes only turns that it started, any number of times. */
  predicate Enabled(s: State, a: Action) {
    match a
    case Claim(p, _) => p !in s.sends && s.reader.Listening?
    case Register(p) => p in s.sends && Registering(s.sends[p])
    case StartTurn(p, t) => At(s, p, Request) && t !in s.past.owner
    case Accepted(p, t) => At(s, p, Request) && t in s.past.owner && s.past.owner[t] == p
    case Rejected(p) => At(s, p, Request)
    case RecordTurn(p) => p in s.sends && s.sends[p].Record? && s.reader.Listening?
    case Undo(p) => p in s.sends && Undoing(s.sends[p]) && (s.sends[p].UndoSlot? ==> s.reader.Listening?)
    case StartWait(w, p) => w !in s.waits.ids && At(s, p, Returned)
    case Take(w) => WaitAt(s, w, TakeReceiver)
    case Wake(w) => WaitAt(s, w, Parked) && s.waits.ids[w] in s.past.resolved
    case Expire(w) => WaitAt(s, w, Parked) && s.waits.ids[w] !in s.past.resolved
    case GiveUp(w) => (WaitAt(s, w, ExpireSlot) && s.reader.Listening?) || WaitAt(s, w, ExpireSender)
    case Completed(done) => s.reader.Listening? && (done.turn.Some? ==> done.turn.value in s.past.owner)
    case Bill => s.reader.Billing?
    case Release => s.reader.Releasing?
  }

  /** `clear_active_prompt_state` with the taking of the turn id that follows it everywhere. */
  function ClearActive(k: Slots, p: Id): Slots {
    if k.slot == Some(p) then k.(slot := None, turn := None) else k
  }

  function SetSend(s: State, p: Id, k: Slots, pc: SendPc): State {
    s.(slots := k, sends := s.sends[p := pc])
  }

  function DoClaim(s: State, p: Id, tasked: bool): State {
    if s.slots.slot.Some? then s.(sends := s.sends[p := Refused])
    else
      s.(slots := s.slots.(slot := Some(p)), sends := s.sends[p := SetAttribution],
         past := s.past.(tasked := if tasked then s.past.tasked + {p} else s.past.tasked))
  }

  function DoRegister(s: State, p: Id): State
    requires p in s.sends && Registering(s.sends[p])
  {
    var k := s.slots;
    match s.sends[p]
    case SetAttribution =>
      SetSend(s, p, k.(attribution := if p in s.past.tasked then Some(p) else None), PutSender)
    case PutSender => SetSend(s, p, k.(senders := k.senders + {p}), PutReceiver)
    case PutReceiver => SetSend(s, p, k.(receivers := k.receivers + {p}), Request)
  }

  function DoRecord(s: State, p: Id): State
    requires p in s.sends && s.sends[p].Record?
  {
    var t := s.sends[p].turn;
    SetSend(s, p, s.slots.(turn := Some(t)), Returned).(past := s.past.(turnOf := s.past.turnOf[p := t]))
  }

  /** `cleanup_prompt_registration`. */
  function DoUndo(s: State, p: Id): State
    requires p in s.sends && Undoing(s.sends[p])
  {
    var k := s.slots;
    match s.sends[p]
    case UndoSender => SetSend(s, p, k.(senders := k.senders - {p}), UndoReceiver)
    case UndoReceiver => SetSend(s, p, k.(receivers := k.receivers - {p}), UndoSlot)
    case UndoSlot => SetSend(s, p, ClearActive(k, p), UndoAttribution)
    case UndoAttribution =>
      SetSend(s, p, if k.attribution == Some(p) then k.(attribution := None) else k, Failed)
  }

  function SetWait(s: State, w: Id, k: Slots, pc: WaitPc): State {
    s.(slots := k, waits := s.waits.(pcs := s.waits.pcs[w := pc]))
  }

  function DoTake(s: State, w: Id): State
    requires w in s.waits.ids
  {
    var p := s.waits.ids[w];
    SetWait(s, w, s.slots.(receivers := s.slots.receivers - {p}), if p in s.slots.receivers then Parked else Done)
  }

  function DoExpire(s: State, w: Id): State
    requires w in s.waits.ids
  {
    SetWait(s, w, s.slots, ExpireSlot).(past := s.past.(expired := s.past.expired + {s.waits.ids[w]}))
  }

  function DoGiveUp(s: State, w: Id): State
    requires w in s.waits.ids && w in s.waits.pcs
  {
    var p := s.waits.ids[w];
    if s.waits.pcs[w].ExpireSlot? then SetWait(s, w, ClearActive(s.slots, p), ExpireSender)
    else SetWait(s, w, s.slots.(senders := s.slots.senders - {p}), Done)
  }

  /** `turn_id_matches`. */
  predicate TurnMatches(active: Option<Id>, completed: Option<Id>) {
    match (active, completed)
    case (None, None) => true
    case (Some(a), Some(c)) => a == c
    case _ => false
  }

  function DoCompleted(s: State, done: Completion): State {
    if s.slots.slot.Some? && TurnMatches(s.slots.turn, done.turn) then
      var p := s.slots.slot.value;
      s.(slots := s.slots.(senders := s.slots.senders - {p}), reader := Billing(p, done),
         past := if p in s.past.resolved then s.past.(again := s.past.again + {p})
                 else s.past.(resolved := s.past.resolved[p := done]))
    else s
  }

  function DoBill(s: State): State
    requires s.reader.Billing?
  {
    var p, done := s.reader.prompt, s.reader.done;
    var t := s.(reader := Releasing(p, done));
    if s.slots.attribution != Some(p) then t
    else
      t.(slots := s.slots.(attribution := None),
         past := if done.tokens > 0 then s.past.(bills := s.past.bills[p := done.tokens]) else s.past)
  }

  function DoRelease(s: State): State
    requires s.reader.Releasing?
  {
    var k := s.slots;
    s.(slots := k.(slot := if k.slot == Some(s.reader.prompt) then None else k.slot, turn := None),
       reader := Listening)
  }

  function Do(s: State, a: Action): State
    requires Enabled(s, a)
  {
    match a
    case Claim(p, tasked) => DoClaim(s, p, tasked)
    case Register(p) => DoRegister(s, p)
    case StartTurn(p, t) => s.(past := s.past.(owner := s.past.owner[t := p]))
    case Accepted(p, t) => s.(sends := s.sends[p := Record(t)])
    case Rejected(p) => s.(sends := s.sends[p := UndoSender])
    case RecordTurn(p) => DoRecord(s, p)
    case Undo(p) => DoUndo(s, p)
    case StartWait(w, p) =>
      s.(waits := Waits(s.waits.ids[w := p], s.waits.pcs[w := TakeReceiver]))
    case Take(w) => DoTake(s, w)
    case Wake(w) => SetWait(s, w, s.slots, Done)
    case Expire(w) => DoExpire(s, w)
    case GiveUp(w) => DoGiveUp(s, w)
    case Completed(done) => DoCompleted(s, done)
    case Bill => DoBill(s)
    case Release => DoRelease(s)
  }

  predicate ValidFrom(s: State, run: seq<Action>)
    decreases run
  {
    run == [] || (Enabled(s, run[0]) && ValidFrom(Do(s, run[0]), run[1..]))
  }

  function Final(s: State, run: seq<Action>): State
    requires ValidFrom(s, run)
    decreases run
  {
    if run == [] then s else Final(Do(s, run[0]), run[1..])
  }

  /** A completion without a turn id arrives only while no prompt is active, or while the turn of
      the active prompt is recorded. */
  predicate Harmless(s: State, a: Action) {
    a.Completed? && a.done.turn.None? ==> s.slots.slot.None? || s.slots.turn.Some?
  }

  predicate AllHarmless(s: State, run: seq<Action>)
    requires ValidFrom(s, run)
    decreases run
  {
    run == [] || (Harmless(s, run[0]) && AllHarmless(Do(s, run[0]), run[1..]))
  }

  // ---- The invariant -----------------------------------------------------------------------

  /** A recorded turn is the one of the slot's prompt. */
  ghost predicate TurnOk(k: Slots, sends: map<Id, SendPc>, past: Past) {
    k.turn.Some? ==>
      && k.slot.Some? && k.slot.value in sends && sends[k.slot.value].Returned?
      && k.slot.value in past.turnOf && past.turnOf[k.slot.value] == k.turn.value
  }

  ghost predicate PastOk(sends: map<Id, SendPc>, past: Past) {
    && (forall p <- past.turnOf :: past.turnOf[p] in past.owner && past.owner[past.turnOf[p]] == p)
    && (forall p <- sends :: sends[p].Record? ==>
          sends[p].turn in past.owner && past.owner[sends[p].turn] == p)
    && (forall p <- past.turnOf :: p in sends && sends[p].Returned?)
    && (forall p <- sends :: sends[p].Returned? ==> p in past.turnOf)
    && (forall p <- past.expired :: p in sends && sends[p].Returned?)
    && past.tasked <= sends.Keys
  }

  predicate InHands(r: ReaderPc, p: Id) {
    !r.Listening? && r.prompt == p
  }

  /** The prompt must still be in the slot: its send has not been undone, its wait has not timed
      out, and no completion has released it. */
  ghost predicate Holds(sends: map<Id, SendPc>, r: ReaderPc, past: Past, p: Id) {
    && p in sends
    && (|| Registering(sends[p]) || sends[p].Request? || sends[p].Record?
        || sends[p].UndoSender? || sends[p].UndoReceiver? || sends[p].UndoSlot?
        || (sends[p].Returned? && p !in past.expired && (p !in past.resolved || InHands(r, p))))
  }

  ghost predicate HoldersOk(k: Slots, sends: map<Id, SendPc>, r: ReaderPc, past: Past) {
    forall p <- sends :: Holds(sends, r, past, p) ==>
      k.slot == Some(p) && (sends[p].Returned? ==> p in past.turnOf && k.turn == Some(past.turnOf[p]))
  }

  predicate SenderPut(pc: SendPc) {
    pc.PutReceiver? || pc.Request? || pc.Record? || pc.Returned?
  }

  ghost predicate SendersOk(k: Slots, sends: map<Id, SendPc>, past: Past) {
    forall p <- sends :: SenderPut(sends[p]) && p !in past.resolved && p !in past.expired ==> p in k.senders
  }

  /** The slot's prompt is unresolved, unless the reader is at it, and has its attribution. */
  ghost predicate SlotOk(k: Slots, sends: map<Id, SendPc>, r: ReaderPc, past: Past) {
    k.slot.Some? ==>
      var p := k.slot.value;
      && p in sends
      && (sends[p].Returned? ==> k.turn.Some?)
      && (p in past.resolved ==> InHands(r, p))
      && (p in past.tasked && p !in past.resolved && (sends[p].PutSender? || SenderPut(sends[p])) ==>
            k.attribution == Some(p))
  }

  /** What the reader is handling is the slot's prompt and its turn. */
  ghost predicate ReaderOk(k: Slots, sends: map<Id, SendPc>, r: ReaderPc, past: Past) {
    !r.Listening? ==>
      && k.slot == Some(r.prompt) && k.turn.Some? && r.done.turn == k.turn
      && r.prompt in past.resolved && past.resolved[r.prompt] == r.done
      && (r.Billing? ==> r.prompt !in past.bills && (r.prompt in past.tasked ==> k.attribution == Some(r.prompt)))
  }

  ghost predicate BilledRight(past: Past, p: Id) {
    && p in past.resolved
    && (p in past.bills <==> p in past.tasked && past.resolved[p].tokens > 0)
    && (p in past.bills ==> past.bills[p] == past.resolved[p].tokens)
  }

  ghost predicate BooksOk(sends: map<Id, SendPc>, r: ReaderPc, past: Past) {
    && past.again == {}
    && past.bills.Keys <= past.resolved.Keys
    && (forall p <- past.resolved ::
          && p in sends && sends[p].Returned? && p in past.turnOf
          && past.resolved[p].turn == Some(past.turnOf[p])
          && (!(r.Billing? && r.prompt == p) ==> BilledRight(past, p)))
  }

  /** The attribution belongs to a prompt with a task. */
  ghost predicate AttributionOk(k: Slots, past: Past) {
    k.attribution.Some? ==> k.attribution.value in past.tasked
  }

  ghost predicate WaitsOk(sends: map<Id, SendPc>, x: Waits, past: Past) {
    && x.ids.Keys == x.pcs.Keys
    && (forall w <- x.ids ::
          && x.ids[w] in sends && sends[x.ids[w]].Returned?
          && (x.pcs[w].ExpireSlot? || x.pcs[w].ExpireSender? ==> x.ids[w] in past.expired))
  }

  ghost predicate RouteInv(s: State) {
    && TurnOk(s.slots, s.sends, s.past)
    && PastOk(s.sends, s.past)
    && HoldersOk(s.slots, s.sends, s.reader, s.past)
    && SlotOk(s.slots, s.sends, s.reader, s.past)
    && ReaderOk(s.slots, s.sends, s.reader, s.past)
  }

  ghost predicate BookInv(s: State) {
    && SendersOk(s.slots, s.sends, s.past)
    && BooksOk(s.sends, s.reader, s.past)
    && AttributionOk(s.slots, s.past)
    && WaitsOk(s.sends, s.waits, s.past)
  }

  ghost predicate Inv(s: State) {
    RouteInv(s) && BookInv(s)
  }

  // ---- Every step keeps it -----------------------------------------------------------------

  lemma ClaimKeepsRoute(s: State, p: Id, tasked: bool)
    requires Inv(s) && Enabled(s, Claim(p, tasked))
    ensures RouteInv(Do(s, Claim(p, tasked)))
  {
  }

  lemma ClaimKeepsBook(s: State, p: Id, tasked: bool)
    requires BookInv(s) && Enabled(s, Claim(p, tasked))
    ensures BookInv(Do(s, Claim(p, tasked)))
  {
  }

  lemma RegisterKeepsRoute(s: State, p: Id)
    requires RouteInv(s) && Enabled(s, Register(p))
    ensures RouteInv(Do(s, Register(p)))
  {
  }

  lemma RegisterKeepsBook(s: State, p: Id)
    requires BookInv(s) && Enabled(s, Register(p))
    ensures BookInv(Do(s, Register(p)))
  {
  }

  lemma StartTurnKeeps(s: State, p: Id, t: Id)
    requires Inv(s) && Enabled(s, StartTurn(p, t))
    ensures Inv(Do(s, StartTurn(p, t)))
  {
  }

  lemma AcceptedKeeps(s: State, p: Id, t: Id)
    requires Inv(s) && Enabled(s, Accepted(p, t))
    ensures Inv(Do(s, Accepted(p, t)))
  {
  }

  lemma RejectedKeeps(s: State, p: Id)
    requires Inv(s) && Enabled(s, Rejected(p))
    ensures Inv(Do(s, Rejected(p)))
  {
  }

  lemma RecordTurnKeeps(s: State, p: Id)
    requires Inv(s) && Enabled(s, RecordTurn(p))
    ensures Inv(Do(s, RecordTurn(p)))
  {
  }

  lemma UndoKeepsHolders(s: State, p: Id)
    requires RouteInv(s) && Enabled(s, Undo(p))
    ensures HoldersOk(DoUndo(s, p).slots, DoUndo(s, p).sends, s.reader, s.past)
  {
  }

  lemma UndoKeepsRoute(s: State, p: Id)
    requires RouteInv(s) && Enabled(s, Undo(p))
    ensures RouteInv(Do(s, Undo(p)))
  {
    UndoKeepsHolders(s, p);
  }

  lemma UndoKeepsBook(s: State, p: Id)
    requires BookInv(s) && Enabled(s, Undo(p))
    ensures BookInv(Do(s, Undo(p)))
  {
  }

  lemma TakeKeeps(s: State, w: Id)
    requires Inv(s) && Enabled(s, Take(w))
    ensures Inv(Do(s, Take(w)))
  {
  }

  lemma ExpireKeepsRoute(s: State, w: Id)
    requires RouteInv(s) && BookInv(s) && Enabled(s, Expire(w))
    ensures RouteInv(Do(s, Expire(w)))
  {
  }

  lemma ExpireKeepsBook(s: State, w: Id)
    requires BookInv(s) && Enabled(s, Expire(w))
    ensures BookInv(Do(s, Expire(w)))
  {
  }

  lemma GiveUpKeeps(s: State, w: Id)
    requires Inv(s) && Enabled(s, GiveUp(w))
    ensures Inv(Do(s, GiveUp(w)))
  {
  }

  lemma CompletedKeeps(s: State, done: Completion)
    requires Inv(s) && Enabled(s, Completed(done)) && Harmless(s, Completed(done))
    ensures Inv(Do(s, Completed(done)))
  {
  }

  lemma BillKeepsRoute(s: State)
    requires RouteInv(s) && Enabled(s, Bill)
    ensures RouteInv(Do(s, Bill))
  {
  }

  lemma BillKeepsBook(s: State)
    requires Inv(s) && Enabled(s, Bill)
    ensures BookInv(Do(s, Bill))
  {
  }

  lemma ReleaseKeeps(s: State)
    requires Inv(s) && Enabled(s, Release)
    ensures Inv(Do(s, Release))
  {
  }

  lemma WaitingKeeps(s: State, a: Action)
    requires Inv(s) && Enabled(s, a) && (a.StartWait? || a.Wake?)
    ensures Inv(Do(s, a))
  {
  }

  lemma StepInv(s: State, a: Action)
    requires Inv(s) && Enabled(s, a) && Harmless(s, a)
    ensures Inv(Do(s, a))
  {
    match a
    case Claim(p, tasked) =>
      ClaimKeepsRoute(s, p, tasked);
      ClaimKeepsBook(s, p, tasked);
    case Register(p) =>
      RegisterKeepsRoute(s, p);
      RegisterKeepsBook(s, p);
    case StartTurn(p, t) => StartTurnKeeps(s, p, t);
    case Accepted(p, t) => AcceptedKeeps(s, p, t);
    case Rejected(p) => RejectedKeeps(s, p);
    case RecordTurn(p) => RecordTurnKeeps(s, p);
    case Undo(p) =>
      UndoKeepsRoute(s, p);
      UndoKeepsBook(s, p);
    case Take(w) => TakeKeeps(s, w);
    case Expire(w) =>
      ExpireKeepsRoute(s, w);
      ExpireKeepsBook(s, w);
    case GiveUp(w) => GiveUpKeeps(s, w);
    case Completed(done) => CompletedKeeps(s, done);
    case Bill =>
      BillKeepsRoute(s);
      BillKeepsBook(s);
    case Release => ReleaseKeeps(s);
    case _ => WaitingKeeps(s, a);
  }

  lemma {:induction false} RunInv(s: State, run: seq<Action>)
    requires Inv(s) && ValidFrom(s, run) && AllHarmless(s, run)
    ensures Inv(Final(s, run))
    decreases run
  {
    if run != [] {
      StepInv(s, run[0]);
      RunInv(Do(s, run[0]), run[1..]);
    }
  }

  lemma ReachedInv(run: seq<Action>)
    requires ValidFrom(Init, run) && AllHarmless(Init, run)
    ensures Inv(Final(Init, run))
  {
    RunInv(Init, run);
  }

  // ---- What holds unless a nameless completion does harm -----------------------------------

  /** The active turn id always belongs to the active prompt. */
  lemma ActiveTurnIsThePrompts(run: seq<Action>)
    requires ValidFrom(Init, run) && AllHarmless(Init, run) && Final(Init, run).slots.turn.Some?
    ensures var s := Final(Init, run);
            s.slots.turn.value in s.past.owner && s.slots.slot == Some(s.past.owner[s.slots.turn.value])
  {
    ReachedInv(run);
  }

  /** A prompt is resolved at most once, by the completion of a turn of its own, and its task is
      billed the tokens of that completion: once, if it has a task and the tokens are not 0. */
  lemma ResolvedAndBilledByOwnTurn(run: seq<Action>, p: Id)
    requires ValidFrom(Init, run) && AllHarmless(Init, run) && p in Final(Init, run).past.resolved
    ensures var s := Final(Init, run);
            && s.past.again == {}
            && s.past.resolved[p].turn.Some? && s.past.resolved[p].turn.value in s.past.owner
            && s.past.owner[s.past.resolved[p].turn.value] == p
            && ((s.reader.Billing? && s.reader.prompt == p) || BilledRight(s.past, p))
  {
    ReachedInv(run);
  }

  /** Nothing is billed to a prompt that no completion resolved. */
  lemma BillsAreResolved(run: seq<Action>)
    requires ValidFrom(Init, run) && AllHarmless(Init, run)
    ensures Final(Init, run).past.bills.Keys <= Final(Init, run).past.resolved.Keys
  {
    ReachedInv(run);
  }

  /** A prompt whose send returned, with no completion of its recorded turn handled and its wait
      not timed out, keeps slot, turn id, sender and attribution, whatever completions of
      earlier turns arrived. */
  lemma CurrentPromptIntact(run: seq<Action>, q: Id)
    requires ValidFrom(Init, run) && AllHarmless(Init, run) && At(Final(Init, run), q, Returned)
    requires q !in Final(Init, run).past.resolved && q !in Final(Init, run).past.expired
    ensures var s := Final(Init, run);
            && s.slots.slot == Some(q) && q in s.past.turnOf && s.slots.turn == Some(s.past.turnOf[q])
            && q in s.slots.senders
            && (q in s.past.tasked ==> s.slots.attribution == Some(q))
  {
    ReachedInv(run);
    assert Holds(Final(Init, run).sends, Final(Init, run).reader, Final(Init, run).past, q);
  }

  /** A completion has an effect exactly if its turn is the recorded one, and then the prompt it
      resolves is its turn's. One that arrives before `send_prompt` recorded the turn is dropped. */
  lemma CompletionHandledIffRecorded(run: seq<Action>, t: Id, tokens: nat)
    requires ValidFrom(Init, run) && AllHarmless(Init, run)
    requires Enabled(Final(Init, run), Completed(Completion(Some(t), tokens)))
    ensures var s := Final(Init, run);
            var e := Do(s, Completed(Completion(Some(t), tokens)));
            && (e == s <==> s.slots.turn != Some(t))
            && (e != s ==> e.reader == Billing(s.past.owner[t], Completion(Some(t), tokens)))
  {
    ReachedInv(run);
  }

  // ---- A completion without a turn id ------------------------------------------------------

  /** A nameless completion resolves the active prompt exactly while the turn of that prompt is
      not recorded yet; the prompt then is one whose send has not returned. */
  lemma NamelessResolvesIffUnrecorded(run: seq<Action>, tokens: nat)
    requires ValidFrom(Init, run) && AllHarmless(Init, run) && Final(Init, run).reader.Listening?
    ensures var s := Final(Init, run);
            var e := Do(s, Completed(Completion(None, tokens)));
            && (e != s <==> s.slots.slot.Some? && s.slots.turn.None?)
            && (e != s ==> e.reader.Billing? && e.reader.prompt in s.sends && e.reader.prompt !in s.past.turnOf)
  {
    ReachedInv(run);
  }

  lemma {:induction false} Extend(s: State, run: seq<Action>, a: Action)
    requires ValidFrom(s, run) && Enabled(Final(s, run), a)
    ensures ValidFrom(s, run + [a]) && Final(s, run + [a]) == Do(Final(s, run), a)
    ensures AllHarmless(s, run) && Harmless(Final(s, run), a) ==> AllHarmless(s, run + [a])
    decreases run
  {
    if run == [] {
      assert run + [a] == [a] && [a][1..] == [];
    } else {
      assert (run + [a])[1..] == run[1..] + [a];
      Extend(Do(s, run[0]), run[1..], a);
    }
  }

  lemma Then(run: seq<Action>, s: State, a: Action) returns (longer: seq<Action>, next: State)
    requires ValidFrom(Init, run) && AllHarmless(Init, run) && s == Final(Init, run)
    requires Enabled(s, a) && Harmless(s, a)
    ensures ValidFrom(Init, longer) && AllHarmless(Init, longer) && next == Final(Init, longer) && next == Do(s, a)
  {
    Extend(Init, run, a);
    longer, next := run + [a], Do(s, a);
  }

  /** The first prompt, waiting for the answer to its `turn/start`, with its past as given. */
  function FirstAt(pc: SendPc, turn: Option<Id>, past: Past): State {
    State(Slots(Some(1), turn, None, {1}, {1}), map[1 := pc], Waits(map[], map[]), Listening, past)
  }

  const NoPast: Past := Past({}, map[], map[], map[], {}, map[], {})

  lemma FirstPromptRequested() returns (run: seq<Action>, s: State)
    ensures ValidFrom(Init, run) && AllHarmless(Init, run) && s == Final(Init, run)
    ensures s == FirstAt(Request, None, NoPast)
  {
    run, s := [], Init;
    run, s := Then(run, s, Claim(1, false));
    run, s := Then(run, s, Register(1));
    run, s := Then(run, s, Register(1));
    run, s := Then(run, s, Register(1));
  }

  lemma FirstPromptReturns() returns (run: seq<Action>, s: State)
    ensures ValidFrom(Init, run) && AllHarmless(Init, run) && s == Final(Init, run)
    ensures s == FirstAt(Returned, Some(10), NoPast.(owner := map[10 := 1], turnOf := map[1 := 10]))
  {
    run, s := FirstPromptRequested();
    run, s := Then(run, s, StartTurn(1, 10));
    run, s := Then(run, s, Accepted(1, 10));
    run, s := Then(run, s, RecordTurn(1));
  }

  lemma FirstPromptAwaited() returns (run: seq<Action>, s: State)
    ensures ValidFrom(Init, run) && AllHarmless(Init, run) && s == Final(Init, run)
    ensures s == State(Slots(Some(1), Some(10), None, {1}, {}), map[1 := Returned], Waits(map[0 := 1], map[0 := Parked]),
                       Listening, NoPast.(owner := map[10 := 1], turnOf := map[1 := 10]))
  {
    run, s := FirstPromptReturns();
    run, s := Then(run, s, StartWait(0, 1));
    run, s := Then(run, s, Take(0));
  }

  lemma FirstPromptTimesOut() returns (run: seq<Action>, s: State)
    ensures ValidFrom(Init, run) && AllHarmless(Init, run) && s == Final(Init, run)
    ensures s == State(Slots(None, None, None, {}, {}), map[1 := Returned], Waits(map[0 := 1], map[0 := Done]), Listening,
                       NoPast.(owner := map[10 := 1], turnOf := map[1 := 10], expired := {1}))
  {
    run, s := FirstPromptAwaited();
    run, s := Then(run, s, Expire(0));
    run, s := Then(run, s, GiveUp(0));
    run, s := Then(run, s, GiveUp(0));
  }

  /** So the turn ids are needed. A first prompt's wait has timed out, and a second prompt waits
      for the answer to its `turn/start`; a nameless completion of the first prompt's turn
      resolves the second prompt, for which the peer has not started any turn. */
  lemma NamelessCompletionMisroutes() returns (run: seq<Action>, s: State)
    ensures ValidFrom(Init, run) && s == Final(Init, run)
    ensures 2 in s.past.resolved && s.past.owner == map[10 := 1]
  {
    run, s := FirstPromptTimesOut();
    run, s := Then(run, s, Claim(2, false));
    run, s := Then(run, s, Register(2));
    run, s := Then(run, s, Register(2));
    run, s := Then(run, s, Register(2));
    Extend(Init, run, Completed(Completion(None, 5)));
    run, s := run + [Completed(Completion(None, 5))], Do(s, Completed(Completion(None, 5)));
  }
}
