/** How a permission request of the agent becomes an answer: the event handoff, the wait for a
    decision with its timeout, the race against `resolve`, and the choice of an option. */
module PermissionMediation {
  import opened Common
  import opened Permissions

  // ---- The answer --------------------------------------------------------------------------

  /** A JSON field as the code reads it: missing, of another type, or a string. */
  datatype Field = Absent | Other | Text(text: string)

  datatype Choice = Choice(kind: Field, optionId: Field, id: Field)

  datatype Answer = Selected(option: string) | Cancelled

  function ChoiceId(o: Choice): Option<string> {
    var f := if o.optionId.Absent? then o.id else o.optionId;
    if f.Text? then Some(f.text) else None
  }

  predicate AllowKind(kind: string) {
    "allow_" <= kind || kind == "allow" || kind == "approve"
  }

  predicate DenyKind(kind: string) {
    "deny_" <= kind || kind == "deny" || kind == "cancel" || kind == "reject"
  }

  /** The option carries out the decision and can be named. */
  predicate Carries(o: Choice, d: Decision) {
    && o.kind.Text? && ChoiceId(o).Some?
    && match d
       case Approved => AllowKind(o.kind.text)
       case Denied => DenyKind(o.kind.text)
       case Ask => false
  }

  /** A request without an option array is answered like one without options. */
  function FirstCarrying(options: seq<Choice>, d: Decision): Answer {
    if options == [] then Cancelled
    else if Carries(options[0], d) then Selected(ChoiceId(options[0]).value)
    else FirstCarrying(options[1..], d)
  }

  lemma KindsAreDisjoint(kind: string)
    ensures !(AllowKind(kind) && DenyKind(kind))
  {
    if AllowKind(kind) {
      assert kind[0] == 'a';
    }
  }

  /** The answer names the first option that carries out the decision; an approval never names a
      deny-kind option, a denial never an allow-kind one; it is cancelled exactly when no option
      carries out the decision, and always for Ask. */
  lemma {:induction false} AnswerCarriesDecision(options: seq<Choice>, d: Decision)
    ensures FirstCarrying(options, d).Cancelled? <==> forall i :: 0 <= i < |options| ==> !Carries(options[i], d)
    ensures FirstCarrying(options, d).Selected? ==>
              exists i :: 0 <= i < |options|
                && ChoiceId(options[i]) == Some(FirstCarrying(options, d).option)
                && Carries(options[i], d)
                && (d.Approved? ==> AllowKind(options[i].kind.text) && !DenyKind(options[i].kind.text))
                && (d.Denied? ==> DenyKind(options[i].kind.text) && !AllowKind(options[i].kind.text))
                && (forall j :: 0 <= j < i ==> !Carries(options[j], d))
    ensures d.Ask? ==> FirstCarrying(options, d) == Cancelled
  {
    if options != [] {
      if Carries(options[0], d) {
        KindsAreDisjoint(options[0].kind.text);
      } else {
        AnswerCarriesDecision(options[1..], d);
        if FirstCarrying(options, d).Selected? {
          var i :| 0 <= i < |options[1..]|
            && ChoiceId(options[1..][i]) == Some(FirstCarrying(options, d).option)
            && Carries(options[1..][i], d)
            && (d.Approved? ==> AllowKind(options[1..][i].kind.text) && !DenyKind(options[1..][i].kind.text))
            && (d.Denied? ==> DenyKind(options[1..][i].kind.text) && !AllowKind(options[1..][i].kind.text))
            && (forall j :: 0 <= j < i ==> !Carries(options[1..][j], d));
          assert options[1..][i] == options[i + 1];
          assert forall j :: 0 < j < i + 1 ==> options[j] == options[1..][j - 1];
        }
        assert forall j :: 0 < j < |options| ==> options[j] == options[1..][j - 1];
      }
    }
  }

  // ---- The race ----------------------------------------------------------------------------

  datatype MedPc = Handoff | Await | Expiring | Finished(decision: Decision)

  /** A mediation is the owner of the response channel of the same number. */
  datatype Mediation = Mediation(id: Id, pc: MedPc)

  /** History: whose event was delivered, which registered a channel, and the decision with
      which `resolve` reported Resolved. */
  datatype State = State(
    timeout: Decision, book: Book, meds: map<Id, Mediation>,
    registered: set<Id>, delivered: set<Id>, won: map<Id, Decision>)

  function Init(timeout: Decision): State {
    State(timeout, NoRequests, map[], {}, {}, map[])
  }

  datatype Action =
    | Request(m: Id, id: Id, verdict: Decision, listening: bool)
    | HandoffOk(m: Id) | HandoffFailed(m: Id)
    | TakeDecision(m: Id) | GiveUp(m: Id) | ExpireIt(m: Id)
    | Resolve(id: Id, decision: Decision)

  predicate At(s: State, m: Id, pc: MedPc) {
    m in s.meds && s.meds[m].pc == pc
  }

  predicate Enabled(s: State, a: Action) {
    match a
    case Request(m, _, _, _) => m !in s.meds && m !in s.book.chans
    case HandoffOk(m) => At(s, m, Handoff)
    case HandoffFailed(m) => At(s, m, Handoff)
    case TakeDecision(m) => At(s, m, Await) && m in s.book.chans && s.book.chans[m].Sent?
    case GiveUp(m) => At(s, m, Await) && m in s.book.chans && !s.book.chans[m].Sent?
    case ExpireIt(m) => At(s, m, Expiring)
    case Resolve(_, _) => true
  }

  function SetPc(s: State, m: Id, pc: MedPc): State
    requires m in s.meds
  {
    s.(meds := s.meds[m := s.meds[m].(pc := pc)])
  }

  /** A wait that ends without a decision drops its receiver. */
  function DropReceiver(b: Book, m: Id): Book {
    if m in b.chans && b.chans[m].Open? then b.(chans := b.chans[m := ReceiverGone]) else b
  }

  function DoResolve(s: State, id: Id, d: Decision): State {
    s.(book := ResolveBook(s.book, id, d),
       won := if ResolveReply(s.book, id, d).Resolved? then s.won[s.book.pending[id] := d] else s.won)
  }

  function Do(s: State, a: Action): State
    requires Enabled(s, a)
  {
    match a
    case Request(m, id, verdict, listening) =>
      if !verdict.Ask? then s.(meds := s.meds[m := Mediation(id, Finished(verdict))])
      else if !listening then s.(meds := s.meds[m := Mediation(id, Finished(s.timeout))])
      else s.(meds := s.meds[m := Mediation(id, Handoff)],
              book := Register(s.book, id, m), registered := s.registered + {m})
    case HandoffOk(m) => SetPc(s, m, Await).(delivered := s.delivered + {m})
    case HandoffFailed(m) => SetPc(s, m, Expiring)
    case TakeDecision(m) =>
      var d := s.book.chans[m].decision;
      SetPc(s, m, if d.Ask? then Expiring else Finished(d))
    case GiveUp(m) => SetPc(s.(book := DropReceiver(s.book, m)), m, Expiring)
    case ExpireIt(m) => SetPc(s.(book := Expire(s.book, s.meds[m].id)), m, Finished(s.timeout))
    case Resolve(id, d) => DoResolve(s, id, d)
  }

  predicate ValidFrom(s: State, run: seq<Action>)
    decreases run
  {
    run == [] || (Enabled(s, run[0]) && ValidFrom(Do(s, run[0]), run[1..]))
  }

  function Final(s: State, run: seq<Action>): State
    requires ValidFrom(s, run)
    decreases run
  {
    if run == [] then s else Final(Do(s, run[0]), run[1..])
  }

  ghost predicate PendingOk(s: State) {
    forall id <- s.book.pending ::
      var m := s.book.pending[id];
      && m in s.meds && s.meds[m].id == id && !s.meds[m].pc.Finished?
      && m in s.book.chans && !s.book.chans[m].Sent? && m !in s.won
  }

  /** What holds of a mediation that registered a channel. */
  ghost predicate MedOk(s: State, m: Id, pc: MedPc) {
    && m in s.book.chans
    && (m in s.won ==> s.book.chans[m] == Sent(s.won[m]) && !s.won[m].Ask?)
    && (m !in s.won ==> !s.book.chans[m].Sent?)
    && (pc.Handoff? ==> m !in s.delivered)
    && (pc.Await? ==> m in s.delivered)
    && (pc.Expiring? && m in s.delivered ==> m !in s.won && !s.book.chans[m].Open?)
    && (pc.Finished? ==> pc.decision == if m in s.won && m in s.delivered then s.won[m] else s.timeout)
  }

  ghost predicate SetsOk(s: State) {
    && s.registered <= s.meds.Keys && s.delivered <= s.registered && s.won.Keys <= s.registered
    && s.book.chans.Keys == s.registered
    && (forall m <- s.meds :: !s.meds[m].pc.Finished? ==> m in s.registered)
  }

  ghost predicate MedsOk(s: State) {
    forall m <- s.registered :: m in s.meds && MedOk(s, m, s.meds[m].pc)
  }

  ghost predicate Inv(s: State) {
    PendingOk(s) && SetsOk(s) && MedsOk(s)
  }

  lemma AskInv(s: State, m: Id, id: Id)
    requires Inv(s) && m !in s.meds && m !in s.book.chans
    ensures var t := Do(s, Request(m, id, Ask, true)); PendingOk(t) && SetsOk(t)
  {
  }

  lemma AskMeds(s: State, m: Id, id: Id)
    requires Inv(s) && m !in s.meds && m !in s.book.chans
    ensures MedsOk(Do(s, Request(m, id, Ask, true)))
  {
    var t := Do(s, Request(m, id, Ask, true));
    forall x | x in s.registered ensures MedOk(t, x, t.meds[x].pc) {
      assert MedOk(s, x, s.meds[x].pc);
    }
  }

  lemma RequestInv(s: State, m: Id, id: Id, verdict: Decision, listening: bool)
    requires Inv(s) && Enabled(s, Request(m, id, verdict, listening))
    ensures Inv(Do(s, Request(m, id, verdict, listening)))
  {
    if verdict.Ask? && listening {
      AskInv(s, m, id);
      AskMeds(s, m, id);
    }
  }

  lemma WaitInv(s: State, a: Action)
    requires Inv(s) && Enabled(s, a) && (a.HandoffOk? || a.HandoffFailed? || a.TakeDecision? || a.GiveUp?)
    ensures Inv(Do(s, a))
  {
    assert MedOk(s, a.m, s.meds[a.m].pc);
  }

  lemma ExpireInv(s: State, m: Id)
    requires Inv(s) && Enabled(s, ExpireIt(m))
    ensures Inv(Do(s, ExpireIt(m)))
  {
    assert MedOk(s, m, s.meds[m].pc);
  }

  lemma ResolveInv(s: State, id: Id, d: Decision)
    requires Inv(s)
    ensures Inv(DoResolve(s, id, d))
  {
    if Deliverable(s.book, id) {
      var m := s.book.pending[id];
      assert MedOk(s, m, s.meds[m].pc);
      assert forall i <- s.book.pending :: i != id ==> s.book.pending[i] != m;
    }
  }

  lemma {:induction false} RunInv(s: State, run: seq<Action>)
    requires Inv(s) && ValidFrom(s, run)
    ensures Inv(Final(s, run)) && Final(s, run).timeout == s.timeout
    decreases run
  {
    if run != [] {
      var a := run[0];
      match a {
        case Request(m, id, verdict, listening) => RequestInv(s, m, id, verdict, listening);
        case ExpireIt(m) => ExpireInv(s, m);
        case Resolve(id, d) => ResolveInv(s, id, d);
        case _ => WaitInv(s, a);
      }
      RunInv(Do(s, a), run[1..]);
    }
  }

  /** In every run: a mediation that asked ends with the decision that `resolve` reported as
      Resolved if its event was handed over, and with the timeout decision otherwise. */
  lemma DecisionIsExact(timeout: Decision, run: seq<Action>, m: Id)
    requires ValidFrom(Init(timeout), run)
    requires var s := Final(Init(timeout), run);
             m in s.registered && m in s.meds && s.meds[m].pc.Finished?
    ensures var s := Final(Init(timeout), run);
            s.meds[m].pc.decision == if m in s.won && m in s.delivered then s.won[m] else timeout
  {
    RunInv(Init(timeout), run);
    var s := Final(Init(timeout), run);
    assert MedOk(s, m, s.meds[m].pc);
  }

  /** So a decision reported as Resolved that differs from the timeout decision is honoured if
      and only if the event handoff succeeded. */
  lemma ResolvedHonouredIff(timeout: Decision, run: seq<Action>, m: Id)
    requires ValidFrom(Init(timeout), run)
    requires var s := Final(Init(timeout), run);
             && m in s.registered && m in s.meds && s.meds[m].pc.Finished?
             && m in s.won && s.won[m] != timeout
    ensures var s := Final(Init(timeout), run);
            s.meds[m].pc.decision == s.won[m] <==> m in s.delivered
  {
    DecisionIsExact(timeout, run, m);
  }

  /** Nobody resolves a request before its event was delivered. */
  predicate Prompted(s: State, run: seq<Action>)
    requires ValidFrom(s, run)
    decreases run
  {
    run == [] ||
    (&& (run[0].Resolve? && run[0].id in s.book.pending ==> s.book.pending[run[0].id] in s.delivered)
     && Prompted(Do(s, run[0]), run[1..]))
  }

  lemma {:induction false} PromptedWins(s: State, run: seq<Action>)
    requires ValidFrom(s, run) && Prompted(s, run) && s.won.Keys <= s.delivered
    ensures Final(s, run).won.Keys <= Final(s, run).delivered
    decreases run
  {
    if run != [] {
      PromptedWins(Do(s, run[0]), run[1..]);
    }
  }

  /** One winner, when events come first: the decision of a mediation that asked is the one
      `resolve` reported as Resolved, and the timeout decision if none did. Request ids may
      repeat. */
  lemma RaceHasOneWinner(timeout: Decision, run: seq<Action>, m: Id)
    requires ValidFrom(Init(timeout), run) && Prompted(Init(timeout), run)
    requires var s := Final(Init(timeout), run);
             m in s.registered && m in s.meds && s.meds[m].pc.Finished?
    ensures var s := Final(Init(timeout), run);
            s.meds[m].pc.decision == if m in s.won then s.won[m] else timeout
  {
    DecisionIsExact(timeout, run, m);
    PromptedWins(Init(timeout), run);
  }

  /** Why the event must come first: a resolve that overtakes a failing handoff is reported as
      Resolved while the agent is told the timeout decision. */
  lemma EarlyResolveIsOverruled() returns (run: seq<Action>)
    ensures ValidFrom(Init(Denied), run)
    ensures var s := Final(Init(Denied), run);
            1 in s.won && s.won[1] == Approved && At(s, 1, Finished(Denied))
  {
    run := [Request(1, 9, Ask, true), Resolve(9, Approved), HandoffFailed(1), ExpireIt(1)];
    var s0 := Init(Denied);
    var s1 := Do(s0, run[0]);
    assert s1.book == Book(map[9 := 1], [], map[1 := Open]);
    var s2 := Do(s1, run[1]);
    assert s2.won == map[1 := Approved] && At(s2, 1, Handoff);
    var s3 := Do(s2, run[2]);
    var s4 := Do(s3, run[3]);
    assert run[1..][1..][1..] == [run[3]] && [run[3]][1..] == [];
    assert run[1..][1..] == [run[2], run[3]] && run[1..] == [run[1], run[2], run[3]];
    assert ValidFrom(s3, [run[3]]) && Final(s3, [run[3]]) == s4;
  }
}
