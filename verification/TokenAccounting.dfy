/** Token accounting of an ACP session. The reader task takes usage updates (a running maximum)
    and prompt results (a wrapping sum) one after the other; each is charged to a task, that of
    the prompt that holds the attribution. Senders, cancellations and timeouts set and clear the
    attribution in between. One step is one atomic update or lock scope. */
module TokenAccounting {
  import opened Common

  datatype Attribution = Attribution(prompt: Id, task: Id, used: nat)

  /** Where the reader is inside `record_usage_update_tokens` or `record_prompt_result_tokens`. */
  datatype ReaderPc =
    | Idle
    | Attributing(delta: nat)
    | Settling(prompt: Id, tokens: nat)
    | Persisting(charge: Charge)

  /** One call of `record_task_token_usage`; the prompt is noted beside it. */
  datatype Charge = Charge(task: Id, prompt: Id, delta: nat)

  /** What a prompt that settled had used and what its result claimed. */
  datatype Settlement = Settlement(usage: nat, result: nat)

  /** History. `baseline`: the usage maximum already accounted for when the present attribution
      was set. `attributed`, `lost`: usage increases that found an attribution, or none.
      `results`, `missed`: result tokens recorded, and those whose prompt had lost its
      attribution. `topUps`: charged on settling. `settledUse`, `settledResults`: totals over
      settled prompts. */
  datatype Books = Books(
    started: set<Id>, baseline: nat, attributed: nat, lost: nat, results: nat, missed: nat,
    topUps: nat, settledUse: nat, settledResults: nat, settled: map<Id, Settlement>)

  datatype State = State(
    attribution: Option<Attribution>, usageMax: nat, resultSum: nat, reader: ReaderPc,
    charges: seq<Charge>, books: Books)

  const Init: State := State(None, 0, 0, Idle, [], Books({}, 0, 0, 0, 0, 0, 0, 0, 0, map[]))

  datatype Action =
    | SetAttribution(prompt: Id, task: Option<Id>)
    | ClearAttribution(prompt: Id)
    | TakeAttribution
    | Usage(level: nat)
    | Attribute
    | Result(prompt: Id, tokens: Option<nat>)
    | Settle
    | Persist

  function SessionTokensUsed(s: State): nat {
    Max(s.resultSum, s.usageMax)
  }

  /** Tokens are 64-bit; a prompt id is attributed once. */
  predicate Enabled(s: State, a: Action) {
    match a
    case SetAttribution(p, _) => p !in s.books.started
    case ClearAttribution(_) => true
    case TakeAttribution => true
    case Usage(t) => s.reader.Idle? && t <= U64_MAX
    case Attribute => s.reader.Attributing?
    case Result(_, t) => s.reader.Idle? && (t.Some? ==> t.value <= U64_MAX)
    case Settle => s.reader.Settling?
    case Persist => s.reader.Persisting?
  }

  /** The part of the usage maximum not yet offered to an attribution. */
  function InFlight(r: ReaderPc): nat {
    if r.Attributing? then r.delta else 0
  }

  function DoSet(s: State, p: Id, task: Option<Id>): State {
    s.(attribution := if task.Some? then Some(Attribution(p, task.value, 0)) else None,
       books := s.books.(started := s.books.started + {p},
                         baseline := SaturatingSub(s.usageMax, InFlight(s.reader))))
  }

  function DoAttribute(s: State): State
    requires s.reader.Attributing?
  {
    var delta := s.reader.delta;
    if s.attribution.None? then s.(reader := Idle, books := s.books.(lost := s.books.lost + delta))
    else
      var a := s.attribution.value;
      s.(attribution := Some(a.(used := SaturatingAdd(a.used, delta))),
         reader := Persisting(Charge(a.task, a.prompt, delta)),
         books := s.books.(attributed := s.books.attributed + delta))
  }

  function DoResult(s: State, p: Id, tokens: Option<nat>): State {
    var t := if tokens.Some? then tokens.value else 0;
    s.(resultSum := WrappingAdd(s.resultSum, t), reader := Settling(p, t),
       books := s.books.(results := s.books.results + t))
  }

  function DoSettle(s: State): State
    requires s.reader.Settling?
  {
    var p, t := s.reader.prompt, s.reader.tokens;
    var b := s.books;
    if s.attribution.None? || s.attribution.value.prompt != p then
      s.(reader := Idle, books := b.(missed := b.missed + t))
    else
      var a := s.attribution.value;
      var delta := SaturatingSub(t, a.used);
      s.(attribution := None,
         reader := if delta > 0 then Persisting(Charge(a.task, p, delta)) else Idle,
         books := b.(topUps := b.topUps + delta, settledUse := b.settledUse + a.used,
                     settledResults := b.settledResults + t,
                     settled := b.settled[p := Settlement(SaturatingSub(s.usageMax, b.baseline), t)]))
  }

  function Do(s: State, a: Action): State
    requires Enabled(s, a)
  {
    match a
    case SetAttribution(p, task) => DoSet(s, p, task)
    case ClearAttribution(p) =>
      if s.attribution.Some? && s.attribution.value.prompt == p then s.(attribution := None) else s
    case TakeAttribution => s.(attribution := None)
    case Usage(t) =>
      s.(usageMax := Max(s.usageMax, t),
         reader := if t > s.usageMax then Attributing(t - s.usageMax) else Idle)
    case Attribute => DoAttribute(s)
    case Result(p, t) => DoResult(s, p, t)
    case Settle => DoSettle(s)
    case Persist => s.(charges := s.charges + [s.reader.charge], reader := Idle)
  }

  predicate ValidFrom(s: State, run: seq<Action>)
    decreases run
  {
    run == [] || (Enabled(s, run[0]) && ValidFrom(Do(s, run[0]), run[1..]))
  }

  function Final(s: State, run: seq<Action>): State
    requires ValidFrom(s, run)
    decreases run
  {
    if run == [] then s else Final(Do(s, run[0]), run[1..])
  }

  // ---- Sums over the charges ---------------------------------------------------------------

  function Total(charges: seq<Charge>): nat {
    if charges == [] then 0 else Total(charges[..|charges| - 1]) + charges[|charges| - 1].delta
  }

  function ChargedFor(charges: seq<Charge>, p: Id): nat {
    if charges == [] then 0
    else
      var last := charges[|charges| - 1];
      ChargedFor(charges[..|charges| - 1], p) + if last.prompt == p then last.delta else 0
  }

  lemma SumsGrow(charges: seq<Charge>, c: Charge)
    ensures Total(charges + [c]) == Total(charges) + c.delta
    ensures forall p :: ChargedFor(charges + [c], p) == ChargedFor(charges, p) + if c.prompt == p then c.delta else 0
  {
    assert (charges + [c])[..|charges|] == charges;
  }

  /** The charge the reader has decided on and not yet persisted. */
  function Owed(r: ReaderPc): nat {
    if r.Persisting? then r.charge.delta else 0
  }

  function OwedFor(r: ReaderPc, p: Id): nat {
    if r.Persisting? && r.charge.prompt == p then r.charge.delta else 0
  }

  // ---- Invariants --------------------------------------------------------------------------

  /** The usage maximum is what was attributed, lost or is in flight; the charges are what was
      attributed plus the top-ups. */
  ghost predicate Balanced(s: State) {
    var b := s.books;
    && s.usageMax <= U64_MAX
    && b.attributed + b.lost + InFlight(s.reader) == s.usageMax
    && Total(s.charges) + Owed(s.reader) == b.attributed + b.topUps
    && (s.reader.Attributing? ==> s.reader.delta > 0)
  }

  /** Each result raised the total of results to at most what its prompt was charged. */
  ghost predicate ResultsCovered(s: State) {
    var b := s.books;
    && s.resultSum == b.results % 0x1_0000_0000_0000_0000
    && b.results == b.missed + b.settledResults + (if s.reader.Settling? then s.reader.tokens else 0)
    && b.settledResults <= b.topUps + b.settledUse
    && b.topUps <= b.settledResults
    && b.settledUse + (if s.attribution.Some? then s.attribution.value.used else 0) <= b.attributed
  }

  /** The present attribution has used exactly the rise of the usage maximum since it was set,
      and was charged just that. */
  ghost predicate Attributed(s: State) {
    && (forall c <- s.charges :: c.prompt in s.books.started)
    && (s.reader.Persisting? ==> s.reader.charge.prompt in s.books.started)
    && s.books.settled.Keys <= s.books.started
    && (s.attribution.Some? ==>
          var a := s.attribution.value;
          && a.prompt in s.books.started && a.prompt !in s.books.settled
          && s.books.baseline + a.used + InFlight(s.reader) == s.usageMax
          && ChargedFor(s.charges, a.prompt) + OwedFor(s.reader, a.prompt) == a.used)
  }

  ghost predicate SettledRight(s: State) {
    forall p <- s.books.settled ::
      ChargedFor(s.charges, p) + OwedFor(s.reader, p) == Max(s.books.settled[p].usage, s.books.settled[p].result)
  }

  ghost predicate Inv(s: State) {
    Balanced(s) && ResultsCovered(s) && Attributed(s) && SettledRight(s)
  }

  lemma UnchargedIsZero(charges: seq<Charge>, p: Id)
    requires forall c <- charges :: c.prompt != p
    ensures ChargedFor(charges, p) == 0
  {
  }

  lemma SetInv(s: State, p: Id, task: Option<Id>)
    requires Inv(s) && p !in s.books.started
    ensures Inv(DoSet(s, p, task))
  {
    UnchargedIsZero(s.charges, p);
  }

  /** The addition of a delta never saturates: what a prompt used is part of the usage maximum. */
  lemma AttributeNeverSaturates(s: State)
    requires Inv(s) && s.reader.Attributing? && s.attribution.Some?
    ensures s.attribution.value.used + s.reader.delta <= U64_MAX
  {
  }

  lemma AttributeInv(s: State)
    requires Inv(s) && s.reader.Attributing?
    ensures Inv(DoAttribute(s))
  {
    if s.attribution.Some? {
      AttributeNeverSaturates(s);
    }
  }

  lemma WrapStep(total: nat, t: nat)
    ensures WrappingAdd(total % 0x1_0000_0000_0000_0000, t) == (total + t) % 0x1_0000_0000_0000_0000
  {
  }

  lemma ResultInv(s: State, p: Id, tokens: Option<nat>)
    requires Inv(s) && s.reader.Idle?
    ensures Inv(DoResult(s, p, tokens))
  {
    WrapStep(s.books.results, if tokens.Some? then tokens.value else 0);
  }

  lemma SettleInv(s: State)
    requires Inv(s) && s.reader.Settling?
    ensures Inv(DoSettle(s))
  {
  }

  lemma PersistInv(s: State)
    requires Inv(s) && Enabled(s, Persist)
    ensures Inv(Do(s, Persist))
  {
    SumsGrow(s.charges, s.reader.charge);
  }

  lemma StepInv(s: State, a: Action)
    requires Inv(s) && Enabled(s, a)
    ensures Inv(Do(s, a))
  {
    match a
    case SetAttribution(p, task) => SetInv(s, p, task);
    case Attribute => AttributeInv(s);
    case Result(p, t) => ResultInv(s, p, t);
    case Settle => SettleInv(s);
    case Persist => PersistInv(s);
    case _ =>
  }

  lemma {:induction false} RunInv(s: State, run: seq<Action>)
    requires Inv(s) && ValidFrom(s, run)
    ensures Inv(Final(s, run))
    decreases run
  {
    if run != [] {
      StepInv(s, run[0]);
      RunInv(Do(s, run[0]), run[1..]);
    }
  }

  // ---- Conservation ------------------------------------------------------------------------

  lemma InitBalanced()
    ensures Balanced(Init)
  {
  }

  lemma InitRest()
    ensures ResultsCovered(Init) && Attributed(Init) && SettledRight(Init)
  {
  }

  /** The `saturating_add` on the attributed amount never saturates. */
  lemma AdditionNeverSaturates(run: seq<Action>)
    requires ValidFrom(Init, run)
    requires Final(Init, run).reader.Attributing? && Final(Init, run).attribution.Some?
    ensures Final(Init, run).attribution.value.used + Final(Init, run).reader.delta <= U64_MAX
  {
    InitBalanced();
    InitRest();
    RunInv(Init, run);
    AttributeNeverSaturates(Final(Init, run));
  }

  lemma StateBounds(s: State)
    requires Inv(s)
    ensures Total(s.charges) <= s.usageMax + s.books.results
    ensures s.reader.Idle? ==> WithinTwice(s)
  {
    assert s.resultSum <= s.books.results;
  }

  lemma StateAddsUp(s: State)
    requires Inv(s) && s.reader.Idle?
    ensures ChargesAddUp(s)
  {
  }

  /** In every run, at every moment, tasks have been charged at most the usage maximum plus the
      sum of the result tokens. */
  lemma NeverOvercharged(run: seq<Action>)
    requires ValidFrom(Init, run)
    ensures Total(Final(Init, run).charges) <= Final(Init, run).usageMax + Final(Init, run).books.results
  {
    InitBalanced();
    InitRest();
    RunInv(Init, run);
    StateBounds(Final(Init, run));
  }

  /** When the reader is idle, the charges are the usage that found an attribution plus what
      settling prompts topped up; the rest of the usage maximum was lost. */
  ghost predicate ChargesAddUp(s: State) {
    && Total(s.charges) == s.books.attributed + s.books.topUps
    && s.usageMax == s.books.attributed + s.books.lost
    && s.books.results == s.books.settledResults + s.books.missed
    && s.books.topUps <= s.books.settledResults <= s.books.topUps + s.books.attributed
  }

  lemma ChargesBalance(run: seq<Action>)
    requires ValidFrom(Init, run) && Final(Init, run).reader.Idle?
    ensures ChargesAddUp(Final(Init, run))
  {
    InitBalanced();
    InitRest();
    RunInv(Init, run);
    StateAddsUp(Final(Init, run));
  }

  /** If no usage increase and no result missed its attribution, the total charged is at least
      `session_tokens_used`; while the result sum fits in 64 bits it is at most twice that. */
  ghost predicate WithinTwice(s: State) {
    && (s.books.lost == 0 && s.books.missed == 0 ==> SessionTokensUsed(s) <= Total(s.charges))
    && (s.books.results <= U64_MAX ==> Total(s.charges) <= 2 * SessionTokensUsed(s))
  }

  lemma ChargedWithinTwice(run: seq<Action>)
    requires ValidFrom(Init, run) && Final(Init, run).reader.Idle?
    ensures WithinTwice(Final(Init, run))
  {
    InitBalanced();
    InitRest();
    RunInv(Init, run);
    StateBounds(Final(Init, run));
  }

  ghost predicate SettledExactly(s: State, p: Id) {
    p in s.books.settled && ChargedFor(s.charges, p) == Max(s.books.settled[p].usage, s.books.settled[p].result)
  }

  lemma StateSettled(s: State, p: Id)
    requires Inv(s) && s.reader.Idle? && p in s.books.settled
    ensures SettledExactly(s, p)
  {
  }

  /** A prompt that settled with its attribution intact has charged its task exactly the larger
      of the rise of the usage maximum during the prompt and its result tokens. */
  lemma SettlementIsExact(run: seq<Action>, p: Id)
    requires ValidFrom(Init, run) && Final(Init, run).reader.Idle? && p in Final(Init, run).books.settled
    ensures SettledExactly(Final(Init, run), p)
  {
    InitBalanced();
    InitRest();
    RunInv(Init, run);
    StateSettled(Final(Init, run), p);
  }

  /** The result counter wraps: two results of 2^63 tokens are charged in full while the session
      reports none, so the upper bound does need the sum to fit. */
  lemma WrapHidesTokens() returns (run: seq<Action>)
    ensures ValidFrom(Init, run)
    ensures var s := Final(Init, run);
            && s.reader.Idle? && s.books.lost == 0 && s.books.missed == 0
            && SessionTokensUsed(s) == 0 && Total(s.charges) == U64_MAX + 1
  {
    var half := 0x8000_0000_0000_0000;
    var one := SettleOnce(Init, 1, half);
    var s := Final(Init, one);
    var two := SettleOnce(s, 2, half);
    run := one + two;
    Concat(Init, one, two);
  }

  /** No usage was reported and every result was settled. */
  ghost predicate OnlyResults(s: State) {
    s.reader.Idle? && s.usageMax == 0 && s.books.missed == 0
  }

  ghost predicate BoundExact(s: State) {
    && Total(s.charges) == s.books.results
    && (Total(s.charges) <= 2 * SessionTokensUsed(s) <==> s.books.results <= U64_MAX)
  }

  lemma StateBoundIff(s: State)
    requires Inv(s) && OnlyResults(s)
    ensures BoundExact(s)
  {
    assert s.resultSum <= U64_MAX;
  }

  /** Without usage updates and with every result settled, everything charged is results; so the
      upper bound holds if and only if their sum fits in 64 bits. */
  lemma UpperBoundIff(run: seq<Action>)
    requires ValidFrom(Init, run) && OnlyResults(Final(Init, run))
    ensures BoundExact(Final(Init, run))
  {
    InitBalanced();
    InitRest();
    RunInv(Init, run);
    StateBoundIff(Final(Init, run));
  }

  /** Every sum is reached by such a run. */
  lemma {:induction false} SettleSum(n: nat) returns (run: seq<Action>, prompts: nat)
    ensures ValidFrom(Init, run)
    ensures var e := Final(Init, run);
            && OnlyResults(e) && e.books.results == n
            && (forall p <- e.books.started :: p < prompts)
    decreases n
  {
    if n == 0 {
      run, prompts := [], 0;
    } else {
      var t := if n <= U64_MAX then n else U64_MAX;
      var first, k := SettleSum(n - t);
      var more := SettleOnce(Final(Init, first), k, t);
      run, prompts := first + more, k + 1;
      Concat(Init, first, more);
    }
  }

  /** So the bound on the sum is exact: for every sum above 2^64 - 1 some run breaks the upper
      bound. */
  lemma EveryLargerSumBreaks(n: nat) returns (run: seq<Action>)
    requires n > U64_MAX
    ensures ValidFrom(Init, run)
    ensures var s := Final(Init, run);
            s.reader.Idle? && s.books.results == n && Total(s.charges) > 2 * SessionTokensUsed(s)
  {
    var k;
    run, k := SettleSum(n);
    UpperBoundIff(run);
  }

  lemma {:induction false} Concat(s: State, a: seq<Action>, b: seq<Action>)
    requires ValidFrom(s, a) && ValidFrom(Final(s, a), b)
    ensures ValidFrom(s, a + b) && Final(s, a + b) == Final(Final(s, a), b)
    decreases a
  {
    if a == [] {
      assert a + b == b;
    } else {
      assert (a + b)[1..] == a[1..] + b;
      Concat(Do(s, a[0]), a[1..], b);
    }
  }

  /** One attributed prompt answered with `t` tokens and no usage update. */
  lemma SettleOnce(s: State, p: Id, t: nat) returns (run: seq<Action>)
    requires s.reader.Idle? && p !in s.books.started && 0 < t <= U64_MAX && s.usageMax == 0
    ensures ValidFrom(s, run)
    ensures var e := Final(s, run);
            && e.reader.Idle? && e.usageMax == 0 && e.resultSum == WrappingAdd(s.resultSum, t)
            && Total(e.charges) == Total(s.charges) + t
            && e.books.lost == s.books.lost && e.books.missed == s.books.missed
            && e.books.results == s.books.results + t
            && e.books.started == s.books.started + {p}
  {
    var s1 := Do(s, SetAttribution(p, Some(0)));
    var s2 := Do(s1, Result(p, Some(t)));
    var s3 := Do(s2, Settle);
    assert s3.reader == Persisting(Charge(0, p, t));
    SumsGrow(s.charges, s3.reader.charge);
    run := [SetAttribution(p, Some(0)), Result(p, Some(t)), Settle, Persist];
    assert run[1..] == [Result(p, Some(t)), Settle, Persist];
    assert run[1..][1..] == [Settle, Persist];
    assert run[1..][1..][1..] == [Persist];
    assert [Persist][1..] == [];
    assert ValidFrom(s3, [Persist]) && Final(s3, [Persist]) == Do(s3, Persist);
    assert ValidFrom(s2, [Settle, Persist]) && Final(s2, [Settle, Persist]) == Do(s3, Persist);
  }
}
