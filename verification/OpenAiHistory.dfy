/** The message history of the OpenAI-compatible adapter: a vector trimmed after every append, and
    turns that append to it one at a time under the turn lock, each ending anywhere when its
    task fails or is aborted. */
module OpenAiHistory {
  import opened Common
  import TomlText

  const MAX_HISTORY_MESSAGES: nat := 60
  const MAX_TOOL_ROUNDS: nat := 24

  /** `System` is the first message of a session; tool calls and replies carry the call's id. */
  datatype Message =
    | System(prompt: string)
    | User(content: string)
    | Assistant(text: string, calls: seq<Id>)
    | Tool(call: Id, output: string)

  // ---- Trimming ----------------------------------------------------------------------------

  function Trim(ms: seq<Message>): seq<Message> {
    if |ms| <= MAX_HISTORY_MESSAGES then ms
    else if ms[0].System? then [ms[0]] + ms[|ms| - (MAX_HISTORY_MESSAGES - 1)..]
    else ms[|ms| - MAX_HISTORY_MESSAGES..]
  }

  /** What the vector holds after appending the messages of `log` one by one. */
  function Appended(log: seq<Message>): seq<Message>
    decreases |log|
  {
    if log == [] then [] else Trim(Appended(log[..|log| - 1]) + [log[|log| - 1]])
  }

  lemma TrimStep(log: seq<Message>, m: Message)
    requires log != [] && (log[0].System? || forall x <- log :: !x.System?) && !m.System?
    ensures Trim(Trim(log) + [m]) == Trim(log + [m])
  {
    if |log| > MAX_HISTORY_MESSAGES {
      var keep := if log[0].System? then MAX_HISTORY_MESSAGES - 1 else MAX_HISTORY_MESSAGES;
      var tail := log[|log| - keep..];
      assert Trim(log) == (if log[0].System? then [log[0]] else []) + tail;
      assert (tail + [m])[1..] == (log + [m])[|log| + 1 - keep..];
      if log[0].System? {
        assert (Trim(log) + [m])[2..] == (tail + [m])[1..];
      } else {
        assert !tail[0].System?;
        assert (Trim(log) + [m])[1..] == (tail + [m])[1..];
      }
    }
  }

  /** Trimming after every append amounts to trimming the full log once: the system message,
      if there is one, followed by the last entries. */
  lemma {:induction false} TrimmedIncrementally(log: seq<Message>)
    requires forall i :: 0 < i < |log| ==> !log[i].System?
    ensures Appended(log) == Trim(log)
    decreases |log|
  {
    if log != [] {
      var n := |log| - 1;
      TrimmedIncrementally(log[..n]);
      assert log[..n] + [log[n]] == log;
      if n > 0 {
        assert log[0].System? || forall x <- log[..n] :: !x.System?;
        TrimStep(log[..n], log[n]);
      }
    }
  }

  // ---- What a turn looks like --------------------------------------------------------------

  /** A round: the assistant's message and one reply per tool call. */
  datatype Round = Round(text: string, calls: seq<Id>, outputs: seq<string>)

  predicate RoundOk(r: Round) {
    |r.outputs| == |r.calls|
  }

  ghost function Replies(calls: seq<Id>, outputs: seq<string>): seq<Message>
    requires |outputs| == |calls|
  {
    if calls == [] then [] else [Tool(calls[0], outputs[0])] + Replies(calls[1..], outputs[1..])
  }

  ghost function Rendered(rounds: seq<Round>): seq<Message>
    requires forall r <- rounds :: RoundOk(r)
  {
    if rounds == [] then []
    else
      assert RoundOk(rounds[0]);
      [Assistant(rounds[0].text, rounds[0].calls)] + Replies(rounds[0].calls, rounds[0].outputs) + Rendered(rounds[1..])
  }

  /** At most 24 rounds, each but the last with tool calls. */
  ghost predicate RoundsOk(rounds: seq<Round>, limit: nat) {
    && |rounds| <= limit
    && (forall r <- rounds :: RoundOk(r))
    && (forall i :: 0 <= i < |rounds| - 1 ==> rounds[i].calls != [])
  }

  /** A well-formed turn: the user's message and a series of rounds that ends with an assistant
      message without tool calls, or with the last round allowed. */
  ghost predicate IsTurn(ms: seq<Message>) {
    exists content, rounds :: Complete(rounds, MAX_TOOL_ROUNDS) && ms == [User(content)] + Rendered(rounds)
  }

  /** The rounds left when `limit` are allowed, up to an answer or the limit. */
  ghost predicate Complete(rounds: seq<Round>, limit: nat) {
    && RoundsOk(rounds, limit)
    && (|rounds| == limit || (rounds != [] && rounds[|rounds| - 1].calls == []))
  }

  ghost predicate BeginsTurn(ms: seq<Message>) {
    exists rest :: IsTurn(ms + rest)
  }

  /** Where a turn stands after some messages. */
  datatype Standing =
    | Unopened
    | Asking(rounds: nat)
    | Replying(rounds: nat, calls: seq<Id>)
    | Answered
    | Malformed

  function Next(s: Standing, m: Message): Standing {
    match (s, m)
    case (Unopened, User(_)) => Asking(0)
    case (Asking(n), Assistant(_, calls)) =>
      if n >= MAX_TOOL_ROUNDS then Malformed
      else if calls == [] then Answered
      else Replying(n + 1, calls)
    case (Replying(n, calls), Tool(c, _)) =>
      if calls == [] || calls[0] != c then Malformed
      else if |calls| == 1 then Asking(n)
      else Replying(n, calls[1..])
    case (_, _) => Malformed
  }

  function Follow(s: Standing, ms: seq<Message>): Standing
    decreases |ms|
  {
    if ms == [] then s else Follow(Next(s, ms[0]), ms[1..])
  }

  lemma {:induction false} FollowAppend(s: Standing, ms: seq<Message>, m: Message)
    ensures Follow(s, ms + [m]) == Next(Follow(s, ms), m)
    decreases |ms|
  {
    if ms == [] {
      assert ms + [m] == [m] && [m][1..] == [];
    } else {
      assert (ms + [m])[1..] == ms[1..] + [m];
      FollowAppend(Next(s, ms[0]), ms[1..], m);
    }
  }

  lemma {:induction false} FollowConcat(s: Standing, a: seq<Message>, b: seq<Message>)
    ensures Follow(s, a + b) == Follow(Follow(s, a), b)
    decreases |a|
  {
    if a == [] {
      assert a + b == b;
    } else {
      assert (a + b)[1..] == a[1..] + b;
      FollowConcat(Next(s, a[0]), a[1..], b);
    }
  }

  lemma {:induction false} MalformedStays(ms: seq<Message>)
    ensures Follow(Malformed, ms) == Malformed
    decreases |ms|
  {
    if ms != [] {
      MalformedStays(ms[1..]);
    }
  }

  lemma {:induction false} FollowReplies(n: nat, calls: seq<Id>, outputs: seq<string>)
    requires calls != [] && |outputs| == |calls|
    ensures Follow(Replying(n, calls), Replies(calls, outputs)) == Asking(n)
    decreases |calls|
  {
    var rest := Replies(calls[1..], outputs[1..]);
    assert Replies(calls, outputs)[1..] == rest;
    if |calls| > 1 {
      FollowReplies(n, calls[1..], outputs[1..]);
    }
  }

  lemma {:induction false} FollowRendered(n: nat, rounds: seq<Round>)
    requires n <= MAX_TOOL_ROUNDS && RoundsOk(rounds, MAX_TOOL_ROUNDS - n)
    ensures Follow(Asking(n), Rendered(rounds)) != Malformed
    decreases |rounds|
  {
    if rounds != [] {
      var r := rounds[0];
      assert RoundOk(r);
      var replies := Replies(r.calls, r.outputs);
      assert Rendered(rounds)[1..] == replies + Rendered(rounds[1..]);
      if r.calls == [] {
        assert rounds[1..] == [];
      } else {
        FollowReplies(n + 1, r.calls, r.outputs);
        FollowConcat(Replying(n + 1, r.calls), replies, Rendered(rounds[1..]));
        FollowRendered(n + 1, rounds[1..]);
      }
    }
  }

  /** Splits off the replies to `calls`, filling in those that are missing at the end. */
  lemma {:induction false} SplitReplies(n: nat, calls: seq<Id>, ms: seq<Message>)
    returns (outputs: seq<string>, fill: seq<Message>, tail: seq<Message>)
    requires calls != [] && Follow(Replying(n, calls), ms) != Malformed
    ensures |outputs| == |calls| && ms + fill == Replies(calls, outputs) + tail
    ensures |tail| <= |ms| && Follow(Asking(n), tail) != Malformed
    decreases |calls|
  {
    if ms == [] {
      outputs := seq(|calls|, _ => "");
      fill, tail := Replies(calls, outputs), [];
    } else {
      if Next(Replying(n, calls), ms[0]) == Malformed {
        MalformedStays(ms[1..]);
      }
      assert ms == [Tool(calls[0], ms[0].output)] + ms[1..];
      if |calls| == 1 {
        outputs, fill, tail := [ms[0].output], [], ms[1..];
        assert Replies(calls, outputs) == [Tool(calls[0], ms[0].output)];
      } else {
        var more;
        more, fill, tail := SplitReplies(n, calls[1..], ms[1..]);
        outputs := [ms[0].output] + more;
        assert outputs[1..] == more;
        assert ms + fill == [ms[0]] + (Replies(calls[1..], more) + tail);
      }
    }
  }

  /** Completes a series of rounds that is right so far. */
  lemma {:induction false} FinishRounds(n: nat, ms: seq<Message>) returns (rounds: seq<Round>, rest: seq<Message>)
    requires n <= MAX_TOOL_ROUNDS && Follow(Asking(n), ms) != Malformed
    ensures Complete(rounds, MAX_TOOL_ROUNDS - n) && ms + rest == Rendered(rounds)
    decreases |ms|
  {
    if ms == [] {
      rounds := if n == MAX_TOOL_ROUNDS then [] else [Round("", [], [])];
      rest := Rendered(rounds);
    } else {
      if Next(Asking(n), ms[0]) == Malformed {
        MalformedStays(ms[1..]);
      }
      var calls := ms[0].calls;
      if calls == [] {
        if ms[1..] != [] {
          MalformedStays(ms[1..][1..]);
        }
        rounds, rest := [Round(ms[0].text, [], [])], [];
        assert Rendered(rounds) == [ms[0]];
      } else {
        var outputs, fill, tail := SplitReplies(n + 1, calls, ms[1..]);
        var later, more := FinishRounds(n + 1, tail);
        rounds, rest := [Round(ms[0].text, calls, outputs)] + later, fill + more;
        assert rounds[1..] == later;
        assert ms + rest == [ms[0]] + (ms[1..] + fill) + more;
        assert [ms[0]] + (Replies(calls, outputs) + tail) + more == [ms[0]] + Replies(calls, outputs) + (tail + more);
      }
    }
  }

  /** The automaton accepts exactly the beginnings of well-formed turns. */
  lemma FollowsIffBeginsTurn(ms: seq<Message>)
    ensures Follow(Unopened, ms) != Malformed <==> BeginsTurn(ms)
  {
    if Follow(Unopened, ms) != Malformed {
      var content := if ms != [] && ms[0].User? then ms[0].content else "";
      if ms != [] && !ms[0].User? {
        MalformedStays(ms[1..]);
      }
      var rounds, rest := FinishRounds(0, if ms == [] then [] else ms[1..]);
      var more := if ms == [] then [User(content)] + rest else rest;
      assert ms + more == [User(content)] + Rendered(rounds);
      assert IsTurn(ms + more);
    }
    if BeginsTurn(ms) {
      var rest :| IsTurn(ms + rest);
      var content, rounds :| Complete(rounds, MAX_TOOL_ROUNDS) && ms + rest == [User(content)] + Rendered(rounds);
      FollowRendered(0, rounds);
      assert (ms + rest)[1..] == Rendered(rounds);
      FollowConcat(Unopened, ms, rest);
      if Follow(Unopened, ms) == Malformed {
        MalformedStays(rest);
      }
    }
  }

  // ---- One session, changed in place -------------------------------------------------------

  /** What a request for the next assistant message comes to. */
  datatype Response = RequestFailed | Message(text: string, calls: seq<Id>)

  datatype Outcome = NotRunning | Failure | Success(text: string) | ToolLoopExceeded | Aborted

  ghost function Outputs(calls: seq<Id>, tool: Id -> string): seq<string> {
    seq(|calls|, i requires 0 <= i < |calls| => tool(calls[i]))
  }

  /** What an assistant message adds to the answer: its text trimmed, on a line of its own. */
  function Said(text: string): string {
    var said := TomlText.Trim(text);
    if said == "" then "" else said + "\n"
  }

  /** The log and the outcome when a turn whose log so far is `log` and answer `said` goes on with
      round `n` and nobody aborts it. */
  ghost function Play(log: seq<Message>, responses: nat -> Response, tool: Id -> string, n: nat, said: string): (seq<Message>, Outcome)
    decreases MAX_TOOL_ROUNDS - n, |log|
  {
    if n >= MAX_TOOL_ROUNDS then (log, ToolLoopExceeded)
    else if responses(n).RequestFailed? then (log, Failure)
    else
      var calls := responses(n).calls;
      var answered := log + [Assistant(responses(n).text, calls)];
      var more := said + Said(responses(n).text);
      if calls == [] then (answered, Success(more))
      else Play(answered + Replies(calls, Outputs(calls, tool)), responses, tool, n + 1, more)
  }

  predicate StandsRight(s: Standing, outcome: Outcome) {
    match outcome
    case Success(_) => s == Answered
    case ToolLoopExceeded => s == Asking(MAX_TOOL_ROUNDS)
    case Failure => s.Asking? && s.rounds < MAX_TOOL_ROUNDS
    case NotRunning => s == Unopened
    case Aborted => s != Malformed && s != Answered
  }

  /** The log with one round appended. */
  ghost function WithRound(log: seq<Message>, r: Response, tool: Id -> string): seq<Message>
    requires r.Message?
  {
    log + [Assistant(r.text, r.calls)] + Replies(r.calls, Outputs(r.calls, tool))
  }

  lemma PlayRound(log: seq<Message>, responses: nat -> Response, tool: Id -> string, n: nat, said: string)
    requires n < MAX_TOOL_ROUNDS && responses(n).Message?
    ensures var r := responses(n);
            Play(log, responses, tool, n, said) ==
            if r.calls == [] then (WithRound(log, r, tool), Success(said + Said(r.text)))
            else Play(WithRound(log, r, tool), responses, tool, n + 1, said + Said(r.text))
  {
    if responses(n).calls == [] {
      assert WithRound(log, responses(n), tool) == log + [Assistant(responses(n).text, [])];
    }
  }

  ghost predicate Begins(part: seq<Message>, whole: seq<Message>) {
    |part| <= |whole| && whole[..|part|] == part
  }

  lemma BeginsThrough(a: seq<Message>, b: seq<Message>, c: seq<Message>)
    requires Begins(a, b) && Begins(b, c)
    ensures Begins(a, c)
  {
    assert c[..|a|] == c[..|b|][..|a|];
  }

  lemma RoundBegins(log: seq<Message>, r: Response, tool: Id -> string)
    requires r.Message?
    ensures Begins(log, WithRound(log, r, tool)) && |log| < |WithRound(log, r, tool)|
  {
  }

  /** Where a round that was asked for leaves the turn. */
  lemma RoundStands(turn: seq<Message>, r: Response, tool: Id -> string, n: nat)
    requires n < MAX_TOOL_ROUNDS && Follow(Unopened, turn) == Asking(n) && r.Message?
    ensures Follow(Unopened, WithRound(turn, r, tool)) == if r.calls == [] then Answered else Asking(n + 1)
  {
    var answer := Assistant(r.text, r.calls);
    FollowAppend(Unopened, turn, answer);
    if r.calls == [] {
      assert WithRound(turn, r, tool) == turn + [answer];
    } else {
      FollowReplies(n + 1, r.calls, Outputs(r.calls, tool));
      FollowConcat(Unopened, turn + [answer], Replies(r.calls, Outputs(r.calls, tool)));
    }
  }

  lemma RoundBehind(before: seq<Message>, turn: seq<Message>, r: Response, tool: Id -> string)
    requires r.Message?
    ensures WithRound(before + turn, r, tool) == before + WithRound(turn, r, tool)
  {
  }

  ghost predicate StandsBehind(before: seq<Message>, turn: seq<Message>, after: seq<Message>, outcome: Outcome) {
    && |before| + |turn| <= |after| && after[..|before|] == before && !outcome.Aborted?
    && StandsRight(Follow(Unopened, after[|before|..]), outcome)
  }

  lemma TurnBehind(before: seq<Message>, turn: seq<Message>, outcome: Outcome)
    requires StandsRight(Follow(Unopened, turn), outcome) && !outcome.Aborted?
    ensures StandsBehind(before, turn, before + turn, outcome)
  {
    assert (before + turn)[|before|..] == turn;
  }

  /** Where a played turn stands at its end: answered, out of rounds, or waiting for an answer. */
  lemma {:induction false} PlayStands(before: seq<Message>, turn: seq<Message>, responses: nat -> Response, tool: Id -> string, n: nat, said: string)
    requires n <= MAX_TOOL_ROUNDS && Follow(Unopened, turn) == Asking(n)
    ensures var (after, outcome) := Play(before + turn, responses, tool, n, said);
            StandsBehind(before, turn, after, outcome)
    decreases MAX_TOOL_ROUNDS - n
  {
    if n == MAX_TOOL_ROUNDS {
      TurnBehind(before, turn, ToolLoopExceeded);
    } else if responses(n).RequestFailed? {
      TurnBehind(before, turn, Failure);
    } else {
      var next := WithRound(turn, responses(n), tool);
      var more := said + Said(responses(n).text);
      RoundStands(turn, responses(n), tool, n);
      RoundBehind(before, turn, responses(n), tool);
      PlayRound(before + turn, responses, tool, n, said);
      if responses(n).calls == [] {
        TurnBehind(before, next, Success(more));
      } else {
        PlayStands(before, next, responses, tool, n + 1, more);
      }
    }
  }

  /** Playing on only appends. */
  lemma {:induction false} PlayExtends(log: seq<Message>, responses: nat -> Response, tool: Id -> string, n: nat, said: string)
    ensures Begins(log, Play(log, responses, tool, n, said).0)
    decreases MAX_TOOL_ROUNDS - n
  {
    if n < MAX_TOOL_ROUNDS && responses(n).Message? {
      RoundExtends(log, responses, tool, n, said);
    } else {
      assert log[..|log|] == log;
    }
  }

  /** What a round appends is part of what is played. */
  lemma {:induction false} RoundExtends(log: seq<Message>, responses: nat -> Response, tool: Id -> string, n: nat, said: string)
    requires n < MAX_TOOL_ROUNDS && responses(n).Message?
    ensures Begins(log, Play(log, responses, tool, n, said).0)
    ensures Begins(WithRound(log, responses(n), tool), Play(log, responses, tool, n, said).0)
    decreases MAX_TOOL_ROUNDS - n, 0
  {
    var next := WithRound(log, responses(n), tool);
    PlayRound(log, responses, tool, n, said);
    RoundBegins(log, responses(n), tool);
    if responses(n).calls == [] {
      assert next[..|next|] == next;
    } else {
      PlayExtends(next, responses, tool, n + 1, said + Said(responses(n).text));
    }
    BeginsThrough(log, next, Play(log, responses, tool, n, said).0);
  }

  /** The log and outcome of a turn aborted once its log is `limit` long, if it would get longer. */
  ghost predicate CutAt(full: seq<Message>, whole: Outcome, limit: nat, log: seq<Message>, outcome: Outcome) {
    if |full| <= limit then log == full && outcome == whole else log == full[..limit] && outcome == Aborted
  }

  lemma CutBefore(full: seq<Message>, whole: Outcome, log: seq<Message>, next: seq<Message>)
    requires |log| < |next| && Begins(log, next) && Begins(next, full)
    ensures CutAt(full, whole, |log|, log, Aborted)
  {
    BeginsThrough(log, next, full);
  }

  /** Every part of a turn that is right is right. */
  lemma CutStands(turn: seq<Message>, k: nat)
    requires k < |turn| && Follow(Unopened, turn) != Malformed
    ensures Follow(Unopened, turn[..k]) != Malformed && Follow(Unopened, turn[..k]) != Answered
  {
    assert turn == turn[..k] + turn[k..];
    FollowConcat(Unopened, turn[..k], turn[k..]);
    if Follow(Unopened, turn[..k]) == Malformed || Follow(Unopened, turn[..k]) == Answered {
      MalformedStays(turn[k..]);
      MalformedStays(turn[k..][1..]);
    }
  }

  lemma {:induction false} RepliesAt(calls: seq<Id>, outputs: seq<string>, i: nat)
    requires |outputs| == |calls|
    ensures |Replies(calls, outputs)| == |calls|
    ensures i < |calls| ==> Replies(calls, outputs)[i] == Tool(calls[i], outputs[i])
    decreases |calls|
  {
    if calls != [] {
      RepliesAt(calls[1..], outputs[1..], if i == 0 then 0 else i - 1);
    }
  }

  class Session {
    var alive: bool
    var messages: seq<Message>
    ghost var log: seq<Message>

    ghost predicate Valid()
      reads this
    {
      && log != [] && log[0].System? && (forall i :: 0 < i < |log| ==> !log[i].System?)
      && messages == Trim(log)
    }

    constructor (system: string)
      ensures Valid() && alive && log == [System(system)]
    {
      alive := true;
      messages := [System(system)];
      log := [System(system)];
    }

    method TrimMessages()
      modifies this`messages
      ensures messages == Trim(old(messages))
    {
      if |messages| <= MAX_HISTORY_MESSAGES {
        return;
      }
      var keepTail := MAX_HISTORY_MESSAGES;
      var trimmed := [];
      if messages[0].System? {
        keepTail := keepTail - 1;
        trimmed := [messages[0]];
      }
      messages := trimmed + messages[|messages| - keepTail..];
    }

    method AppendMessage(m: Message)
      requires Valid() && !m.System?
      modifies this`messages, this`log
      ensures Valid() && log == old(log) + [m]
    {
      TrimStep(log, m);
      messages := messages + [m];
      TrimMessages();
      log := log + [m];
    }

    /** `run_prompt`, aborted if it comes to append more than `patience` messages: it appends the
        user's message and the rounds that the responses and tools make, or as much of that as
        there is patience for; and what it appended stands as its outcome says. */
    method RunPrompt(content: string, responses: nat -> Response, tool: Id -> string, patience: nat) returns (outcome: Outcome)
      requires Valid()
      modifies this`messages, this`log
      ensures Valid()
      ensures alive ==>
                var (full, whole) := Play(old(log) + [User(content)], responses, tool, 0, "");
                CutAt(full, whole, |old(log)| + patience, log, outcome)
      ensures !alive ==> log == old(log) && outcome == NotRunning
      ensures |old(log)| <= |log| && log[..|old(log)|] == old(log)
      ensures StandsRight(Follow(Unopened, log[|old(log)|..]), outcome)
    {
      if !alive {
        return NotRunning;
      }
      ghost var before, first := log, [User(content)];
      assert first[1..] == [];
      PlayStands(before, first, responses, tool, 0, "");
      if patience == 0 {
        return Aborted;
      }
      AppendMessage(User(content));
      outcome := RunRounds(responses, tool, patience - 1);
      ghost var full := Play(before + first, responses, tool, 0, "").0;
      if |full| > |before| + patience {
        assert full[|before|..][..patience] == log[|before|..];
        CutStands(full[|before|..], patience);
      }
    }

    method RunRounds(responses: nat -> Response, tool: Id -> string, patience: nat) returns (outcome: Outcome)
      requires Valid()
      modifies this`messages, this`log
      ensures Valid()
      ensures var (full, whole) := Play(old(log), responses, tool, 0, "");
              CutAt(full, whole, |old(log)| + patience, log, outcome)
    {
      ghost var limit := |log| + patience;
      ghost var target := Play(log, responses, tool, 0, "");
      var left := patience;
      var said := "";
      var round := 0;
      while round < MAX_TOOL_ROUNDS
        invariant 0 <= round <= MAX_TOOL_ROUNDS && Valid() && |log| + left == limit
        invariant target == Play(log, responses, tool, round, said)
      {
        var response := responses(round);
        if response.RequestFailed? {
          return Failure;
        }
        ghost var next := WithRound(log, response, tool);
        PlayRound(log, responses, tool, round, said);
        RoundExtends(log, responses, tool, round, said);
        var aborted;
        left, aborted := AppendRound(response, tool, left);
        if aborted {
          CutBefore(target.0, target.1, log, next);
          return Aborted;
        }
        said := said + Said(response.text);
        if response.calls == [] {
          return Success(said);
        }
        round := round + 1;
      }
      return ToolLoopExceeded;
    }

    /** One round: the assistant's message, then the tools it calls. */
    method AppendRound(response: Response, tool: Id -> string, patience: nat) returns (left: nat, aborted: bool)
      requires Valid() && response.Message?
      modifies this`messages, this`log
      ensures Valid()
      ensures var next := WithRound(old(log), response, tool);
              if aborted then |log| == |old(log)| + patience < |next| && Begins(log, next)
              else log == next && left + |next| == |old(log)| + patience
    {
      RoundBegins(log, response, tool);
      if patience == 0 {
        return 0, true;
      }
      AppendMessage(Assistant(response.text, response.calls));
      left, aborted := RunTools(response.calls, tool, patience - 1);
    }

    method RunTools(calls: seq<Id>, tool: Id -> string, patience: nat) returns (left: nat, aborted: bool)
      requires Valid()
      modifies this`messages, this`log
      ensures Valid()
      ensures var replies := Replies(calls, Outputs(calls, tool));
              if aborted then |replies| > patience && log == old(log) + replies[..patience]
              else left + |replies| == patience && log == old(log) + replies
    {
      ghost var replies := Replies(calls, Outputs(calls, tool));
      RepliesAt(calls, Outputs(calls, tool), 0);
      left := patience;
      var i := 0;
      while i < |calls|
        invariant 0 <= i <= |calls| && Valid() && left + i == patience
        invariant log == old(log) + replies[..i]
      {
        if left == 0 {
          return left, true;
        }
        RepliesAt(calls, Outputs(calls, tool), i);
        AppendMessage(Tool(calls[i], tool(calls[i])));
        assert replies[..i + 1] == replies[..i] + [replies[i]];
        left := left - 1;
        i := i + 1;
      }
      assert replies[..i] == replies;
      aborted := false;
    }
  }

  // ---- Turns under the turn lock -----------------------------------------------------------

  /** A message and the prompt that appended it. */
  datatype Entry = Entry(prompt: Id, message: Message)

  datatype Pc = Queued | Opening | Running(at: Standing) | Ended

  /** `log` is the full history after the system message; `spans` says which part of it each
      prompt appended. */
  datatype State = State(
    alive: bool, holder: Option<Id>, pcs: map<Id, Pc>, messages: seq<Message>,
    log: seq<Entry>, spans: map<Id, (nat, nat)>)

  function Init(system: string): State {
    State(true, None, map[], [System(system)], [], map[])
  }

  datatype Action =
    | Submit(p: Id)
    | Acquire(p: Id)
    | Open(p: Id, content: string)
    | Answer(p: Id, text: string, calls: seq<Id>)
    | Reply(p: Id, output: string)
    | Fail(p: Id)
    | Abort(p: Id)
    | Die

  predicate At(s: State, p: Id, pc: Pc) {
    p in s.pcs && s.pcs[p] == pc
  }

  predicate IsAsking(s: State, p: Id) {
    p in s.pcs && s.pcs[p].Running? && s.pcs[p].at.Asking?
  }

  predicate IsReplying(s: State, p: Id) {
    p in s.pcs && s.pcs[p].Running? && s.pcs[p].at.Replying? && s.pcs[p].at.calls != []
  }

  /** `Fail`: the request or its answer failed, or the rounds are used up. `Abort`: the turn is
      stopped at an await point. */
  predicate Enabled(s: State, a: Action) {
    match a
    case Submit(p) => p !in s.pcs
    case Acquire(p) => At(s, p, Queued) && s.holder.None?
    case Open(p, _) => At(s, p, Opening)
    case Answer(p, _, _) => IsAsking(s, p) && s.pcs[p].at.rounds < MAX_TOOL_ROUNDS
    case Reply(p, _) => IsReplying(s, p)
    case Fail(p) => IsAsking(s, p)
    case Abort(p) => p in s.pcs
    case Die => true
  }

  /** The turn ends; its guard on the turn lock is dropped. */
  function End(s: State, p: Id): State {
    s.(pcs := s.pcs[p := Ended], holder := if s.holder == Some(p) then None else s.holder)
  }

  function Append(s: State, p: Id, m: Message): State {
    s.(messages := Trim(s.messages + [m]), log := s.log + [Entry(p, m)],
       spans := s.spans[p := (if p in s.spans then s.spans[p].0 else |s.log|, |s.log| + 1)])
  }

  function DoAnswer(s: State, p: Id, text: string, calls: seq<Id>): State
    requires IsAsking(s, p)
  {
    var t := Append(s, p, Assistant(text, calls));
    if calls == [] then End(t, p) else t.(pcs := s.pcs[p := Running(Replying(s.pcs[p].at.rounds + 1, calls))])
  }

  function DoReply(s: State, p: Id, output: string): State
    requires IsReplying(s, p)
  {
    var at := s.pcs[p].at;
    Append(s, p, Tool(at.calls[0], output))
      .(pcs := s.pcs[p := Running(if |at.calls| == 1 then Asking(at.rounds) else Replying(at.rounds, at.calls[1..]))])
  }

  function Do(s: State, a: Action): State
    requires Enabled(s, a)
  {
    match a
    case Submit(p) => s.(pcs := s.pcs[p := Queued])
    case Acquire(p) => if s.alive then s.(holder := Some(p), pcs := s.pcs[p := Opening]) else End(s, p)
    case Open(p, content) => Append(s, p, User(content)).(pcs := s.pcs[p := Running(Asking(0))])
    case Answer(p, text, calls) => DoAnswer(s, p, text, calls)
    case Reply(p, output) => DoReply(s, p, output)
    case Fail(p) => End(s, p)
    case Abort(p) => End(s, p)
    case Die => s.(alive := false)
  }

  predicate ValidFrom(s: State, run: seq<Action>)
    decreases run
  {
    run == [] || (Enabled(s, run[0]) && ValidFrom(Do(s, run[0]), run[1..]))
  }

  function Final(s: State, run: seq<Action>): State
    requires ValidFrom(s, run)
    decreases run
  {
    if run == [] then s else Final(Do(s, run[0]), run[1..])
  }

  ghost function Messages(log: seq<Entry>): seq<Message> {
    seq(|log|, i requires 0 <= i < |log| => log[i].message)
  }

  // ---- The invariant -----------------------------------------------------------------------

  /** `[a, b)` is just where the entries of `p` are. */
  ghost predicate IsSpan(log: seq<Entry>, p: Id, a: nat, b: nat) {
    a <= b <= |log| && forall i :: 0 <= i < |log| ==> (log[i].prompt == p <==> a <= i < b)
  }

  ghost predicate SpansOk(log: seq<Entry>, spans: map<Id, (nat, nat)>) {
    && (forall p <- spans :: IsSpan(log, p, spans[p].0, spans[p].1))
    && (forall e <- log :: e.prompt in spans)
  }

  ghost function Block(s: State, p: Id): seq<Message>
    requires SpansOk(s.log, s.spans) && p in s.spans
  {
    Messages(s.log[s.spans[p].0..s.spans[p].1])
  }

  ghost predicate PcOk(s: State, p: Id)
    requires SpansOk(s.log, s.spans) && p in s.pcs
  {
    match s.pcs[p]
    case Queued => p !in s.spans && s.holder != Some(p)
    case Opening => p !in s.spans && s.holder == Some(p)
    case Running(at) =>
      && s.holder == Some(p) && p in s.spans && s.spans[p].1 == |s.log|
      && Follow(Unopened, Block(s, p)) == at && (at.Asking? || at.Replying?)
    case Ended => s.holder != Some(p) && (p in s.spans ==> Follow(Unopened, Block(s, p)) != Malformed)
  }

  ghost predicate Inv(s: State) {
    && SpansOk(s.log, s.spans)
    && s.spans.Keys <= s.pcs.Keys
    && (s.holder.Some? ==> s.holder.value in s.pcs)
    && (forall p <- s.pcs :: PcOk(s, p))
  }

  lemma MessagesAppend(log: seq<Entry>, e: Entry)
    ensures Messages(log + [e]) == Messages(log) + [e.message]
  {
  }

  /** Appending for a prompt whose span ends at the end of the log, or that has none yet. */
  lemma AppendSpans(s: State, p: Id, m: Message)
    requires SpansOk(s.log, s.spans) && (p in s.spans ==> s.spans[p].1 == |s.log|)
    ensures SpansOk(Append(s, p, m).log, Append(s, p, m).spans)
  {
  }

  lemma AppendBlocks(s: State, p: Id, m: Message)
    requires SpansOk(s.log, s.spans) && (p in s.spans ==> s.spans[p].1 == |s.log|)
    ensures var t := Append(s, p, m);
            && SpansOk(t.log, t.spans)
            && Block(t, p) == (if p in s.spans then Block(s, p) else []) + [m]
            && forall q <- s.spans :: q != p ==> Block(t, q) == Block(s, q)
  {
    AppendSpans(s, p, m);
    var t := Append(s, p, m);
    forall q | q in s.spans && q != p ensures Block(t, q) == Block(s, q) {
      assert t.log[s.spans[q].0..s.spans[q].1] == s.log[s.spans[q].0..s.spans[q].1];
    }
  }

  lemma AppendInv(s: State, p: Id, m: Message, pc: Pc)
    requires Inv(s) && s.holder == Some(p) && (s.pcs[p].Opening? || s.pcs[p].Running?)
    requires pc == Running(Next(if p in s.spans then Follow(Unopened, Block(s, p)) else Unopened, m))
    requires pc.at.Asking? || pc.at.Replying?
    ensures Inv(Append(s, p, m).(pcs := s.pcs[p := pc]))
  {
    AppendBlocks(s, p, m);
    FollowAppend(Unopened, if p in s.spans then Block(s, p) else [], m);
    assert PcOk(s, p);
    var t := Append(s, p, m).(pcs := s.pcs[p := pc]);
    assert Block(t, p) == Block(Append(s, p, m), p);
    forall q | q in t.pcs && q != p ensures PcOk(t, q) {
      assert PcOk(s, q);
      assert q in s.spans ==> Block(t, q) == Block(Append(s, p, m), q);
    }
  }

  lemma FinishInv(s: State, p: Id, m: Message)
    requires Inv(s) && s.holder == Some(p) && p in s.spans && s.pcs[p].Running?
    requires Next(Follow(Unopened, Block(s, p)), m) != Malformed
    ensures Inv(End(Append(s, p, m), p))
  {
    AppendBlocks(s, p, m);
    FollowAppend(Unopened, Block(s, p), m);
    assert PcOk(s, p);
    var t := End(Append(s, p, m), p);
    assert Block(t, p) == Block(Append(s, p, m), p);
    forall q | q in t.pcs && q != p ensures PcOk(t, q) {
      assert PcOk(s, q);
      assert q in s.spans ==> Block(t, q) == Block(Append(s, p, m), q);
    }
  }

  lemma EndInv(s: State, p: Id)
    requires Inv(s) && p in s.pcs
    ensures Inv(End(s, p))
  {
    var t := End(s, p);
    forall q | q in t.pcs ensures PcOk(t, q) {
      assert PcOk(s, q);
      assert q in s.spans ==> Block(t, q) == Block(s, q);
    }
  }

  lemma QueueInv(s: State, p: Id, t: State)
    requires Inv(s) && (p in s.pcs ==> s.pcs[p].Queued?)
    requires t == s.(pcs := s.pcs[p := Queued]) || (p in s.pcs && s.holder.None? && t == s.(holder := Some(p), pcs := s.pcs[p := Opening]))
    ensures Inv(t)
  {
    assert p in s.pcs ==> PcOk(s, p);
    forall q | q in t.pcs ensures PcOk(t, q) {
      assert q != p ==> PcOk(s, q);
      assert q in s.spans ==> Block(t, q) == Block(s, q);
    }
  }

  lemma StepInv(s: State, a: Action)
    requires Inv(s) && Enabled(s, a)
    ensures Inv(Do(s, a))
  {
    if !a.Die? && a.p in s.pcs {
      assert PcOk(s, a.p);
    }
    match a
    case Submit(p) => QueueInv(s, p, Do(s, a));
    case Acquire(p) =>
      if s.alive {
        QueueInv(s, p, Do(s, a));
      } else {
        EndInv(s, p);
      }
    case Open(p, content) => AppendInv(s, p, User(content), Running(Asking(0)));
    case Answer(p, text, calls) =>
      if calls == [] {
        FinishInv(s, p, Assistant(text, calls));
      } else {
        AppendInv(s, p, Assistant(text, calls), Do(s, a).pcs[p]);
      }
    case Reply(p, output) => AppendInv(s, p, Tool(s.pcs[p].at.calls[0], output), Do(s, a).pcs[p]);
    case Fail(p) => EndInv(s, p);
    case Abort(p) => EndInv(s, p);
    case Die =>
      forall q | q in s.pcs ensures PcOk(Do(s, a), q) {
        assert PcOk(s, q);
        assert q in s.spans ==> Block(Do(s, a), q) == Block(s, q);
      }
  }

  lemma {:induction false} RunInv(s: State, run: seq<Action>)
    requires Inv(s) && ValidFrom(s, run)
    ensures Inv(Final(s, run))
    decreases run
  {
    if run != [] {
      StepInv(s, run[0]);
      RunInv(Do(s, run[0]), run[1..]);
    }
  }

  /** The history is the full log as trimmed. */
  ghost predicate HistoryOk(system: string, s: State) {
    && s.messages == Trim([System(system)] + Messages(s.log))
    && (forall e <- s.log :: !e.message.System?)
  }

  lemma AppendHistory(system: string, s: State, p: Id, m: Message)
    requires HistoryOk(system, s) && !m.System?
    ensures HistoryOk(system, Append(s, p, m))
  {
    MessagesAppend(s.log, Entry(p, m));
    TrimStep([System(system)] + Messages(s.log), m);
    assert [System(system)] + Messages(s.log) + [m] == [System(system)] + Messages(s.log + [Entry(p, m)]);
  }

  lemma {:induction false} RunHistory(system: string, s: State, run: seq<Action>)
    requires HistoryOk(system, s) && ValidFrom(s, run)
    ensures HistoryOk(system, Final(s, run))
    decreases run
  {
    if run != [] {
      match run[0] {
        case Open(p, content) => AppendHistory(system, s, p, User(content));
        case Answer(p, text, calls) => AppendHistory(system, s, p, Assistant(text, calls));
        case Reply(p, output) => AppendHistory(system, s, p, Tool(s.pcs[p].at.calls[0], output));
        case _ =>
      }
      RunHistory(system, Do(s, run[0]), run[1..]);
    }
  }

  // ---- What holds in every run -------------------------------------------------------------

  /** Whatever prompts were queued, failed or aborted when: the messages of a prompt form one
      contiguous block of the log, and the block begins a well-formed turn. */
  lemma PromptsAppendOneBlock(system: string, run: seq<Action>, p: Id) returns (a: nat, b: nat)
    requires ValidFrom(Init(system), run)
    ensures var log := Final(Init(system), run).log;
            IsSpan(log, p, a, b) && BeginsTurn(Messages(log[a..b]))
  {
    RunInv(Init(system), run);
    var s := Final(Init(system), run);
    if p in s.spans {
      a, b := s.spans[p].0, s.spans[p].1;
      assert PcOk(s, p);
      FollowsIffBeginsTurn(Block(s, p));
    } else {
      a, b := 0, 0;
      FollowsIffBeginsTurn([]);
      assert Messages(s.log[0..0]) == [];
    }
  }

  /** At every moment the trimmed history is the system message followed by the whole log, or by
      its last 59 entries once it is longer. */
  lemma HistoryIsSystemAndTail(system: string, run: seq<Action>)
    requires ValidFrom(Init(system), run)
    ensures var s := Final(Init(system), run);
            var kept := if |s.log| < MAX_HISTORY_MESSAGES then s.log else s.log[|s.log| - (MAX_HISTORY_MESSAGES - 1)..];
            s.messages == [System(system)] + Messages(kept)
  {
    assert [System(system)] + Messages([]) == [System(system)];
    RunHistory(system, Init(system), run);
    var s := Final(Init(system), run);
    var full := [System(system)] + Messages(s.log);
    if |s.log| >= MAX_HISTORY_MESSAGES {
      var n := |s.log| - (MAX_HISTORY_MESSAGES - 1);
      assert full[n + 1..] == Messages(s.log[n..]);
    }
  }
}
