/** The permission manager: requests waiting for a decision, and a bounded memory of the ids
    whose requests expired. */
module Permissions {
  import opened Common

  const MAX_TRACKED_EXPIRED: nat := 256

  datatype Decision = Approved | Denied | Ask

  datatype Resolution = Resolved | Expired | NotFound | InvalidDecision

  /** The response oneshot of one request: waiting, answered, its receiver or its sender gone. */
  datatype Chan = Open | Sent(decision: Decision) | ReceiverGone | SenderGone

  /** `pending` names the response channel of each waiting request. */
  datatype Book = Book(pending: map<Id, Id>, expired: seq<Id>, chans: map<Id, Chan>)

  const NoRequests: Book := Book(map[], [], map[])

  function Remember(expired: seq<Id>, id: Id): seq<Id> {
    var q := RemoveFirst(expired, id) + [id];
    if |q| > MAX_TRACKED_EXPIRED then q[1..] else q
  }

  /** Dropping the pending entry of `id`, and with it an unused sender. */
  function Discard(b: Book, id: Id): Book {
    if id !in b.pending then b
    else
      var c := b.pending[id];
      b.(pending := b.pending - {id},
         chans := if c in b.chans && b.chans[c].Open? then b.chans[c := SenderGone] else b.chans)
  }

  function Register(b: Book, id: Id, c: Id): Book {
    var d := Discard(b, id);
    d.(expired := RemoveFirst(b.expired, id), pending := d.pending[id := c], chans := d.chans[c := Open])
  }

  predicate Deliverable(b: Book, id: Id) {
    id in b.pending && b.pending[id] in b.chans && b.chans[b.pending[id]].Open?
  }

  function ResolveBook(b: Book, id: Id, d: Decision): Book {
    if d.Ask? || id !in b.pending then b
    else if Deliverable(b, id) then
      b.(pending := b.pending - {id}, chans := b.chans[b.pending[id] := Sent(d)])
    else b.(pending := b.pending - {id}, expired := Remember(b.expired, id))
  }

  function ResolveReply(b: Book, id: Id, d: Decision): Resolution {
    if d.Ask? then InvalidDecision
    else if id !in b.pending then (if id in b.expired then Expired else NotFound)
    else if Deliverable(b, id) then Resolved
    else Expired
  }

  function Expire(b: Book, id: Id): Book {
    if id in b.pending then Discard(b, id).(expired := Remember(b.expired, id)) else b
  }

  /** The manager of one session. */
  class PermissionManager {
    var pending: map<Id, Id>
    var expired: seq<Id>
    var chans: map<Id, Chan>

    constructor ()
      ensures Value() == NoRequests
    {
      pending, expired, chans := map[], [], map[];
    }

    function Value(): Book
      reads this
    {
      Book(pending, expired, chans)
    }

    method RememberExpired(id: Id)
      modifies this`expired
      ensures expired == Remember(old(expired), id)
    {
      expired := RemoveFirst(expired, id);
      expired := expired + [id];
      if |expired| > MAX_TRACKED_EXPIRED {
        expired := expired[1..];
      }
    }

    method DropEntry(id: Id)
      modifies this`pending, this`chans
      ensures Value() == Discard(old(Value()), id)
    {
      if id in pending {
        var c := pending[id];
        pending := pending - {id};
        if c in chans && chans[c].Open? {
          chans := chans[c := SenderGone];
        }
      }
    }

    method RegisterRequest(id: Id, c: Id)
      modifies this
      ensures Value() == Register(old(Value()), id, c)
    {
      expired := RemoveFirst(expired, id);
      DropEntry(id);
      pending := pending[id := c];
      chans := chans[c := Open];
    }

    method Resolve(id: Id, d: Decision) returns (r: Resolution)
      modifies this
      ensures Value() == ResolveBook(old(Value()), id, d) && r == ResolveReply(old(Value()), id, d)
    {
      if d.Ask? {
        return InvalidDecision;
      }
      if id !in pending {
        return if id in expired then Expired else NotFound;
      }
      var c := pending[id];
      pending := pending - {id};
      if c in chans && chans[c].Open? {
        chans := chans[c := Sent(d)];
        r := Resolved;
      } else {
        RememberExpired(id);
        r := Expired;
      }
    }

    method ExpireRequest(id: Id)
      modifies this
      ensures Value() == Expire(old(Value()), id)
    {
      if id in pending {
        DropEntry(id);
        RememberExpired(id);
      }
    }
  }

  // ---- The memory of expired ids -----------------------------------------------------------

  datatype Op =
    | OpRegister(id: Id, chan: Id)
    | OpResolve(id: Id, decision: Decision)
    | OpExpire(id: Id)
    | OpDropReceiver(chan: Id)

  function Apply(b: Book, op: Op): Book {
    match op
    case OpRegister(id, c) => Register(b, id, c)
    case OpResolve(id, d) => ResolveBook(b, id, d)
    case OpExpire(id) => Expire(b, id)
    case OpDropReceiver(c) => b.(chans := b.chans[c := ReceiverGone])
  }

  function Run(b: Book, ops: seq<Op>): Book
    decreases ops
  {
    if ops == [] then b else Run(Apply(b, ops[0]), ops[1..])
  }

  /** The id an operation puts at the back of the expired queue, if any. */
  function Remembers(b: Book, op: Op): set<Id> {
    match op
    case OpResolve(id, d) => if !d.Ask? && id in b.pending && !Deliverable(b, id) then {id} else {}
    case OpExpire(id) => if id in b.pending then {id} else {}
    case _ => {}
  }

  function RememberedIn(b: Book, ops: seq<Op>): set<Id>
    decreases ops
  {
    if ops == [] then {} else Remembers(b, ops[0]) + RememberedIn(Apply(b, ops[0]), ops[1..])
  }

  /** No id is both pending and expired; the queue lists each expired id once, at most 256. */
  ghost predicate Ok(b: Book) {
    b.pending.Keys !! Elements(b.expired) && NoDup(b.expired) && |b.expired| <= MAX_TRACKED_EXPIRED
  }

  lemma RememberQueue(expired: seq<Id>, id: Id)
    requires NoDup(expired) && |expired| <= MAX_TRACKED_EXPIRED
    ensures var q := RemoveFirst(expired, id) + [id];
            && NoDup(q) && Elements(q) == Elements(expired) + {id} && |q| <= MAX_TRACKED_EXPIRED + 1
            && (|q| > MAX_TRACKED_EXPIRED ==> RemoveFirst(expired, id) == expired)
    ensures NoDup(Remember(expired, id)) && |Remember(expired, id)| <= MAX_TRACKED_EXPIRED
    ensures Elements(Remember(expired, id)) <= Elements(expired) + {id} && id in Remember(expired, id)
  {
    var rest := RemoveFirst(expired, id);
    RemoveFirstNoDup(expired, id);
    RemoveFirstElements(expired, id);
    if id !in expired {
      RemoveFirstAbsent(expired, id);
    }
    var q := rest + [id];
    assert Elements(q) == Elements(rest) + {id};
    assert q[|q| - 1] == id;
    if |q| > MAX_TRACKED_EXPIRED {
      assert q == [q[0]] + q[1..];
      assert q[1..][|q| - 2] == id;
    }
  }

  lemma ApplyOk(b: Book, op: Op)
    requires Ok(b)
    ensures Ok(Apply(b, op))
  {
    match op
    case OpRegister(id, c) => RemoveFirstElements(b.expired, id);
    case OpResolve(id, d) => RememberQueue(b.expired, id);
    case OpExpire(id) => RememberQueue(b.expired, id);
    case OpDropReceiver(c) =>
  }

  /** Every run of the manager keeps pending and expired ids apart and the queue in bounds. */
  lemma {:induction false} BookStaysOk(ops: seq<Op>, b: Book)
    requires Ok(b)
    ensures Ok(Run(b, ops))
    decreases ops
  {
    if ops != [] {
      ApplyOk(b, ops[0]);
      BookStaysOk(ops[1..], Apply(b, ops[0]));
    }
  }

  /** Remembering another id forgets `id` exactly when that makes 256 ids stand behind it. */
  lemma ForgottenExactlyBehindLimit(expired: seq<Id>, x: Id, id: Id)
    requires NoDup(expired) && |expired| <= MAX_TRACKED_EXPIRED && id in expired && x != id
    ensures id !in Remember(expired, x) <==> |Elements(After(expired, id)) + {x}| >= MAX_TRACKED_EXPIRED
    ensures id in Remember(expired, x) ==>
              Elements(After(Remember(expired, x), id)) == Elements(After(expired, id)) + {x}
  {
    var rest := RemoveFirst(expired, x);
    var q := rest + [x];
    RememberQueue(expired, x);
    AfterRemove(expired, id, x);
    AfterAppend(rest, id, x);
    var behind := Elements(After(expired, id)) + {x};
    assert Elements(After(q, id)) == behind by {
      assert Elements(After(rest, id) + [x]) == Elements(After(rest, id)) + {x};
    }
    AfterElements(q, id);
    NoDupCardinality(After(q, id));
    assert |behind| == |After(q, id)| < |q|;
    if |q| > MAX_TRACKED_EXPIRED {
      if q[0] == id {
        assert id !in q[1..];
        assert After(q, id) == q[1..];
      } else {
        assert After(q, id) == After(q[1..], id);
        assert id in q[1..];
        AfterElements(q[1..], id);
      }
    }
  }

  /** `id` is remembered, with only `others` behind it in the queue. */
  ghost predicate Recalls(b: Book, id: Id, others: set<Id>) {
    Ok(b) && id in b.expired && Elements(After(b.expired, id)) <= others
  }

  lemma RememberRecalls(expired: seq<Id>, x: Id, id: Id, others: set<Id>)
    requires NoDup(expired) && |expired| <= MAX_TRACKED_EXPIRED && id in expired && x != id
    requires Elements(After(expired, id)) + {x} <= others && |others| < MAX_TRACKED_EXPIRED
    ensures id in Remember(expired, x) && Elements(After(Remember(expired, x), id)) <= others
  {
    SubsetCardinality(Elements(After(expired, id)) + {x}, others);
    ForgottenExactlyBehindLimit(expired, x, id);
  }

  lemma ApplyRecalls(b: Book, op: Op, id: Id, others: set<Id>)
    requires Recalls(b, id, others) && !(op.OpRegister? && op.id == id)
    requires Remembers(b, op) <= others && |others| < MAX_TRACKED_EXPIRED
    ensures Recalls(Apply(b, op), id, others)
  {
    ApplyOk(b, op);
    assert id !in b.pending by { assert id in Elements(b.expired); }
    match op
    case OpRegister(x, c) => AfterRemove(b.expired, id, x);
    case OpResolve(x, d) => if Remembers(b, op) != {} { RememberRecalls(b.expired, x, id, others); }
    case OpExpire(x) => if Remembers(b, op) != {} { RememberRecalls(b.expired, x, id, others); }
    case OpDropReceiver(c) =>
  }

  lemma {:induction false} RunRecalls(b: Book, ops: seq<Op>, id: Id, others: set<Id>)
    requires Recalls(b, id, others)
    requires forall i :: 0 <= i < |ops| ==> !(ops[i].OpRegister? && ops[i].id == id)
    requires RememberedIn(b, ops) <= others && |others| < MAX_TRACKED_EXPIRED
    ensures Recalls(Run(b, ops), id, others)
    decreases ops
  {
    if ops != [] {
      ApplyRecalls(b, ops[0], id, others);
      RunRecalls(Apply(b, ops[0]), ops[1..], id, others);
    }
  }

  /** An id that has just expired, by a timeout or by a resolve that found its receiver gone, and
      is not registered again keeps resolving to Expired, never NotFound, while fewer than 256
      distinct ids are remembered after it. */
  lemma ExpiredStaysExpired(b: Book, op: Op, ops: seq<Op>, id: Id, d: Decision)
    requires Ok(b) && Remembers(b, op) == {id} && !d.Ask?
    requires forall i :: 0 <= i < |ops| ==> !(ops[i].OpRegister? && ops[i].id == id)
    requires |RememberedIn(Apply(b, op), ops)| < MAX_TRACKED_EXPIRED
    ensures ResolveReply(Run(Apply(b, op), ops), id, d) == Expired
  {
    var e := Apply(b, op);
    ApplyOk(b, op);
    JustRemembered(b, op, id);
    RunRecalls(e, ops, id, RememberedIn(e, ops));
    var f := Run(e, ops);
    assert id in Elements(f.expired);
  }

  lemma JustRemembered(b: Book, op: Op, id: Id)
    requires Ok(b) && Remembers(b, op) == {id}
    ensures id in Apply(b, op).expired && After(Apply(b, op).expired, id) == []
  {
    var e := Apply(b, op);
    assert e.expired == Remember(b.expired, id) && id in b.pending by {
      assert id in Remembers(b, op);
    }
    RememberQueue(b.expired, id);
    assert id !in b.expired by { assert id !in Elements(b.expired); }
    RemoveFirstAbsent(b.expired, id);
    AfterLast(b.expired, id);
    var q := b.expired + [id];
    if |q| > MAX_TRACKED_EXPIRED {
      assert q[0] == b.expired[0] && q[0] != id;
      assert After(q, id) == After(q[1..], id);
    }
  }
}
