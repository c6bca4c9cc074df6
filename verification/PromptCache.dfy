/** The bounded prompt-result caches: a result map plus a queue of its keys, oldest first.
    The OpenAI-compatible adapter moves a rewritten id to the back of the queue and evicts on
    the queue's length; the Gemini and Kimi adapters leave a rewritten id in its place and
    evict on the map's size. */
module PromptCache {
  import opened Common

  /** A prompt result; the protocols only move it around. */
  type Payload = int

  const OPENAI_CAP: nat := 64
  const GEMINI_CAP: nat := 64
  const KIMI_CAP: nat := 32

  datatype Cache = Cache(keys: seq<Id>, results: map<Id, Payload>)

  const Empty: Cache := Cache([], map[])

  datatype Policy = Refresh | KeepPlace

  datatype Op = Store(id: Id, result: Payload) | Pop(id: Id)

  function EvictByKeys(c: Cache, cap: nat): Cache
    decreases |c.keys|
  {
    if |c.keys| > cap then EvictByKeys(Cache(c.keys[1..], c.results - {c.keys[0]}), cap) else c
  }

  function EvictBySize(c: Cache, cap: nat): Cache
    decreases |c.keys|
  {
    if |c.results| > cap && c.keys != [] then
      EvictBySize(Cache(c.keys[1..], c.results - {c.keys[0]}), cap)
    else c
  }

  function Retain(keys: seq<Id>, id: Id): seq<Id> {
    if keys == [] then []
    else (if keys[0] == id then [] else [keys[0]]) + Retain(keys[1..], id)
  }

  function StoreRefresh(c: Cache, cap: nat, id: Id, r: Payload): Cache {
    EvictByKeys(Cache(RemoveFirst(c.keys, id) + [id], c.results[id := r]), cap)
  }

  function StoreKeepPlace(c: Cache, cap: nat, id: Id, r: Payload): Cache {
    EvictBySize(Cache(if id in c.results then c.keys else c.keys + [id], c.results[id := r]), cap)
  }

  function PopRefresh(c: Cache, id: Id): Cache {
    Cache(RemoveFirst(c.keys, id), c.results - {id})
  }

  function PopKeepPlace(c: Cache, id: Id): Cache {
    Cache(if id in c.results then Retain(c.keys, id) else c.keys, c.results - {id})
  }

  function Lookup(c: Cache, id: Id): Option<Payload> {
    if id in c.results then Some(c.results[id]) else None
  }

  function Apply(p: Policy, cap: nat, c: Cache, op: Op): Cache {
    match op
    case Store(id, r) => if p.Refresh? then StoreRefresh(c, cap, id, r) else StoreKeepPlace(c, cap, id, r)
    case Pop(id) => if p.Refresh? then PopRefresh(c, id) else PopKeepPlace(c, id)
  }

  function Run(p: Policy, cap: nat, c: Cache, ops: seq<Op>): Cache {
    if ops == [] then c else Apply(p, cap, Run(p, cap, c, ops[..|ops| - 1]), ops[|ops| - 1])
  }

  /** The cache of one session, its two fields changed in place under both locks. */
  class ResultCache {
    const cap: nat
    var keys: seq<Id>
    var results: map<Id, Payload>

    constructor (cap: nat)
      ensures this.cap == cap && Value() == Empty
    {
      this.cap := cap;
      keys := [];
      results := map[];
    }

    function Value(): Cache
      reads this
    {
      Cache(keys, results)
    }

    method CacheOpenAi(id: Id, r: Payload)
      modifies this
      ensures Value() == StoreRefresh(old(Value()), cap, id, r)
    {
      keys := RemoveFirst(keys, id);
      keys := keys + [id];
      results := results[id := r];
      while |keys| > cap
        invariant EvictByKeys(Value(), cap) == StoreRefresh(old(Value()), cap, id, r)
        decreases |keys|
      {
        var evicted := keys[0];
        keys := keys[1..];
        results := results - {evicted};
      }
    }

    method CacheGemini(id: Id, r: Payload)
      modifies this
      ensures Value() == StoreKeepPlace(old(Value()), cap, id, r)
    {
      if id !in results {
        keys := keys + [id];
      }
      results := results[id := r];
      while |results| > cap
        invariant EvictBySize(Value(), cap) == StoreKeepPlace(old(Value()), cap, id, r)
        decreases |keys|
      {
        if keys == [] {
          break;
        }
        var oldest := keys[0];
        keys := keys[1..];
        results := results - {oldest};
      }
    }

    method PopOpenAi(id: Id) returns (r: Option<Payload>)
      modifies this
      ensures Value() == PopRefresh(old(Value()), id)
      ensures r == Lookup(old(Value()), id)
    {
      keys := RemoveFirst(keys, id);
      r := if id in results then Some(results[id]) else None;
      results := results - {id};
    }

    method PopGemini(id: Id) returns (r: Option<Payload>)
      modifies this
      ensures Value() == PopKeepPlace(old(Value()), id)
      ensures r == Lookup(old(Value()), id)
    {
      r := if id in results then Some(results[id]) else None;
      results := results - {id};
      if r.Some? {
        keys := Retain(keys, id);
      }
    }
  }

  // ---- What the cache promises -------------------------------------------------------------

  /** The queue lists the map's keys, each once, and is within the bound. */
  ghost predicate Listing(c: Cache, cap: nat) {
    NoDup(c.keys) && Elements(c.keys) == c.results.Keys && |c.keys| <= cap
  }

  /** Eviction only removes entries, whatever the queue. */
  lemma {:induction false} EvictionOnlyRemoves(c: Cache, cap: nat)
    ensures EvictByKeys(c, cap).results.Keys <= c.results.Keys
    ensures EvictBySize(c, cap).results.Keys <= c.results.Keys
    ensures forall q <- EvictByKeys(c, cap).results :: EvictByKeys(c, cap).results[q] == c.results[q]
    ensures forall q <- EvictBySize(c, cap).results :: EvictBySize(c, cap).results[q] == c.results[q]
    decreases |c.keys|
  {
    if c.keys != [] {
      EvictionOnlyRemoves(Cache(c.keys[1..], c.results - {c.keys[0]}), cap);
    }
  }

  /** A store adds nothing but its own entry. */
  lemma StoreOnlyAdds(p: Policy, cap: nat, c: Cache, id: Id, r: Payload)
    ensures Apply(p, cap, c, Store(id, r)).results.Keys <= c.results.Keys + {id}
    ensures forall q <- Apply(p, cap, c, Store(id, r)).results ::
              Apply(p, cap, c, Store(id, r)).results[q] == if q == id then r else c.results[q]
  {
    EvictionOnlyRemoves(Cache(Enqueued(p, c, id), c.results[id := r]), cap);
  }

  lemma RetainIsRemove(keys: seq<Id>, id: Id)
    requires NoDup(keys)
    ensures Retain(keys, id) == RemoveFirst(keys, id)
  {
    if keys != [] {
      RetainIsRemove(keys[1..], id);
      if keys[0] == id {
        RemoveFirstAbsent(keys[1..], id);
      }
    }
  }

  /** A listing has as many results as keys. */
  lemma ListingSize(c: Cache)
    requires NoDup(c.keys) && Elements(c.keys) == c.results.Keys
    ensures |c.results| == |c.keys|
  {
    NoDupCardinality(c.keys);
    assert |c.results| == |c.results.Keys|;
  }

  lemma DropOldest(c: Cache)
    requires NoDup(c.keys) && Elements(c.keys) == c.results.Keys && c.keys != []
    ensures var d := Cache(c.keys[1..], c.results - {c.keys[0]});
            NoDup(d.keys) && Elements(d.keys) == d.results.Keys
  {
    var d := Cache(c.keys[1..], c.results - {c.keys[0]});
    assert c.keys == [c.keys[0]] + d.keys;
    assert Elements(d.keys) == Elements(c.keys) - {c.keys[0]};
  }

  /** On a listing that is over by at most one, both eviction loops drop just the oldest entry. */
  lemma EvictOne(c: Cache, cap: nat)
    requires NoDup(c.keys) && Elements(c.keys) == c.results.Keys && |c.keys| <= cap + 1
    ensures EvictByKeys(c, cap) == Evicted(c.keys, cap, c.results)
    ensures EvictBySize(c, cap) == Evicted(c.keys, cap, c.results)
    ensures Listing(Evicted(c.keys, cap, c.results), cap)
  {
    ListingSize(c);
    if |c.keys| > cap {
      var d := Cache(c.keys[1..], c.results - {c.keys[0]});
      DropOldest(c);
      ListingSize(d);
      assert EvictByKeys(d, cap) == d;
      assert EvictBySize(d, cap) == d;
    }
  }

  /** The queue just before eviction. */
  function Enqueued(p: Policy, c: Cache, id: Id): seq<Id> {
    if p.KeepPlace? && id in c.results then c.keys
    else (if p.Refresh? then RemoveFirst(c.keys, id) else c.keys) + [id]
  }

  lemma EnqueuedListing(p: Policy, cap: nat, c: Cache, id: Id)
    requires Listing(c, cap)
    ensures NoDup(Enqueued(p, c, id)) && |Enqueued(p, c, id)| <= cap + 1
    ensures Elements(Enqueued(p, c, id)) == Elements(c.keys) + {id}
    ensures |Enqueued(p, c, id)| > cap ==> id !in c.results && Enqueued(p, c, id) == c.keys + [id]
  {
    RemoveFirstElements(c.keys, id);
    assert id in c.keys <==> id in Elements(c.keys);
    if id !in c.keys {
      RemoveFirstAbsent(c.keys, id);
    }
    var kept := RemoveFirst(c.keys, id);
    assert id !in kept by { assert id !in Elements(kept); }
    assert Elements(kept + [id]) == Elements(kept) + {id};
  }

  /** The cache a store leaves, given the queue just before eviction. */
  function Evicted(q: seq<Id>, cap: nat, results: map<Id, Payload>): Cache {
    if |q| <= cap then Cache(q, results) else Cache(q[1..], results - {q[0]})
  }

  /** Storing on a listing under either policy, in one formula. */
  lemma StoreOnListing(p: Policy, cap: nat, c: Cache, id: Id, r: Payload)
    requires Listing(c, cap)
    ensures Apply(p, cap, c, Store(id, r)) == Evicted(Enqueued(p, c, id), cap, c.results[id := r])
    ensures Listing(Apply(p, cap, c, Store(id, r)), cap)
  {
    EnqueuedListing(p, cap, c, id);
    EvictOne(Cache(Enqueued(p, c, id), c.results[id := r]), cap);
    if p.KeepPlace? {
      assert Apply(p, cap, c, Store(id, r)) == StoreKeepPlace(c, cap, id, r);
    } else {
      assert Apply(p, cap, c, Store(id, r)) == StoreRefresh(c, cap, id, r);
    }
  }

  lemma PopOnListing(p: Policy, cap: nat, c: Cache, id: Id)
    requires Listing(c, cap)
    ensures Apply(p, cap, c, Pop(id)) == Cache(RemoveFirst(c.keys, id), c.results - {id})
    ensures Listing(Apply(p, cap, c, Pop(id)), cap)
  {
    RetainIsRemove(c.keys, id);
    RemoveFirstElements(c.keys, id);
    assert id in c.keys <==> id in Elements(c.keys);
    if id !in c.keys {
      RemoveFirstAbsent(c.keys, id);
    }
  }

  /** The unbounded map of last writes: what the most recent operation on `id` left. */
  function LastWrite(ops: seq<Op>, id: Id): Option<Payload> {
    if ops == [] then None
    else
      var last := ops[|ops| - 1];
      if last.id != id then LastWrite(ops[..|ops| - 1], id)
      else if last.Store? then Some(last.result) else None
  }

  /** In every run the queue lists the map's keys within the bound, and every entry still kept
      is the last write to its id. */
  lemma {:induction false} CacheRefinesLastWrites(p: Policy, cap: nat, ops: seq<Op>)
    ensures Listing(Run(p, cap, Empty, ops), cap)
    ensures forall id <- Run(p, cap, Empty, ops).results ::
              LastWrite(ops, id) == Some(Run(p, cap, Empty, ops).results[id])
  {
    if ops != [] {
      var before, op := ops[..|ops| - 1], ops[|ops| - 1];
      CacheRefinesLastWrites(p, cap, before);
      var c := Run(p, cap, Empty, before);
      match op
      case Store(id, r) =>
        StoreOnListing(p, cap, c, id, r);
      case Pop(id) =>
        PopOnListing(p, cap, c, id);
    }
  }

  /** An id leaves the queue without being popped only when `cap` other ids stand behind it. */
  lemma EvictedOnlyBehindCap(p: Policy, cap: nat, c: Cache, op: Op, id: Id)
    requires Listing(c, cap) && id in c.results && id !in Apply(p, cap, c, op).results
    ensures op == Pop(id) ||
            (op.Store? && (op.id == id ==> cap == 0) &&
             After(c.keys + [op.id], id) == (c.keys + [op.id])[1..] && |c.keys| == cap)
  {
    assert id in c.keys by { assert id in Elements(c.keys); }
    match op
    case Store(x, r) =>
      StoreOnListing(p, cap, c, x, r);
      EnqueuedListing(p, cap, c, x);
    case Pop(x) =>
      PopOnListing(p, cap, c, x);
  }

  function Stored(ops: seq<Op>): set<Id> {
    set i | 0 <= i < |ops| && ops[i].Store? :: ops[i].id
  }

  /** `id` is still kept, unchanged, with only `others` queued behind it. */
  ghost predicate KeptWithin(c: Cache, cap: nat, id: Id, r: Payload, others: set<Id>) {
    && Listing(c, cap) && id in c.keys && id in c.results && c.results[id] == r
    && Elements(After(c.keys, id)) <= others
  }

  lemma KeptInQueue(p: Policy, cap: nat, c: Cache, x: Id, id: Id)
    requires Listing(c, cap) && id in c.keys && x != id
    ensures id in Enqueued(p, c, x)
    ensures Elements(After(Enqueued(p, c, x), id)) <= Elements(After(c.keys, id)) + {x}
  {
    var kept := if p.Refresh? then RemoveFirst(c.keys, x) else c.keys;
    AfterRemove(c.keys, id, x);
    if p.KeepPlace? && x in c.results {
      assert Enqueued(p, c, x) == c.keys;
    } else {
      assert Enqueued(p, c, x) == kept + [x];
      AfterAppend(kept, id, x);
      assert Elements(After(kept, id) + [x]) == Elements(After(kept, id)) + {x};
    }
  }

  lemma KeptOneStep(p: Policy, cap: nat, c: Cache, op: Op, id: Id, r: Payload, others: set<Id>)
    requires KeptWithin(c, cap, id, r, others) && op.id != id
    requires |others| < cap && (op.Store? ==> op.id in others)
    ensures KeptWithin(Apply(p, cap, c, op), cap, id, r, others)
  {
    match op
    case Pop(x) =>
      PopOnListing(p, cap, c, x);
      AfterRemove(c.keys, id, x);
    case Store(x, _) =>
      StoreOnListing(p, cap, c, x, op.result);
      EnqueuedListing(p, cap, c, x);
      KeptInQueue(p, cap, c, x, id);
      var q := Enqueued(p, c, x);
      AfterElements(q, id);
      if |q| > cap && q[0] == id {
        NoDupCardinality(After(q, id));
        SubsetCardinality(Elements(After(q, id)), others);
        assert false;
      }
  }

  /** A stored result outlives any continuation that neither pops nor rewrites it, as long as
      fewer than `cap` distinct other ids are queued behind it or stored meanwhile. Under
      `Refresh` a fresh store starts with nobody behind it. */
  lemma {:induction false} ResultSurvives(p: Policy, cap: nat, c: Cache, more: seq<Op>, id: Id, others: set<Id>)
    requires Listing(c, cap) && id in c.results
    requires forall i :: 0 <= i < |more| ==> more[i].id != id
    requires others == Elements(After(c.keys, id)) + Stored(more) && |others| < cap
    ensures KeptWithin(Run(p, cap, c, more), cap, id, c.results[id], others)
  {
    assert id in c.keys by { assert id in Elements(c.keys); }
    ResultSurvivesWithin(p, cap, c, more, id, c.results[id], others);
  }

  lemma {:induction false} ResultSurvivesWithin(p: Policy, cap: nat, c: Cache, more: seq<Op>, id: Id, r: Payload, others: set<Id>)
    requires KeptWithin(c, cap, id, r, others)
    requires forall i :: 0 <= i < |more| ==> more[i].id != id
    requires Stored(more) <= others && |others| < cap
    ensures KeptWithin(Run(p, cap, c, more), cap, id, r, others)
  {
    if more != [] {
      var before, op := more[..|more| - 1], more[|more| - 1];
      assert Stored(before) <= Stored(more);
      ResultSurvivesWithin(p, cap, c, before, id, r, others);
      assert op.Store? ==> op.id in Stored(more);
      KeptOneStep(p, cap, Run(p, cap, c, before), op, id, r, others);
    }
  }

  lemma FreshStoreHasNobodyBehind(cap: nat, c: Cache, id: Id, r: Payload)
    requires Listing(c, cap) && cap > 0
    ensures KeptWithin(StoreRefresh(c, cap, id, r), cap, id, r, {})
  {
    StoreOnListing(Refresh, cap, c, id, r);
    EnqueuedListing(Refresh, cap, c, id);
    assert Apply(Refresh, cap, c, Store(id, r)) == StoreRefresh(c, cap, id, r);
    RemoveFirstElements(c.keys, id);
    var kept := RemoveFirst(c.keys, id);
    assert id !in kept by { assert id !in Elements(kept); }
    AfterLast(kept, id);
    var q := kept + [id];
    if |q| > cap {
      assert q[0] != id;
      assert After(q, id) == After(q[1..], id);
    }
  }

  /** Under `KeepPlace` a rewritten id keeps its place, and whoever stood behind it still does. */
  lemma RewriteKeepsPlace(cap: nat, c: Cache, id: Id, r: Payload)
    requires Listing(c, cap) && id in c.results
    ensures StoreKeepPlace(c, cap, id, r) == Cache(c.keys, c.results[id := r])
  {
    StoreOnListing(KeepPlace, cap, c, id, r);
    assert Apply(KeepPlace, cap, c, Store(id, r)) == StoreKeepPlace(c, cap, id, r);
  }

  /** The Gemini bound needs no agreement between map and queue: whatever kill's separate
      clears left behind, storing keeps the map within its capacity. */
  lemma {:induction false} GeminiBoundOutOfStep(c: Cache, cap: nat, id: Id, r: Payload)
    requires |c.results| <= cap
    ensures |StoreKeepPlace(c, cap, id, r).results| <= cap
  {
    var results := c.results[id := r];
    if id in c.results {
      assert results.Keys == c.results.Keys;
      assert |results| == |results.Keys| == |c.results.Keys| == |c.results|;
    } else {
      assert results.Keys == c.results.Keys + {id};
      assert |results| == |results.Keys| == |c.results.Keys| + 1;
      assert id in c.keys + [id] by { assert (c.keys + [id])[|c.keys|] == id; }
      EvictReachesCap(Cache(c.keys + [id], results), cap, id);
    }
  }

  /** With at most one result too many and some queued id in the map, eviction gets to the cap. */
  lemma EvictReachesCap(c: Cache, cap: nat, id: Id)
    requires |c.results| <= cap + 1 && id in c.keys && id in c.results
    ensures |EvictBySize(c, cap).results| <= cap
    decreases |c.keys|
  {
    if |c.results| > cap {
      var d := Cache(c.keys[1..], c.results - {c.keys[0]});
      assert d.results.Keys == c.results.Keys - {c.keys[0]};
      assert |d.results| == |d.results.Keys|;
      assert |c.results| == |c.results.Keys|;
      if c.keys[0] !in c.results {
        assert id in d.keys;
        EvictReachesCap(d, cap, id);
      } else {
        assert |d.results| == |c.results| - 1;
      }
    }
  }
}
