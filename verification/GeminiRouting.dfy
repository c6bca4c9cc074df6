/** How the Gemini adapter routes a prompt's result: to the waiter registered for the prompt, or
    else into the bounded result cache. Looking up the completer, sending through it and caching
    are separate lock scopes, racing `wait_for_response`, the clean-up of `send_prompt` and the
    separate clears of `kill`. One step is one lock scope; a result is routed once per prompt. */
module GeminiRouting {
  import opened Common
  import opened PromptCache

  /** The oneshot of a waiter. */
  datatype Chan = Open | Sent(result: Payload) | Closed | ReceiverGone | Received

  datatype RouterPc =
    | Lookup(result: Payload) | Sending(result: Payload, w: Id) | Caching(result: Payload)
    | Routed(result: Payload)

  datatype Outcome = Got(result: Payload) | NotRunning | AlreadyWaiting | WaiterClosed | TimedOut

  datatype WaitPc =
    | PopFirst | Register | PopAgain
    | DropAfterPop(result: Payload)
    | Parked | DropClosed | PopLast | DropTimedOut
    | Done(outcome: Outcome)

  datatype Reason = Evicted | Stale | Cleared

  datatype Place = WithRouter | InChan(w: Id) | InCache | With(w: Id) | Gone(why: Reason)

  datatype KillPc = Alive | Dying | NoCompleters | NoResults | Dead

  datatype Net = Net(completers: map<Id, Id>, chans: map<Id, Chan>)

  datatype Waits = Waits(ids: map<Id, Id>, pcs: map<Id, WaitPc>)

  /** History: `places`, where each routed result went; `late`, the waiters that registered when the
      lookup for their prompt was already over. */
  datatype State = State(
    net: Net, cache: Cache, waits: Waits, routers: map<Id, RouterPc>, kill: KillPc,
    places: map<Id, Place>, late: set<Id>)

  const Init: State := State(Net(map[], map[]), Empty, Waits(map[], map[]), map[], Alive, map[], {})

  datatype Action =
    | Route(p: Id, result: Payload) | LookUp(p: Id) | Send(p: Id) | StoreIt(p: Id)
    | StartWait(w: Id, p: Id) | TakeCached(w: Id) | Enter(w: Id) | Wake(w: Id) | Expire(w: Id) | Leave(w: Id)
    | Forget(p: Id) | Unhook(p: Id)
    | Kill

  // ---- Steps -------------------------------------------------------------------------------

  predicate Popping(pc: WaitPc) {
    pc.PopFirst? || pc.PopAgain? || pc.PopLast?
  }

  predicate Leaving(pc: WaitPc) {
    pc.DropAfterPop? || pc.DropClosed? || pc.DropTimedOut?
  }

  predicate WaitAt(s: State, w: Id) {
    w in s.waits.ids && w in s.waits.pcs && w in s.net.chans
  }

  predicate Enabled(s: State, a: Action) {
    match a
    case Route(p, _) => p !in s.routers
    case LookUp(p) => p in s.routers && s.routers[p].Lookup?
    case Send(p) => p in s.routers && s.routers[p].Sending? && s.routers[p].w in s.net.chans
    case StoreIt(p) => p in s.routers && s.routers[p].Caching?
    case StartWait(w, p) => w !in s.waits.ids
    case TakeCached(w) => WaitAt(s, w) && Popping(s.waits.pcs[w])
    case Enter(w) => WaitAt(s, w) && s.waits.pcs[w].Register?
    case Wake(w) => WaitAt(s, w) && s.waits.pcs[w].Parked? && (s.net.chans[w].Sent? || s.net.chans[w].Closed?)
    case Expire(w) => WaitAt(s, w) && s.waits.pcs[w].Parked? && s.net.chans[w].Open?
    case Leave(w) => WaitAt(s, w) && Leaving(s.waits.pcs[w])
    case Forget(_) => true
    case Unhook(_) => true
    case Kill => !s.kill.Dead?
  }

  function Close(c: Chan): Chan {
    if c.Open? then Closed else c
  }

  /** Removing the completer of a prompt drops its sender. */
  function DropSender(n: Net, p: Id): Net {
    if p in n.completers && n.completers[p] in n.chans then
      Net(n.completers - {p}, n.chans[n.completers[p] := Close(n.chans[n.completers[p]])])
    else Net(n.completers - {p}, n.chans)
  }

  function SetWait(s: State, w: Id, pc: WaitPc): State {
    s.(waits := s.waits.(pcs := s.waits.pcs[w := pc]))
  }

  function SetRouter(s: State, p: Id, pc: RouterPc): State {
    s.(routers := s.routers[p := pc])
  }

  function DoLookUp(s: State, p: Id): State
    requires p in s.routers && s.routers[p].Lookup?
  {
    var r := s.routers[p].result;
    if p in s.net.completers then
      SetRouter(s, p, Sending(r, s.net.completers[p])).(net := s.net.(completers := s.net.completers - {p}))
    else SetRouter(s, p, Caching(r))
  }

  /** A send into a channel without a receiver gives the result back, to be cached. */
  function DoSend(s: State, p: Id): State
    requires p in s.routers && s.routers[p].Sending? && s.routers[p].w in s.net.chans
  {
    var r, w := s.routers[p].result, s.routers[p].w;
    if s.net.chans[w].Open? then
      SetRouter(s, p, Routed(r)).(net := s.net.(chans := s.net.chans[w := Sent(r)]), places := s.places[p := InChan(w)])
    else SetRouter(s, p, Caching(r))
  }

  /** Where the results are once the cache has gone from `before` to `after` by storing `p`. */
  function PlacesAfter(before: map<Id, Payload>, after: map<Id, Payload>, places: map<Id, Place>, p: Id): map<Id, Place> {
    map q | q in places.Keys + {p} ::
      if q != p && q !in before then places[q] else if q in after then InCache else Gone(Evicted)
  }

  function DoStore(s: State, p: Id): State
    requires p in s.routers
  {
    var c := StoreKeepPlace(s.cache, GEMINI_CAP, p, s.routers[p].result);
    SetRouter(s, p, Routed(s.routers[p].result))
      .(cache := c, places := PlacesAfter(s.cache.results, c.results, s.places, p))
  }

  function DoTake(s: State, w: Id): State
    requires w in s.waits.ids && w in s.waits.pcs && Popping(s.waits.pcs[w])
  {
    var p := s.waits.ids[w];
    var pc := s.waits.pcs[w];
    if p in s.cache.results then
      var r := s.cache.results[p];
      SetWait(s, w, if pc.PopAgain? then DropAfterPop(r) else Done(Got(r)))
        .(cache := PopKeepPlace(s.cache, p), places := s.places[p := With(w)])
    else
      SetWait(s, w, if pc.PopFirst? then Register else if pc.PopAgain? then Parked else Done(WaiterClosed))
  }

  /** The completer map has been looked at for the result of `p`. */
  predicate LookedUp(routers: map<Id, RouterPc>, p: Id) {
    p in routers && !routers[p].Lookup?
  }

  function DoEnter(s: State, w: Id): State
    requires w in s.waits.ids
  {
    var p := s.waits.ids[w];
    if !s.kill.Alive? then SetWait(s, w, Done(NotRunning))
    else if p in s.net.completers then SetWait(s, w, Done(AlreadyWaiting))
    else
      SetWait(s, w, PopAgain)
        .(net := Net(s.net.completers[p := w], s.net.chans[w := Open]),
          late := if LookedUp(s.routers, p) then s.late + {w} else s.late)
  }

  function DoWake(s: State, w: Id): State
    requires w in s.waits.ids && w in s.net.chans
  {
    if s.net.chans[w].Sent? then
      SetWait(s, w, Done(Got(s.net.chans[w].result)))
        .(net := s.net.(chans := s.net.chans[w := Received]), places := s.places[s.waits.ids[w] := With(w)])
    else SetWait(s, w, DropClosed)
  }

  function DoLeave(s: State, w: Id): State
    requires w in s.waits.ids && w in s.waits.pcs && Leaving(s.waits.pcs[w])
  {
    var pc := s.waits.pcs[w];
    SetWait(s, w, if pc.DropAfterPop? then Done(Got(pc.result)) else if pc.DropClosed? then PopLast else Done(TimedOut))
      .(net := DropSender(s.net, s.waits.ids[w]))
  }

  /** `send_prompt` first pops a result left under its id. */
  function DoForget(s: State, p: Id): State {
    s.(cache := PopKeepPlace(s.cache, p),
       places := if p in s.cache.results then s.places[p := Gone(Stale)] else s.places)
  }

  function DoKill(s: State): State {
    match s.kill
    case Alive => s.(kill := Dying)
    case Dying =>
      s.(kill := NoCompleters,
         net := Net(map[], map w | w in s.net.chans ::
                             if w in s.net.completers.Values then Close(s.net.chans[w]) else s.net.chans[w]))
    case NoCompleters =>
      s.(kill := NoResults, cache := s.cache.(results := map[]),
         places := s.places + map p | p in s.cache.results :: Gone(Cleared))
    case NoResults => s.(kill := Dead, cache := s.cache.(keys := []))
    case Dead => s
  }

  function Do(s: State, a: Action): State
    requires Enabled(s, a)
  {
    match a
    case Route(p, r) => SetRouter(s, p, Lookup(r)).(places := s.places[p := WithRouter])
    case LookUp(p) => DoLookUp(s, p)
    case Send(p) => DoSend(s, p)
    case StoreIt(p) => DoStore(s, p)
    case StartWait(w, p) =>
      s.(waits := Waits(s.waits.ids[w := p], s.waits.pcs[w := PopFirst]),
         net := s.net.(chans := s.net.chans[w := Closed]))
    case TakeCached(w) => DoTake(s, w)
    case Enter(w) => DoEnter(s, w)
    case Wake(w) => DoWake(s, w)
    case Expire(w) => SetWait(s, w, DropTimedOut).(net := s.net.(chans := s.net.chans[w := ReceiverGone]))
    case Leave(w) => DoLeave(s, w)
    case Forget(p) => DoForget(s, p)
    case Unhook(p) => s.(net := DropSender(s.net, p))
    case Kill => DoKill(s)
  }

  predicate ValidFrom(s: State, run: seq<Action>)
    decreases run
  {
    run == [] || (Enabled(s, run[0]) && ValidFrom(Do(s, run[0]), run[1..]))
  }

  function Final(s: State, run: seq<Action>): State
    requires ValidFrom(s, run)
    decreases run
  {
    if run == [] then s else Final(Do(s, run[0]), run[1..])
  }

  // ---- The invariant -----------------------------------------------------------------------

  /** An open channel's sender is in the completer map or in its router's hands. */
  ghost predicate NetOk(n: Net, ids: map<Id, Id>, routers: map<Id, RouterPc>) {
    && n.chans.Keys == ids.Keys
    && (forall p <- n.completers :: n.completers[p] in ids && ids[n.completers[p]] == p)
    && (forall p <- routers :: routers[p].Sending? ==> routers[p].w in ids && ids[routers[p].w] == p)
    && (forall w <- n.chans :: n.chans[w].Open? ==>
          || (ids[w] in n.completers && n.completers[ids[w]] == w)
          || (ids[w] in routers && routers[ids[w]].Sending? && routers[ids[w]].w == w))
  }

  predicate Listens(pc: WaitPc) {
    pc.PopAgain? || pc.Parked?
  }

  predicate HasResult(pc: WaitPc) {
    pc.DropAfterPop? || (pc.Done? && pc.outcome.Got?)
  }

  function ResultOf(pc: WaitPc): Payload
    requires HasResult(pc)
  {
    if pc.DropAfterPop? then pc.result else pc.outcome.result
  }

  /** Only a waiter that listens has an open or filled channel, or one that is about to drop it. */
  ghost predicate ListenOk(n: Net, pcs: map<Id, WaitPc>) {
    && pcs.Keys == n.chans.Keys
    && (forall w <- pcs :: n.chans[w].Open? ==> Listens(pcs[w]) || pcs[w].DropAfterPop?)
    && (forall w <- pcs :: n.chans[w].Sent? ==> Listens(pcs[w]))
  }

  /** The recorded place of each routed result is where it physically is, and the only place. */
  ghost predicate RouterPlaces(routers: map<Id, RouterPc>, places: map<Id, Place>) {
    && routers.Keys == places.Keys
    && (forall p <- routers :: places[p].WithRouter? <==> !routers[p].Routed?)
  }

  ghost predicate CachePlaces(cache: Cache, routers: map<Id, RouterPc>, places: map<Id, Place>) {
    && (forall p <- cache.results :: p in places && places[p].InCache?)
    && (forall p <- places :: places[p].InCache? ==>
          p in routers && p in cache.results && cache.results[p] == routers[p].result)
  }

  ghost predicate ChanPlaces(n: Net, ids: map<Id, Id>, routers: map<Id, RouterPc>, places: map<Id, Place>) {
    && (forall w <- n.chans :: w in ids && n.chans[w].Sent? ==> ids[w] in places && places[ids[w]] == InChan(w))
    && (forall p <- places :: places[p].InChan? ==>
          var w := places[p].w;
          && w in ids && ids[w] == p && w in n.chans && n.chans[w].Sent?
          && p in routers && n.chans[w].result == routers[p].result)
  }

  ghost predicate WaitPlaces(x: Waits, routers: map<Id, RouterPc>, places: map<Id, Place>) {
    && (forall w <- x.pcs :: w in x.ids && HasResult(x.pcs[w]) ==> x.ids[w] in places && places[x.ids[w]] == With(w))
    && (forall p <- places :: places[p].With? ==>
          var w := places[p].w;
          && w in x.ids && x.ids[w] == p && w in x.pcs && HasResult(x.pcs[w])
          && p in routers && ResultOf(x.pcs[w]) == routers[p].result)
  }

  ghost predicate NetInv(s: State) {
    NetOk(s.net, s.waits.ids, s.routers) && ListenOk(s.net, s.waits.pcs)
  }

  ghost predicate PlaceInv(s: State) {
    && RouterPlaces(s.routers, s.places)
    && CachePlaces(s.cache, s.routers, s.places)
    && ChanPlaces(s.net, s.waits.ids, s.routers, s.places)
    && WaitPlaces(s.waits, s.routers, s.places)
  }

  ghost predicate Inv(s: State) {
    NetInv(s) && PlaceInv(s) && |s.cache.results| <= GEMINI_CAP
  }

  // ---- Every step keeps it -----------------------------------------------------------------

  lemma ChanMoves(n: Net, ids: map<Id, Id>, routers: map<Id, RouterPc>, places: map<Id, Place>, w: Id, c: Chan)
    requires ChanPlaces(n, ids, routers, places) && w in n.chans && !n.chans[w].Sent? && !c.Sent?
    ensures ChanPlaces(n.(chans := n.chans[w := c]), ids, routers, places)
  {
  }

  lemma NetEnters(n: Net, ids: map<Id, Id>, routers: map<Id, RouterPc>, p: Id, w: Id)
    requires NetOk(n, ids, routers) && w in ids && ids[w] == p && !n.chans[w].Open?
    ensures p !in n.completers ==> NetOk(Net(n.completers[p := w], n.chans[w := Open]), ids, routers)
  {
  }

  lemma WaitMoves(x: Waits, routers: map<Id, RouterPc>, places: map<Id, Place>, w: Id, pc: WaitPc)
    requires WaitPlaces(x, routers, places) && w in x.pcs && !HasResult(x.pcs[w]) && !HasResult(pc)
    ensures WaitPlaces(x.(pcs := x.pcs[w := pc]), routers, places)
  {
  }

  lemma StoredPlaces(before: map<Id, Payload>, after: map<Id, Payload>, routers: map<Id, RouterPc>, places: map<Id, Place>, p: Id)
    requires CachePlaces(Cache([], before), routers, places) && p in routers && routers[p].Caching? && RouterPlaces(routers, places)
    requires after.Keys <= before.Keys + {p}
    requires forall q <- after :: after[q] == if q == p then routers[p].result else before[q]
    ensures CachePlaces(Cache([], after), routers[p := Routed(routers[p].result)], PlacesAfter(before, after, places, p))
    ensures RouterPlaces(routers[p := Routed(routers[p].result)], PlacesAfter(before, after, places, p))
    ensures forall q :: q in places && (places[q].InChan? || places[q].With?) ==>
              q in PlacesAfter(before, after, places, p) && PlacesAfter(before, after, places, p)[q] == places[q]
    ensures forall q <- PlacesAfter(before, after, places, p) ::
              PlacesAfter(before, after, places, p)[q].InChan? || PlacesAfter(before, after, places, p)[q].With? ==>
                q in places && PlacesAfter(before, after, places, p)[q] == places[q]
  {
  }

  lemma ElsewhereKept(s: State, e: State)
    requires ChanPlaces(s.net, s.waits.ids, s.routers, s.places) && WaitPlaces(s.waits, s.routers, s.places)
    requires e.net == s.net && e.waits == s.waits
    requires forall q <- s.routers :: q in e.routers && e.routers[q].result == s.routers[q].result
    requires forall q :: q in s.places && (s.places[q].InChan? || s.places[q].With?) ==> q in e.places && e.places[q] == s.places[q]
    requires forall q <- e.places :: e.places[q].InChan? || e.places[q].With? ==> q in s.places && e.places[q] == s.places[q]
    ensures ChanPlaces(e.net, e.waits.ids, e.routers, e.places) && WaitPlaces(e.waits, e.routers, e.places)
  {
  }

  lemma RouteKeepsNet(s: State, p: Id, r: Payload)
    requires NetInv(s) && Enabled(s, Route(p, r))
    ensures NetInv(Do(s, Route(p, r)))
  {
  }

  lemma RouteKeepsPlace(s: State, p: Id, r: Payload)
    requires NetInv(s) && PlaceInv(s) && Enabled(s, Route(p, r))
    ensures PlaceInv(Do(s, Route(p, r)))
  {
  }

  lemma LookUpKeepsNet(s: State, p: Id)
    requires NetInv(s) && Enabled(s, LookUp(p))
    ensures NetInv(Do(s, LookUp(p)))
  {
  }

  lemma LookUpKeepsPlace(s: State, p: Id)
    requires PlaceInv(s) && Enabled(s, LookUp(p))
    ensures PlaceInv(Do(s, LookUp(p)))
  {
  }

  lemma SendKeepsNet(s: State, p: Id)
    requires NetInv(s) && PlaceInv(s) && Enabled(s, Send(p))
    ensures NetInv(Do(s, Send(p)))
  {
  }

  lemma ChanFills(n: Net, ids: map<Id, Id>, routers: map<Id, RouterPc>, places: map<Id, Place>, p: Id, w: Id)
    requires ChanPlaces(n, ids, routers, places) && w in n.chans && !n.chans[w].Sent? && w in ids && ids[w] == p
    requires p in routers && p in places && !places[p].InChan?
    ensures var r := routers[p].result;
            ChanPlaces(n.(chans := n.chans[w := Sent(r)]), ids, routers[p := Routed(r)], places[p := InChan(w)])
  {
  }

  lemma WaitElsewhere(x: Waits, routers: map<Id, RouterPc>, places: map<Id, Place>, p: Id, w: Id)
    requires WaitPlaces(x, routers, places) && p in routers && p in places && !places[p].With?
    ensures WaitPlaces(x, routers[p := Routed(routers[p].result)], places[p := InChan(w)])
  {
  }

  lemma SendKeepsPlace(s: State, p: Id)
    requires NetInv(s) && PlaceInv(s) && Enabled(s, Send(p))
    ensures PlaceInv(Do(s, Send(p)))
  {
    var w := s.routers[p].w;
    if s.net.chans[w].Open? {
      ChanFills(s.net, s.waits.ids, s.routers, s.places, p, w);
      WaitElsewhere(s.waits, s.routers, s.places, p, w);
    }
  }

  lemma StoreKeepsNet(s: State, p: Id)
    requires NetInv(s) && Enabled(s, StoreIt(p))
    ensures NetInv(Do(s, StoreIt(p)))
  {
  }

  lemma StoreKeepsPlace(s: State, p: Id)
    requires PlaceInv(s) && Enabled(s, StoreIt(p))
    ensures PlaceInv(Do(s, StoreIt(p)))
  {
    var e := DoStore(s, p);
    StoreOnlyAdds(KeepPlace, GEMINI_CAP, s.cache, p, s.routers[p].result);
    assert Apply(KeepPlace, GEMINI_CAP, s.cache, Store(p, s.routers[p].result)).results == e.cache.results;
    StoredPlaces(s.cache.results, e.cache.results, s.routers, s.places, p);
    ElsewhereKept(s, e);
  }

  lemma StartWaitKeepsNet(s: State, w: Id, p: Id)
    requires NetInv(s) && Enabled(s, StartWait(w, p))
    ensures NetInv(Do(s, StartWait(w, p)))
  {
  }

  lemma StartWaitKeepsPlace(s: State, w: Id, p: Id)
    requires NetInv(s) && PlaceInv(s) && Enabled(s, StartWait(w, p))
    ensures PlaceInv(Do(s, StartWait(w, p)))
  {
  }

  lemma TakeCachedKeepsNet(s: State, w: Id)
    requires NetInv(s) && PlaceInv(s) && Enabled(s, TakeCached(w))
    ensures NetInv(Do(s, TakeCached(w)))
  {
  }

  lemma WaitGains(x: Waits, routers: map<Id, RouterPc>, places: map<Id, Place>, w: Id, pc: WaitPc)
    requires WaitPlaces(x, routers, places) && w in x.ids && w in x.pcs && !HasResult(x.pcs[w]) && HasResult(pc)
    requires var p := x.ids[w];
             p in routers && p in places && !places[p].With? && ResultOf(pc) == routers[p].result
    ensures WaitPlaces(x.(pcs := x.pcs[w := pc]), routers, places[x.ids[w] := With(w)])
  {
  }

  lemma ChanElsewhere(n: Net, ids: map<Id, Id>, routers: map<Id, RouterPc>, places: map<Id, Place>, p: Id, at: Place)
    requires ChanPlaces(n, ids, routers, places) && p in places && !places[p].InChan? && !at.InChan?
    ensures ChanPlaces(n, ids, routers, places[p := at])
  {
  }

  lemma CacheLoses(c: Cache, routers: map<Id, RouterPc>, places: map<Id, Place>, p: Id, at: Place)
    requires CachePlaces(c, routers, places) && !at.InCache?
    ensures CachePlaces(PopKeepPlace(c, p), routers, places[p := at])
  {
  }

  lemma TakeCachedKeepsPlace(s: State, w: Id)
    requires NetInv(s) && PlaceInv(s) && Enabled(s, TakeCached(w))
    ensures PlaceInv(Do(s, TakeCached(w)))
  {
    var p := s.waits.ids[w];
    var pc := DoTake(s, w).waits.pcs[w];
    if p in s.cache.results {
      WaitGains(s.waits, s.routers, s.places, w, pc);
      ChanElsewhere(s.net, s.waits.ids, s.routers, s.places, p, With(w));
      CacheLoses(s.cache, s.routers, s.places, p, With(w));
    } else {
      WaitMoves(s.waits, s.routers, s.places, w, pc);
    }
  }

  lemma EnterKeepsNet(s: State, w: Id)
    requires NetInv(s) && Enabled(s, Enter(w))
    ensures NetInv(Do(s, Enter(w)))
  {
    NetEnters(s.net, s.waits.ids, s.routers, s.waits.ids[w], w);
  }

  lemma EnterKeepsPlace(s: State, w: Id)
    requires NetInv(s) && PlaceInv(s) && Enabled(s, Enter(w))
    ensures PlaceInv(Do(s, Enter(w)))
  {
    WaitMoves(s.waits, s.routers, s.places, w, DoEnter(s, w).waits.pcs[w]);
    ChanMoves(s.net, s.waits.ids, s.routers, s.places, w, Open);
  }

  lemma WakeKeepsNet(s: State, w: Id)
    requires NetInv(s) && Enabled(s, Wake(w))
    ensures NetInv(Do(s, Wake(w)))
  {
  }

  lemma ChanEmpties(n: Net, ids: map<Id, Id>, routers: map<Id, RouterPc>, places: map<Id, Place>, w: Id)
    requires ChanPlaces(n, ids, routers, places) && w in ids && w in n.chans && n.chans[w].Sent?
    ensures ChanPlaces(n.(chans := n.chans[w := Received]), ids, routers, places[ids[w] := With(w)])
  {
  }

  lemma WakeKeepsPlace(s: State, w: Id)
    requires NetInv(s) && PlaceInv(s) && Enabled(s, Wake(w))
    ensures PlaceInv(Do(s, Wake(w)))
  {
    if s.net.chans[w].Closed? {
      WaitMoves(s.waits, s.routers, s.places, w, DropClosed);
    } else {
      ChanEmpties(s.net, s.waits.ids, s.routers, s.places, w);
      WaitGains(s.waits, s.routers, s.places, w, Done(Got(s.net.chans[w].result)));
    }
  }

  lemma ExpireKeepsNet(s: State, w: Id)
    requires NetInv(s) && Enabled(s, Expire(w))
    ensures NetInv(Do(s, Expire(w)))
  {
  }

  lemma ExpireKeepsPlace(s: State, w: Id)
    requires NetInv(s) && PlaceInv(s) && Enabled(s, Expire(w))
    ensures PlaceInv(Do(s, Expire(w)))
  {
  }

  lemma DropKeepsNet(n: Net, ids: map<Id, Id>, routers: map<Id, RouterPc>, p: Id)
    requires NetOk(n, ids, routers)
    ensures NetOk(DropSender(n, p), ids, routers)
  {
  }

  lemma DropKeepsListening(n: Net, ids: map<Id, Id>, routers: map<Id, RouterPc>, pcs: map<Id, WaitPc>, w: Id, pc: WaitPc)
    requires NetOk(n, ids, routers) && ListenOk(n, pcs) && w in ids && w in pcs && !n.chans[w].Sent?
    requires n.chans[w].Open? ==> ids[w] in n.completers && n.completers[ids[w]] == w
    ensures ListenOk(DropSender(n, ids[w]), pcs[w := pc])
  {
  }

  lemma LeaveKeepsNet(s: State, w: Id)
    requires NetInv(s) && PlaceInv(s) && Enabled(s, Leave(w))
    ensures NetInv(Do(s, Leave(w)))
  {
    DropKeepsNet(s.net, s.waits.ids, s.routers, s.waits.ids[w]);
    DropKeepsListening(s.net, s.waits.ids, s.routers, s.waits.pcs, w, DoLeave(s, w).waits.pcs[w]);
  }

  lemma DropKeepsChans(n: Net, ids: map<Id, Id>, routers: map<Id, RouterPc>, places: map<Id, Place>, p: Id)
    requires ChanPlaces(n, ids, routers, places)
    ensures ChanPlaces(DropSender(n, p), ids, routers, places)
  {
  }

  lemma WaitSettles(x: Waits, routers: map<Id, RouterPc>, places: map<Id, Place>, w: Id, pc: WaitPc)
    requires WaitPlaces(x, routers, places) && w in x.pcs && HasResult(x.pcs[w])
    requires HasResult(pc) && ResultOf(pc) == ResultOf(x.pcs[w])
    ensures WaitPlaces(x.(pcs := x.pcs[w := pc]), routers, places)
  {
  }

  lemma LeaveKeepsPlace(s: State, w: Id)
    requires PlaceInv(s) && Enabled(s, Leave(w))
    ensures PlaceInv(Do(s, Leave(w)))
  {
    DropKeepsChans(s.net, s.waits.ids, s.routers, s.places, s.waits.ids[w]);
    if s.waits.pcs[w].DropAfterPop? {
      WaitSettles(s.waits, s.routers, s.places, w, DoLeave(s, w).waits.pcs[w]);
    } else {
      WaitMoves(s.waits, s.routers, s.places, w, DoLeave(s, w).waits.pcs[w]);
    }
  }

  lemma ForgetKeepsNet(s: State, p: Id)
    requires NetInv(s) && Enabled(s, Forget(p))
    ensures NetInv(Do(s, Forget(p)))
  {
  }

  lemma ForgetKeepsPlace(s: State, p: Id)
    requires NetInv(s) && PlaceInv(s) && Enabled(s, Forget(p))
    ensures PlaceInv(Do(s, Forget(p)))
  {
  }

  lemma UnhookKeepsNet(s: State, p: Id)
    requires NetInv(s) && Enabled(s, Unhook(p))
    ensures NetInv(Do(s, Unhook(p)))
  {
  }

  lemma UnhookKeepsPlace(s: State, p: Id)
    requires NetInv(s) && PlaceInv(s) && Enabled(s, Unhook(p))
    ensures PlaceInv(Do(s, Unhook(p)))
  {
  }

  lemma KillKeepsNet(s: State)
    requires NetInv(s) && PlaceInv(s) && Enabled(s, Kill)
    ensures NetInv(Do(s, Kill))
  {
  }

  lemma ClearKeepsPlace(s: State)
    requires PlaceInv(s) && s.kill.NoCompleters?
    ensures PlaceInv(DoKill(s))
  {
    ElsewhereKept(s, DoKill(s));
  }

  lemma KillKeepsPlace(s: State)
    requires PlaceInv(s) && Enabled(s, Kill)
    ensures PlaceInv(Do(s, Kill))
  {
    if s.kill.NoCompleters? {
      ClearKeepsPlace(s);
    }
  }

  lemma StepKeepsNet(s: State, a: Action)
    requires NetInv(s) && PlaceInv(s) && Enabled(s, a)
    ensures NetInv(Do(s, a))
  {
    match a
    case Route(p, r) => RouteKeepsNet(s, p, r);
    case LookUp(p) => LookUpKeepsNet(s, p);
    case Send(p) => SendKeepsNet(s, p);
    case StoreIt(p) => StoreKeepsNet(s, p);
    case StartWait(w, p) => StartWaitKeepsNet(s, w, p);
    case TakeCached(w) => TakeCachedKeepsNet(s, w);
    case Enter(w) => EnterKeepsNet(s, w);
    case Wake(w) => WakeKeepsNet(s, w);
    case Expire(w) => ExpireKeepsNet(s, w);
    case Leave(w) => LeaveKeepsNet(s, w);
    case Forget(p) => ForgetKeepsNet(s, p);
    case Unhook(p) => UnhookKeepsNet(s, p);
    case Kill => KillKeepsNet(s);
  }

  lemma StepKeepsPlace(s: State, a: Action)
    requires NetInv(s) && PlaceInv(s) && Enabled(s, a)
    ensures PlaceInv(Do(s, a))
  {
    match a
    case Route(p, r) => RouteKeepsPlace(s, p, r);
    case LookUp(p) => LookUpKeepsPlace(s, p);
    case Send(p) => SendKeepsPlace(s, p);
    case StoreIt(p) => StoreKeepsPlace(s, p);
    case StartWait(w, p) => StartWaitKeepsPlace(s, w, p);
    case TakeCached(w) => TakeCachedKeepsPlace(s, w);
    case Enter(w) => EnterKeepsPlace(s, w);
    case Wake(w) => WakeKeepsPlace(s, w);
    case Expire(w) => ExpireKeepsPlace(s, w);
    case Leave(w) => LeaveKeepsPlace(s, w);
    case Forget(p) => ForgetKeepsPlace(s, p);
    case Unhook(p) => UnhookKeepsPlace(s, p);
    case Kill => KillKeepsPlace(s);
  }

  lemma RemovalShrinks(m: map<Id, Payload>, p: Id)
    ensures |m - {p}| <= |m|
  {
    SubsetCardinality((m - {p}).Keys, m.Keys);
  }

  lemma CacheKept(s: State, a: Action)
    requires Enabled(s, a) && !a.StoreIt? && !a.TakeCached? && !a.Forget?
    ensures Do(s, a).cache.results == s.cache.results || Do(s, a).cache.results == map[]
  {
  }

  lemma StepKeepsBound(s: State, a: Action)
    requires |s.cache.results| <= GEMINI_CAP && Enabled(s, a)
    ensures |Do(s, a).cache.results| <= GEMINI_CAP
  {
    match a
    case StoreIt(p) => GeminiBoundOutOfStep(s.cache, GEMINI_CAP, p, s.routers[p].result);
    case TakeCached(w) => RemovalShrinks(s.cache.results, s.waits.ids[w]);
    case Forget(p) => RemovalShrinks(s.cache.results, p);
    case _ => CacheKept(s, a);
  }

  lemma {:induction false} RunInv(s: State, run: seq<Action>)
    requires Inv(s) && ValidFrom(s, run)
    ensures Inv(Final(s, run))
    decreases run
  {
    if run != [] {
      StepKeepsNet(s, run[0]);
      StepKeepsPlace(s, run[0]);
      StepKeepsBound(s, run[0]);
      RunInv(Do(s, run[0]), run[1..]);
    }
  }

  // ---- What holds in every run -------------------------------------------------------------

  /** The places that physically hold the routed result of `p`. */
  ghost function Holders(s: State, p: Id): set<Place> {
    (if p in s.routers && !s.routers[p].Routed? then {WithRouter} else {})
    + (if p in s.cache.results then {InCache} else {})
    + (set w | w in s.waits.ids && s.waits.ids[w] == p && w in s.net.chans && s.net.chans[w].Sent? :: InChan(w))
    + (set w | w in s.waits.ids && s.waits.ids[w] == p && w in s.waits.pcs && HasResult(s.waits.pcs[w]) :: With(w))
  }

  lemma HeldOnce(s: State, p: Id)
    requires Inv(s) && p in s.routers
    ensures p in s.places && Holders(s, p) == if s.places[p].Gone? then {} else {s.places[p]}
  {
  }

  /** At every moment a routed result is in one place: with its router, on its way to one waiter,
      with one waiter, or in the cache; or in none, after it was evicted, popped by a new
      `send_prompt` under the same id, or cleared by a kill. */
  lemma ResultInOnePlace(run: seq<Action>, p: Id)
    requires ValidFrom(Init, run) && p in Final(Init, run).routers
    ensures var s := Final(Init, run);
            && p in s.places
            && Holders(s, p) == if s.places[p].Gone? then {} else {s.places[p]}
  {
    RunInv(Init, run);
    HeldOnce(Final(Init, run), p);
  }

  /** A waiter only ever returns the result routed for its prompt, and no second waiter does. */
  lemma ResultGoesToOneWaiter(run: seq<Action>, w: Id)
    requires ValidFrom(Init, run)
    requires var x := Final(Init, run).waits; w in x.pcs && HasResult(x.pcs[w])
    ensures var s := Final(Init, run);
            && w in s.waits.ids && s.waits.ids[w] in s.routers
            && ResultOf(s.waits.pcs[w]) == s.routers[s.waits.ids[w]].result
            && forall v <- s.waits.pcs :: v in s.waits.ids && s.waits.ids[v] == s.waits.ids[w] && HasResult(s.waits.pcs[v]) ==> v == w
  {
    RunInv(Init, run);
  }

  /** The result map never exceeds its bound, although the clears of a kill can leave map and key
      queue out of step. */
  lemma CacheStaysBounded(run: seq<Action>)
    requires ValidFrom(Init, run)
    ensures |Final(Init, run).cache.results| <= GEMINI_CAP
  {
    RunInv(Init, run);
  }

  // ---- Who is woken ------------------------------------------------------------------------

  /** A completer left in the map after the lookup is a late waiter's, and no other; a late
      waiter is in no router's hands and never gets a result through its channel. */
  ghost predicate LateOk(n: Net, ids: map<Id, Id>, routers: map<Id, RouterPc>, late: set<Id>) {
    && late <= ids.Keys
    && (forall p <- n.completers :: n.completers[p] in late <==> LookedUp(routers, p))
    && (forall p <- routers :: routers[p].Sending? ==> routers[p].w !in late)
    && (forall w <- n.chans :: n.chans[w].Sent? || n.chans[w].Received? ==> w !in late)
  }

  /** A waiter that is yet to register is in nobody's hands. */
  ghost predicate FreshOk(n: Net, pcs: map<Id, WaitPc>, routers: map<Id, RouterPc>, late: set<Id>) {
    forall w <- pcs :: pcs[w].PopFirst? || pcs[w].Register? ==>
      && w !in late && (w in n.chans ==> n.chans[w].Closed?)
      && (forall p <- routers :: routers[p].Sending? ==> routers[p].w != w)
      && (forall p <- n.completers :: n.completers[p] != w)
  }

  ghost predicate LateInv(s: State) {
    LateOk(s.net, s.waits.ids, s.routers, s.late) && FreshOk(s.net, s.waits.pcs, s.routers, s.late)
  }

  lemma DropKeepsLate(n: Net, ids: map<Id, Id>, pcs: map<Id, WaitPc>, routers: map<Id, RouterPc>, late: set<Id>, p: Id)
    requires LateOk(n, ids, routers, late) && FreshOk(n, pcs, routers, late)
    ensures LateOk(DropSender(n, p), ids, routers, late) && FreshOk(DropSender(n, p), pcs, routers, late)
  {
  }

  lemma RouteKeepsLate(s: State, p: Id, r: Payload)
    requires LateInv(s) && Enabled(s, Route(p, r))
    ensures LateInv(Do(s, Route(p, r)))
  {
  }

  lemma StoreKeepsLate(s: State, p: Id)
    requires LateInv(s) && Enabled(s, StoreIt(p))
    ensures LateInv(Do(s, StoreIt(p)))
  {
  }

  lemma LookUpKeepsLate(s: State, p: Id)
    requires NetInv(s) && LateInv(s) && Enabled(s, LookUp(p))
    ensures LateInv(Do(s, LookUp(p)))
  {
  }

  lemma SendKeepsLate(s: State, p: Id)
    requires NetInv(s) && LateInv(s) && Enabled(s, Send(p))
    ensures LateInv(Do(s, Send(p)))
  {
  }

  lemma StartWaitKeepsLate(s: State, w: Id, p: Id)
    requires NetInv(s) && LateInv(s) && Enabled(s, StartWait(w, p))
    ensures LateInv(Do(s, StartWait(w, p)))
  {
  }

  lemma LateEnters(n: Net, ids: map<Id, Id>, routers: map<Id, RouterPc>, late: set<Id>, p: Id, w: Id)
    requires LateOk(n, ids, routers, late) && w in ids && w in n.chans && w !in late
    requires forall q <- n.completers :: n.completers[q] != w
    requires forall q <- routers :: routers[q].Sending? ==> routers[q].w != w
    ensures var late' := if LookedUp(routers, p) then late + {w} else late;
            LateOk(Net(n.completers[p := w], n.chans[w := Open]), ids, routers, late')
  {
  }

  lemma FreshEnters(n: Net, pcs: map<Id, WaitPc>, routers: map<Id, RouterPc>, late: set<Id>, p: Id, w: Id, more: set<Id>)
    requires FreshOk(n, pcs, routers, late) && more <= late + {w}
    ensures FreshOk(Net(n.completers[p := w], n.chans[w := Open]), pcs[w := PopAgain], routers, more)
  {
  }

  lemma EnterKeepsLate(s: State, w: Id)
    requires LateInv(s) && Enabled(s, Enter(w))
    ensures LateInv(Do(s, Enter(w)))
  {
    LateEnters(s.net, s.waits.ids, s.routers, s.late, s.waits.ids[w], w);
    FreshEnters(s.net, s.waits.pcs, s.routers, s.late, s.waits.ids[w], w, DoEnter(s, w).late);
  }

  lemma TakeKeepsLate(s: State, w: Id)
    requires LateInv(s) && Enabled(s, TakeCached(w))
    ensures LateInv(Do(s, TakeCached(w)))
  {
  }

  lemma WakeKeepsLate(s: State, w: Id)
    requires LateInv(s) && Enabled(s, Wake(w))
    ensures LateInv(Do(s, Wake(w)))
  {
  }

  lemma ExpireKeepsLate(s: State, w: Id)
    requires LateInv(s) && Enabled(s, Expire(w))
    ensures LateInv(Do(s, Expire(w)))
  {
  }

  lemma LeaveKeepsLate(s: State, w: Id)
    requires NetInv(s) && LateInv(s) && Enabled(s, Leave(w))
    ensures LateInv(Do(s, Leave(w)))
  {
    DropKeepsLate(s.net, s.waits.ids, s.waits.pcs, s.routers, s.late, s.waits.ids[w]);
  }

  lemma KillKeepsLate(s: State)
    requires NetInv(s) && LateInv(s) && Enabled(s, Kill)
    ensures LateInv(Do(s, Kill))
  {
  }

  lemma StepKeepsLate(s: State, a: Action)
    requires NetInv(s) && LateInv(s) && Enabled(s, a)
    ensures LateInv(Do(s, a))
  {
    match a
    case LookUp(p) => LookUpKeepsLate(s, p);
    case Send(p) => SendKeepsLate(s, p);
    case StartWait(w, p) => StartWaitKeepsLate(s, w, p);
    case Enter(w) => EnterKeepsLate(s, w);
    case TakeCached(w) => TakeKeepsLate(s, w);
    case Wake(w) => WakeKeepsLate(s, w);
    case Expire(w) => ExpireKeepsLate(s, w);
    case Leave(w) => LeaveKeepsLate(s, w);
    case Unhook(p) => DropKeepsLate(s.net, s.waits.ids, s.waits.pcs, s.routers, s.late, p);
    case Kill => KillKeepsLate(s);
    case Route(p, r) => RouteKeepsLate(s, p, r);
    case StoreIt(p) => StoreKeepsLate(s, p);
    case Forget(_) =>
  }

  lemma {:induction false} RunLate(s: State, run: seq<Action>)
    requires Inv(s) && LateInv(s) && ValidFrom(s, run)
    ensures LateInv(Final(s, run))
    decreases run
  {
    if run != [] {
      StepKeepsLate(s, run[0]);
      StepKeepsNet(s, run[0]);
      StepKeepsPlace(s, run[0]);
      StepKeepsBound(s, run[0]);
      RunLate(Do(s, run[0]), run[1..]);
    }
  }

  /** A result for the waiter is still to come through its channel: its completer is in the map and
      the lookup for its prompt is ahead, or the router has it in hands. */
  predicate SenderToCome(s: State, w: Id) {
    && w in s.waits.ids
    && var p := s.waits.ids[w];
       || (p in s.net.completers && s.net.completers[p] == w && !LookedUp(s.routers, p))
       || (p in s.routers && s.routers[p].Sending? && s.routers[p].w == w)
  }

  /** In every run, a waiter with an open channel is yet to be served through it if and only if it
      registered before the lookup for its prompt. */
  lemma WokenIffInTime(run: seq<Action>, w: Id)
    requires ValidFrom(Init, run)
    requires var n := Final(Init, run).net; w in n.chans && n.chans[w].Open?
    ensures var s := Final(Init, run); SenderToCome(s, w) <==> w !in s.late
  {
    RunInv(Init, run);
    RunLate(Init, run);
  }

  lemma LookupTakes(s: State, w: Id)
    requires NetInv(s) && SenderToCome(s, w) && w in s.net.chans && Enabled(s, LookUp(s.waits.ids[w]))
    ensures var p := s.waits.ids[w]; DoLookUp(s, p).routers[p] == Sending(s.routers[p].result, w)
  {
  }

  lemma SendFills(s: State, w: Id)
    requires SenderToCome(s, w) && w in s.net.chans && s.net.chans[w].Open? && Enabled(s, Send(s.waits.ids[w]))
    requires LateInv(s)
    ensures var p := s.waits.ids[w];
            w in DoSend(s, p).net.chans && DoSend(s, p).net.chans[w] == Sent(s.routers[p].result)
  {
  }

  /** The steps to come do serve it: the lookup takes its completer, the send fills its channel. */
  lemma ToComeArrives(run: seq<Action>, w: Id)
    requires ValidFrom(Init, run) && SenderToCome(Final(Init, run), w)
    requires var n := Final(Init, run).net; w in n.chans && n.chans[w].Open?
    ensures var s := Final(Init, run);
            var p := s.waits.ids[w];
            && (Enabled(s, LookUp(p)) ==> DoLookUp(s, p).routers[p] == Sending(s.routers[p].result, w))
            && (Enabled(s, Send(p)) ==>
                  w in DoSend(s, p).net.chans && DoSend(s, p).net.chans[w] == Sent(s.routers[p].result))
  {
    RunInv(Init, run);
    RunLate(Init, run);
    var s := Final(Init, run);
    var p := s.waits.ids[w];
    if Enabled(s, LookUp(p)) {
      LookupTakes(s, w);
    }
    if Enabled(s, Send(p)) {
      SendFills(s, w);
    }
  }

  /** A late waiter never gets a result through its channel, in any continuation. */
  lemma LateNeverServed(run: seq<Action>, w: Id)
    requires ValidFrom(Init, run) && w in Final(Init, run).late && w in Final(Init, run).net.chans
    ensures var c := Final(Init, run).net.chans[w]; !c.Sent? && !c.Received?
  {
    RunInv(Init, run);
    RunLate(Init, run);
  }

  // ---- What does not hold ------------------------------------------------------------------

  lemma {:induction false} Extend(s: State, run: seq<Action>, a: Action)
    requires ValidFrom(s, run) && Enabled(Final(s, run), a)
    ensures ValidFrom(s, run + [a]) && Final(s, run + [a]) == Do(Final(s, run), a)
    decreases run
  {
    if run == [] {
      assert run + [a] == [a] && [a][1..] == [];
    } else {
      assert (run + [a])[1..] == run[1..] + [a];
      Extend(Do(s, run[0]), run[1..], a);
    }
  }

  lemma Then(run: seq<Action>, s: State, a: Action) returns (longer: seq<Action>, next: State)
    requires ValidFrom(Init, run) && s == Final(Init, run) && Enabled(s, a)
    ensures ValidFrom(Init, longer) && next == Final(Init, longer) && next == Do(s, a)
  {
    Extend(Init, run, a);
    longer, next := run + [a], Do(s, a);
  }

  lemma LookupFindsNobody() returns (run: seq<Action>, s: State)
    ensures ValidFrom(Init, run) && s == Final(Init, run)
    ensures s == State(Net(map[], map[0 := Closed]), Empty, Waits(map[0 := 1], map[0 := Register]),
                       map[1 := Caching(7)], Alive, map[1 := WithRouter], {})
  {
    run, s := [], Init;
    run, s := Then(run, s, Route(1, 7));
    run, s := Then(run, s, LookUp(1));
    run, s := Then(run, s, StartWait(0, 1));
    run, s := Then(run, s, TakeCached(0));
  }

  lemma StoreIntoEmpty()
    ensures StoreKeepPlace(Empty, GEMINI_CAP, 1, 7) == Cache([1], map[1 := 7])
  {
  }

  lemma LateWaiterParks() returns (run: seq<Action>, s: State)
    ensures ValidFrom(Init, run) && s == Final(Init, run)
    ensures s == State(Net(map[1 := 0], map[0 := Open]), Empty, Waits(map[0 := 1], map[0 := Parked]),
                       map[1 := Caching(7)], Alive, map[1 := WithRouter], {0})
  {
    run, s := LookupFindsNobody();
    run, s := Then(run, s, Enter(0));
    run, s := Then(run, s, TakeCached(0));
  }

  /** No wake-up is promised: a waiter that registers between the lookup and the caching parks
      with its result in the cache and nobody left to tell it. */
  lemma LateWaiterIsStranded() returns (run: seq<Action>, s: State)
    ensures ValidFrom(Init, run) && s == Final(Init, run)
    ensures s.waits.pcs == map[0 := Parked] && s.waits.ids == map[0 := 1] && s.net.chans == map[0 := Open]
    ensures 1 in s.cache.results && s.kill.Alive? && s.routers == map[1 := Routed(7)] && s.late == {0}
  {
    run, s := LateWaiterParks();
    StoreIntoEmpty();
    run, s := Then(run, s, StoreIt(1));
  }
}
