/** The coordinator's subscriber registry: a map from subscriber id to the
    subscriber's push endpoint and its count of unacknowledged pushes; the
    publisher service whose `subscribe` fills it; the subscriptions whose
    drop empties it; and the broadcast engine, which pushes to every entry
    below the in-flight cap, with the completion handlers of those pushes.

    The `capnp` module of src/mgmt/manager.rs and src/master.rs carry the
    same code for all of this; both are modelled by this module. */
module Registry {
  import opened Wrappers

  /** A subscriber with this many unacknowledged pushes is skipped by a broadcast. */
  const MaxInFlight: int := 5

  type SubscriberId = nat

  /** The identity of a subscriber's push endpoint (its RPC client capability). */
  type Client = nat

  newtype byte = x: int | 0 <= x < 256

  type Bytes = seq<byte>

  /** A registry entry: the endpoint and its `requests_in_flight` counter. */
  datatype SubscriberHandle = SubscriberHandle(client: Client, requestsInFlight: int)

  type Subscribers = map<SubscriberId, SubscriberHandle>

  /** One push request issued by a broadcast: the entry it was issued for,
      the endpoint it goes to, and the bytes it carries. */
  datatype Push = Push(id: SubscriberId, client: Client, payload: Bytes)

  /** Why a `subscribe` call was answered with an error: its parameters did
      not hold a readable subscriber capability. */
  datatype RpcError = MalformedParams

  // -----------------------------------------------------------------------
  // Each operation's effect on the map, as a value.

  /** The ids a broadcast pushes to: the entries below the cap. */
  function Eligible(m: Subscribers): set<SubscriberId>
  {
    set id | id in m && m[id].requestsInFlight < MaxInFlight
  }

  function Bump(h: SubscriberHandle): SubscriberHandle
  {
    if h.requestsInFlight < MaxInFlight
    then h.(requestsInFlight := h.requestsInFlight + 1)
    else h
  }

  /** The map after the sends of one broadcast round: no key is added or
      removed, every entry below the cap gains one, the others are untouched. */
  function Broadcasted(m: Subscribers): (r: Subscribers)
    ensures r.Keys == m.Keys
    ensures forall id :: id in m ==> r[id].client == m[id].client
    ensures forall id :: id in Eligible(m) ==> r[id].requestsInFlight == m[id].requestsInFlight + 1
    ensures forall id :: id in m && id !in Eligible(m) ==> r[id] == m[id]
  {
    map id | id in m :: Bump(m[id])
  }

  /** The map after a push for `id` succeeded: that entry, if still present,
      loses one; no key is added or removed and no other entry changes. */
  function Acknowledged(m: Subscribers, id: SubscriberId): (r: Subscribers)
    ensures r.Keys == m.Keys
    ensures id in m ==> r[id].client == m[id].client && r[id].requestsInFlight == m[id].requestsInFlight - 1
    ensures forall other :: other in m && other != id ==> r[other] == m[other]
  {
    if id in m then m[id := m[id].(requestsInFlight := m[id].requestsInFlight - 1)] else m
  }

  /** The map after `id` is removed, by a dropped subscription or a failed
      push: exactly that key goes, every other entry stays as it was. */
  function Without(m: Subscribers, id: SubscriberId): (r: Subscribers)
    ensures r.Keys == m.Keys - {id}
    ensures forall other :: other in r ==> r[other] == m[other]
  {
    m - {id}
  }

  // -----------------------------------------------------------------------
  // The registry invariant.

  /** Every entry's counter lies in 0..MaxInFlight and equals the number of
      pushes issued for that entry whose completion has not yet run. */
  ghost predicate CountersMatch(m: Subscribers, pending: multiset<SubscriberId>)
  {
    forall id :: id in m ==>
      0 <= m[id].requestsInFlight <= MaxInFlight && m[id].requestsInFlight == pending[id]
  }

  /** Every id the registry still refers to: its keys and the ids of
      outstanding pushes. */
  ghost function LiveIds(m: Subscribers, pending: multiset<SubscriberId>): set<SubscriberId>
  {
    m.Keys + set id | id in pending
  }

  lemma BroadcastKeepsCounters(m: Subscribers, pending: multiset<SubscriberId>)
    requires CountersMatch(m, pending)
    ensures CountersMatch(Broadcasted(m), pending + multiset(Eligible(m)))
    ensures LiveIds(Broadcasted(m), pending + multiset(Eligible(m))) == LiveIds(m, pending)
  {
    var r, p := Broadcasted(m), pending + multiset(Eligible(m));
    forall id | id in r
      ensures 0 <= r[id].requestsInFlight <= MaxInFlight && r[id].requestsInFlight == p[id]
    {
      if id in Eligible(m) {
        assert multiset(Eligible(m))[id] == 1;
      } else {
        assert multiset(Eligible(m))[id] == 0;
      }
    }
    assert (set id | id in p) == (set id | id in pending) + Eligible(m);
  }

  lemma AcknowledgeKeepsCounters(m: Subscribers, pending: multiset<SubscriberId>, id: SubscriberId)
    requires CountersMatch(m, pending) && id in pending
    ensures CountersMatch(Acknowledged(m, id), pending - multiset{id})
    ensures LiveIds(Acknowledged(m, id), pending - multiset{id}) <= LiveIds(m, pending)
  {
  }

  lemma RemoveKeepsCounters(m: Subscribers, pending: multiset<SubscriberId>, id: SubscriberId, p: multiset<SubscriberId>)
    requires CountersMatch(m, pending) && p <= pending
    requires forall other :: other != id ==> p[other] == pending[other]
    ensures CountersMatch(Without(m, id), p)
    ensures LiveIds(Without(m, id), p) <= LiveIds(m, pending)
  {
  }

  // -----------------------------------------------------------------------
  // The registry as a state machine over every interleaving of calls.

  /** The registry, the outstanding pushes, and the publisher's `next_id`. */
  datatype State = State(subscribers: Subscribers, pending: multiset<SubscriberId>, nextId: SubscriberId)

  /** The counters match, and no id the registry refers to has yet to be
      handed out. */
  ghost predicate Consistent(s: State)
  {
    && CountersMatch(s.subscribers, s.pending)
    && forall id :: id in LiveIds(s.subscribers, s.pending) ==> id < s.nextId
  }

  /** The callbacks the coordinator's event loop can run on the registry. */
  datatype Event =
    | SubscribeCall(subscriber: Option<Client>)
    | ReleaseCall(id: SubscriberId)
    | BroadcastRound
    | PushSucceeded(id: SubscriberId)
    | PushFailed(id: SubscriberId)

  /** A completion only runs for a push that was issued and has not completed. */
  ghost predicate Enabled(s: State, e: Event)
  {
    match e
    case PushSucceeded(id) => id in s.pending
    case PushFailed(id) => id in s.pending
    case _ => true
  }

  /** One callback: only a successful subscribe adds a key, and that key is
      the old `next_id`, which it then moves on by one; a step sends at most
      one new push per id, and none to an id that is not registered. */
  function Step(s: State, e: Event): (r: State)
    ensures r.nextId == s.nextId + (if e.SubscribeCall? && e.subscriber.Some? then 1 else 0)
    ensures e.SubscribeCall? && e.subscriber.Some? ==>
      r.subscribers.Keys == s.subscribers.Keys + {s.nextId} && r.subscribers[s.nextId] == SubscriberHandle(e.subscriber.value, 0)
    ensures !(e.SubscribeCall? && e.subscriber.Some?) ==> r.subscribers.Keys <= s.subscribers.Keys
    ensures forall id :: r.pending[id] <= s.pending[id] + 1
    ensures forall id :: id !in s.subscribers ==> r.pending[id] <= s.pending[id]
  {
    match e
    case SubscribeCall(None) => s
    case SubscribeCall(Some(c)) =>
      State(s.subscribers[s.nextId := SubscriberHandle(c, 0)], s.pending, s.nextId + 1)
    case ReleaseCall(id) => s.(subscribers := Without(s.subscribers, id))
    case BroadcastRound =>
      s.(subscribers := Broadcasted(s.subscribers), pending := s.pending + multiset(Eligible(s.subscribers)))
    case PushSucceeded(id) =>
      s.(subscribers := Acknowledged(s.subscribers, id), pending := s.pending - multiset{id})
    case PushFailed(id) =>
      s.(subscribers := Without(s.subscribers, id), pending := s.pending - multiset{id})
  }

  /** Every event of `evs` is enabled when it runs. */
  ghost predicate Executable(s: State, evs: seq<Event>)
    decreases |evs|
  {
    |evs| == 0 || (Enabled(s, evs[0]) && Executable(Step(s, evs[0]), evs[1..]))
  }

  function Run(s: State, evs: seq<Event>): State
    decreases |evs|
  {
    if |evs| == 0 then s else Run(Step(s, evs[0]), evs[1..])
  }

  /** The ids handed out by the successful subscribe calls of `evs`, in order. */
  function Issued(s: State, evs: seq<Event>): seq<SubscriberId>
    decreases |evs|
  {
    if |evs| == 0 then []
    else if evs[0].SubscribeCall? && evs[0].subscriber.Some?
    then [s.nextId] + Issued(Step(s, evs[0]), evs[1..])
    else Issued(Step(s, evs[0]), evs[1..])
  }

  lemma StepKeepsConsistent(s: State, e: Event)
    requires Consistent(s) && Enabled(s, e)
    ensures Consistent(Step(s, e))
    ensures Step(s, e).nextId >= s.nextId
  {
    var m, p := s.subscribers, s.pending;
    match e
    case SubscribeCall(None) =>
    case SubscribeCall(Some(c)) =>
      assert s.nextId !in LiveIds(m, p);
    case ReleaseCall(id) =>
      RemoveKeepsCounters(m, p, id, p);
    case BroadcastRound =>
      BroadcastKeepsCounters(m, p);
    case PushSucceeded(id) =>
      AcknowledgeKeepsCounters(m, p, id);
    case PushFailed(id) =>
      RemoveKeepsCounters(m, p, id, p - multiset{id});
  }

  /** Over any interleaving of subscribes, releases, broadcasts and
      completions, the invariant holds; in particular no counter ever leaves
      0..MaxInFlight. */
  lemma {:induction false} RunKeepsConsistent(s: State, evs: seq<Event>)
    requires Consistent(s) && Executable(s, evs)
    ensures Consistent(Run(s, evs))
    ensures forall id :: id in Run(s, evs).subscribers ==>
      0 <= Run(s, evs).subscribers[id].requestsInFlight <= MaxInFlight
    decreases |evs|
  {
    if |evs| > 0 {
      StepKeepsConsistent(s, evs[0]);
      RunKeepsConsistent(Step(s, evs[0]), evs[1..]);
    }
  }

  lemma {:induction false} RunAdvancesNextId(s: State, evs: seq<Event>)
    ensures s.nextId <= Run(s, evs).nextId
    decreases |evs|
  {
    if |evs| > 0 {
      RunAdvancesNextId(Step(s, evs[0]), evs[1..]);
    }
  }

  /** The ids handed out are strictly increasing and lie between the
      `next_id` before and after; so none is handed out twice, and none is
      one the registry still referred to at the start. */
  lemma {:induction false} IssuedIncreasing(s: State, evs: seq<Event>)
    ensures forall i, j :: 0 <= i < j < |Issued(s, evs)| ==> Issued(s, evs)[i] < Issued(s, evs)[j]
    ensures forall i :: 0 <= i < |Issued(s, evs)| ==> s.nextId <= Issued(s, evs)[i] < Run(s, evs).nextId
    ensures Consistent(s) ==>
      forall i :: 0 <= i < |Issued(s, evs)| ==> Issued(s, evs)[i] !in LiveIds(s.subscribers, s.pending)
    decreases |evs|
  {
    if |evs| > 0 {
      var t := Step(s, evs[0]);
      IssuedIncreasing(t, evs[1..]);
      RunAdvancesNextId(t, evs[1..]);
      assert t.nextId >= s.nextId;
      if evs[0].SubscribeCall? && evs[0].subscriber.Some? {
        assert t.nextId == s.nextId + 1;
      }
    }
  }

  /** None of `evs` is a completion of a push for `id`. */
  ghost predicate NoCompletionFor(evs: seq<Event>, id: SubscriberId)
  {
    forall e :: e in evs && (e.PushSucceeded? || e.PushFailed?) ==> e.id != id
  }

  lemma {:induction false} SaturatedStaysSaturated(s: State, evs: seq<Event>, id: SubscriberId)
    requires Consistent(s) && Executable(s, evs)
    requires id < s.nextId
    requires id in s.subscribers ==> s.subscribers[id].requestsInFlight == MaxInFlight
    requires NoCompletionFor(evs, id)
    ensures Run(s, evs).pending[id] == s.pending[id]
    ensures id in Run(s, evs).subscribers ==> Run(s, evs).subscribers[id].requestsInFlight == MaxInFlight
    decreases |evs|
  {
    if |evs| > 0 {
      var t := Step(s, evs[0]);
      StepKeepsConsistent(s, evs[0]);
      assert t.pending[id] == s.pending[id];
      assert forall e :: e in evs[1..] ==> e in evs;
      SaturatedStaysSaturated(t, evs[1..], id);
    }
  }

  /** A subscriber at the cap receives no new push, whatever runs, until one
      of its outstanding pushes completes. */
  lemma SaturatedGetsNoPush(s: State, evs: seq<Event>, id: SubscriberId)
    requires Consistent(s) && Executable(s, evs)
    requires id in s.subscribers && s.subscribers[id].requestsInFlight == MaxInFlight
    requires NoCompletionFor(evs, id)
    ensures Run(s, evs).pending[id] == MaxInFlight
    ensures id in Run(s, evs).subscribers ==> id !in Eligible(Run(s, evs).subscribers)
  {
    assert id in LiveIds(s.subscribers, s.pending);
    SaturatedStaysSaturated(s, evs, id);
  }

  /** Once `id` has left the registry (by release or by a failed push) it
      never comes back, and no later broadcast issues a push for it. */
  lemma {:induction false} RemovedStaysRemoved(s: State, evs: seq<Event>, id: SubscriberId)
    requires id < s.nextId && id !in s.subscribers
    ensures id !in Run(s, evs).subscribers
    ensures Run(s, evs).pending[id] <= s.pending[id]
    decreases |evs|
  {
    if |evs| > 0 {
      var t := Step(s, evs[0]);
      assert id !in t.subscribers && t.pending[id] <= s.pending[id] && id < t.nextId;
      RemovedStaysRemoved(t, evs[1..], id);
    }
  }

  /** A failed push evicts its subscriber for good. */
  lemma FailedPushEvicts(s: State, id: SubscriberId, evs: seq<Event>)
    requires Consistent(s) && id in s.pending
    ensures id !in Step(s, PushFailed(id)).subscribers
    ensures id !in Run(Step(s, PushFailed(id)), evs).subscribers
    ensures Run(Step(s, PushFailed(id)), evs).pending[id] < s.pending[id]
  {
    assert id in LiveIds(s.subscribers, s.pending);
    RemovedStaysRemoved(Step(s, PushFailed(id)), evs, id);
  }

  /** Releasing twice is releasing once, and a release of a present entry
      shrinks the registry by exactly one. */
  lemma ReleaseIdempotent(m: Subscribers, id: SubscriberId)
    ensures Without(Without(m, id), id) == Without(m, id)
    ensures id in m ==> |Without(m, id)| == |m| - 1
    ensures id !in m ==> Without(m, id) == m
  {
    if id in m {
      assert Without(m, id).Keys + {id} == m.Keys;
      assert |Without(m, id).Keys| + 1 == |m.Keys|;
    }
  }

  // -----------------------------------------------------------------------
  // The objects of the source.

  /** `pushes` holds exactly one push per entry of `m` below the cap, each to
      that entry's endpoint and carrying `payload`. */
  ghost predicate PushesFor(m: Subscribers, payload: Bytes, pushes: seq<Push>)
  {
    && (set p | p in pushes :: p.id) == Eligible(m)
    && (forall i, j :: 0 <= i < j < |pushes| ==> pushes[i].id != pushes[j].id)
    && (forall p :: p in pushes ==> p.id in m && p.client == m[p.id].client && p.payload == payload)
  }

  /** The map part-way through a broadcast: the ids still in `todo` are
      not yet visited. */
  function PartlyBroadcasted(m: Subscribers, todo: set<SubscriberId>): Subscribers
  {
    map id | id in m :: if id in todo then m[id] else Bump(m[id])
  }

  /** The pushes issued part-way through a broadcast: one per visited
      entry below the cap. */
  ghost predicate PushesSoFar(m: Subscribers, todo: set<SubscriberId>, payload: Bytes, sent: seq<Push>)
  {
    && (set p | p in sent :: p.id) == Eligible(m) - todo
    && (forall i, j :: 0 <= i < j < |sent| ==> sent[i].id != sent[j].id)
    && (forall p :: p in sent ==>
          p.id in m && p.id !in todo && p.client == m[p.id].client && p.payload == payload)
  }

  lemma PartlyBroadcastedNone(m: Subscribers)
    ensures PartlyBroadcasted(m, m.Keys) == m
    ensures PushesSoFar(m, m.Keys, [], [])
  {
    assert (set p: Push | p in [] :: p.id) == {};
  }

  lemma PartlyBroadcastedAll(m: Subscribers)
    ensures PartlyBroadcasted(m, {}) == Broadcasted(m)
  {
  }

  lemma PartlyBroadcastedStep(m: Subscribers, todo: set<SubscriberId>, idx: SubscriberId)
    requires idx in todo && todo <= m.Keys
    ensures PartlyBroadcasted(m, todo)[idx] == m[idx]
    ensures PartlyBroadcasted(m, todo)[idx := Bump(m[idx])] == PartlyBroadcasted(m, todo - {idx})
    ensures idx !in Eligible(m) ==> PartlyBroadcasted(m, todo) == PartlyBroadcasted(m, todo - {idx})
  {
  }

  lemma PushesSoFarStep(m: Subscribers, todo: set<SubscriberId>, idx: SubscriberId, payload: Bytes, sent: seq<Push>)
    requires idx in todo && idx in Eligible(m) && todo <= m.Keys
    requires PushesSoFar(m, todo, payload, sent)
    ensures PushesSoFar(m, todo - {idx}, payload, sent + [Push(idx, m[idx].client, payload)])
  {
    var sent' := sent + [Push(idx, m[idx].client, payload)];
    assert (set p | p in sent' :: p.id) == (set p | p in sent :: p.id) + {idx};
  }

  /** `SubscriberMap`, shared by the publisher, the subscriptions and the
      broadcast engine. */
  class SubscriberMap {
    var subscribers: Subscribers
    /** The id of every push issued and not yet completed, once per push. */
    ghost var pending: multiset<SubscriberId>

    ghost predicate Valid()
      reads this
    {
      CountersMatch(subscribers, pending)
    }

    ghost function Ids(): set<SubscriberId>
      reads this
    {
      LiveIds(subscribers, pending)
    }

    /** `SubscriberMap::new`. */
    constructor ()
      ensures Valid() && subscribers == map[] && pending == multiset{} && Ids() == {}
    {
      subscribers := map[];
      pending := multiset{};
      new;
      assert (set id | id in pending) == {};
    }

    /** `subscribers.remove(&id)`. */
    method Remove(id: SubscriberId)
      requires Valid()
      modifies this
      ensures Valid()
      ensures subscribers == Without(old(subscribers), id) && pending == old(pending)
      ensures Ids() <= old(Ids())
    {
      RemoveKeepsCounters(subscribers, pending, id, pending);
      subscribers := subscribers - {id};
    }

    /** The send loop of a broadcast: every entry below the cap gains one
        and gets a push of `payload`; entries at the cap are skipped. */
    method Broadcast(payload: Bytes) returns (sent: seq<Push>)
      requires Valid()
      modifies this
      ensures Valid()
      ensures subscribers == Broadcasted(old(subscribers))
      ensures pending == old(pending) + multiset(Eligible(old(subscribers)))
      ensures PushesFor(old(subscribers), payload, sent)
      ensures Ids() == old(Ids())
    {
      ghost var m0, p0 := subscribers, pending;
      BroadcastKeepsCounters(m0, p0);
      var todo := subscribers.Keys;
      sent := [];
      PartlyBroadcastedNone(m0);
      while todo != {}
        invariant todo <= m0.Keys
        invariant subscribers == PartlyBroadcasted(m0, todo)
        invariant pending == p0 + multiset(Eligible(m0) - todo)
        invariant PushesSoFar(m0, todo, payload, sent)
        decreases todo
      {
        var idx :| idx in todo;
        sent := Visit(m0, p0, todo, idx, payload, sent);
        todo := todo - {idx};
      }
      PartlyBroadcastedAll(m0);
      assert Eligible(m0) - {} == Eligible(m0);
    }

    /** One pass of the send loop's body, for the entry `idx`. */
    method Visit(ghost m0: Subscribers, ghost p0: multiset<SubscriberId>, ghost todo: set<SubscriberId>,
                 idx: SubscriberId, payload: Bytes, sent: seq<Push>) returns (sent': seq<Push>)
      requires idx in todo && todo <= m0.Keys
      requires subscribers == PartlyBroadcasted(m0, todo)
      requires pending == p0 + multiset(Eligible(m0) - todo)
      requires PushesSoFar(m0, todo, payload, sent)
      modifies this
      ensures subscribers == PartlyBroadcasted(m0, todo - {idx})
      ensures pending == p0 + multiset(Eligible(m0) - (todo - {idx}))
      ensures PushesSoFar(m0, todo - {idx}, payload, sent')
    {
      var entry := subscribers[idx];
      PartlyBroadcastedStep(m0, todo, idx);
      sent' := sent;
      if entry.requestsInFlight < MaxInFlight {
        assert entry.(requestsInFlight := entry.requestsInFlight + 1) == Bump(m0[idx]);
        subscribers := subscribers[idx := entry.(requestsInFlight := entry.requestsInFlight + 1)];
        pending := pending + multiset{idx};
        PushesSoFarStep(m0, todo, idx, payload, sent);
        sent' := sent + [Push(idx, entry.client, payload)];
        assert Eligible(m0) - (todo - {idx}) == (Eligible(m0) - todo) + {idx};
      } else {
        assert Eligible(m0) - (todo - {idx}) == Eligible(m0) - todo;
      }
    }

    /** The `Ok(_)` arm of a push's completion: the entry, if still present,
        loses one. */
    method OnPushOk(idx: SubscriberId)
      requires Valid() && idx in pending
      modifies this
      ensures Valid()
      ensures subscribers == Acknowledged(old(subscribers), idx) && pending == old(pending) - multiset{idx}
      ensures Ids() <= old(Ids())
    {
      AcknowledgeKeepsCounters(subscribers, pending, idx);
      if idx in subscribers {
        var entry := subscribers[idx];
        subscribers := subscribers[idx := entry.(requestsInFlight := entry.requestsInFlight - 1)];
      }
      pending := pending - multiset{idx};
    }

    /** The `Err(e)` arm of a push's completion: the subscriber is dropped. */
    method OnPushErr(idx: SubscriberId)
      requires Valid() && idx in pending
      modifies this
      ensures Valid()
      ensures subscribers == Without(old(subscribers), idx) && pending == old(pending) - multiset{idx}
      ensures Ids() <= old(Ids())
    {
      RemoveKeepsCounters(subscribers, pending, idx, pending - multiset{idx});
      subscribers := subscribers - {idx};
      pending := pending - multiset{idx};
    }
  }

  /** `SubscriptionImpl`: the capability handed to a subscriber; dropping it
      removes its entry. */
  class Subscription {
    const id: SubscriberId
    const subscribers: SubscriberMap

    constructor (id: SubscriberId, subscribers: SubscriberMap)
      ensures this.id == id && this.subscribers == subscribers
    {
      this.id := id;
      this.subscribers := subscribers;
    }

    /** `Drop for SubscriptionImpl`: removes exactly this id, and is a no-op
        when the entry is already gone. */
    method Drop()
      requires subscribers.Valid()
      modifies subscribers
      ensures subscribers.Valid()
      ensures subscribers.subscribers == Without(old(subscribers.subscribers), id)
      ensures subscribers.pending == old(subscribers.pending)
      ensures subscribers.Ids() <= old(subscribers.Ids())
    {
      subscribers.Remove(id);
    }
  }

  /** `PublisherImpl`: the RPC object workers call `subscribe` on. */
  class PublisherImpl {
    var nextId: SubscriberId
    const subscribers: SubscriberMap
    /** Every id handed out so far, in order. */
    ghost var issued: seq<SubscriberId>

    ghost function AsState(): State
      reads this, subscribers
    {
      State(subscribers.subscribers, subscribers.pending, nextId)
    }

    ghost predicate Valid()
      reads this, subscribers
    {
      && Consistent(AsState())
      && (forall i, j :: 0 <= i < j < |issued| ==> issued[i] < issued[j])
      && (forall i :: 0 <= i < |issued| ==> issued[i] < nextId)
    }

    /** `PublisherImpl::new(subscribers)`: `next_id` starts at 0. */
    constructor (subscribers: SubscriberMap)
      ensures this.subscribers == subscribers && nextId == 0 && issued == []
      ensures subscribers.Valid() && subscribers.Ids() == {} ==> Valid()
    {
      nextId := 0;
      this.subscribers := subscribers;
      issued := [];
    }

    /** `subscribe`: inserts the caller's endpoint under `next_id` with no
        push in flight, returns a subscription bound to that id, and moves
        `next_id` on. When the parameters hold no readable subscriber the
        call fails and nothing changes. */
    method Subscribe(subscriber: Option<Client>) returns (r: Result<Subscription, RpcError>)
      requires Valid()
      modifies this, subscribers
      ensures Valid()
      ensures AsState() == Step(old(AsState()), SubscribeCall(subscriber))
      ensures r.Success? <==> subscriber.Some?
      ensures r.Success? ==>
        && fresh(r.value) && r.value.id == old(nextId) && r.value.subscribers == subscribers
        && subscribers.subscribers[r.value.id] == SubscriberHandle(subscriber.value, 0)
        && issued == old(issued) + [r.value.id]
        && forall i :: 0 <= i < |old(issued)| ==> old(issued)[i] < r.value.id
      ensures r.Failure? ==> issued == old(issued)
    {
      if subscriber.None? {
        return Failure(MalformedParams);
      }
      assert nextId !in subscribers.Ids();
      subscribers.subscribers := subscribers.subscribers[nextId := SubscriberHandle(subscriber.value, 0)];
      var subscription := new Subscription(nextId, subscribers);
      issued := issued + [nextId];
      nextId := nextId + 1;
      r := Success(subscription);
    }
  }
}
