# weldr coordinator: subscriber registry, broadcast engine, worker supervisor, management API

This project models the control-plane core of weldr, a load balancer whose
coordinator process forks worker processes and keeps them informed of changes
to the backend pool over Cap'n Proto RPC.

- **Registry** (`registry.dfy`). The subscriber registry is a map from
  subscriber id to the subscriber's push endpoint and its count of
  unacknowledged pushes (`requests_in_flight`). The publisher's `subscribe`
  inserts the caller under `next_id` with count 0, hands back a subscription
  bound to that id, and moves `next_id` on. Dropping a subscription removes
  its id. A broadcast pushes to every entry whose count is below 5 and raises
  that count. A push that succeeds lowers the count of its entry if the entry
  is still there. A push that fails removes the entry. `src/mgmt/manager.rs`
  (its `capnp` module) and `src/master.rs` hold two copies of this code; one
  module models both. The classes `SubscriberMap`, `Subscription` and
  `PublisherImpl` keep the source's fields and change them in place. A ghost
  multiset in `SubscriberMap` records the pushes that have been sent and not
  yet completed. Its invariant says that every count lies in 0..5 and equals
  the number of outstanding pushes for that entry. The same operations also
  exist as a pure state machine (`Step`, `Run`). Its lemmas cover every
  interleaving of subscribes, releases, broadcasts and completions.
- **Manager** (`manager.dfy`). `start_workers(count)` forks workers
  `0..count-1` in order and stops at the first failed fork. `fork` is an
  oracle: `fork(id)` is what the parent sees when it forks worker `id`.
  `publish_new_server` is one broadcast of an already serialised message.
- **Master** (`master.dfy`). Here `PublisherImpl::new` creates the registry
  itself. A timer drives the broadcast, and every tick pushes the same bytes,
  which are serialised once before the timer starts.
- **Api** (`api.dfy`). `Mgmt::call` routes on method and path: the index,
  the server listing with HATEOAS links, adding a server, a placeholder for
  removal, and 404 for everything else. A `Codec` stands for the JSON
  encoder, the JSON decoder and the URL parser. The body of a POST is
  gathered chunk by chunk, as `add_server`'s fold does.

The fields named `method` in the source (`Link.method`, the request's
method) are called `verb`, because `method` is a Dafny keyword.

`subscribe` returns an error through `pry!` when its parameters hold no
readable subscriber capability. In that case nothing is inserted and
`next_id` does not move.

## Model

| member | source | states |
|---|---|---|
| Registry.Broadcasted | src/mgmt/manager.rs:233-258 | a broadcast adds and removes no key and keeps every endpoint; each entry below the cap gains exactly one; entries at the cap are untouched |
| Registry.Acknowledged | src/mgmt/manager.rs:245-248 | a successful completion lowers the counter of `idx` by one if the entry exists; keys and all other entries are unchanged, so a removed entry stays removed |
| Registry.Without | src/mgmt/manager.rs:250-253 | removal drops exactly the key `idx`; every remaining entry is unchanged |
| Registry.BroadcastKeepsCounters | src/mgmt/manager.rs:234-236 | a broadcast keeps every counter in 0..5 and equal to its outstanding pushes, once the pushes it sends are counted as outstanding |
| Registry.AcknowledgeKeepsCounters | src/mgmt/manager.rs:246-248 | the decrement on success keeps the counters matched to outstanding pushes, so no counter goes below 0 |
| Registry.RemoveKeepsCounters | src/mgmt/manager.rs:150-154 | removing an entry, with or without completing one of its pushes, keeps every other entry's counter matched |
| Registry.Step | src/mgmt/manager.rs:150-258 | one callback on the registry: only a successful subscribe adds a key, exactly the old `next_id` with count 0, and moves `next_id` on by one; a callback sends at most one new push per id and none to an unregistered id |
| Registry.StepKeepsConsistent | src/mgmt/manager.rs:150-258 | every callback (subscribe, drop, tick, success, failure) preserves the invariant; `next_id` never decreases |
| Registry.RunKeepsConsistent | src/master.rs:136-157 | across any interleaving of subscribes, drops, ticks and completions, every present entry has 0 <= in_flight <= 5, equal to its outstanding pushes |
| Registry.RunAdvancesNextId | src/mgmt/manager.rs:189 | `next_id` only grows |
| Registry.IssuedIncreasing | src/mgmt/manager.rs:177-189 | ids handed out by successive subscribes are strictly increasing and never one the registry still refers to, so they are never reused |
| Registry.SaturatedStaysSaturated | src/mgmt/manager.rs:235-236 | while none of its pushes completes, an entry at the cap gets no new push and stays at the cap |
| Registry.SaturatedGetsNoPush | src/master.rs:137-138 | a subscriber with 5 pushes in flight is skipped by every tick until one of its pushes completes |
| Registry.RemovedStaysRemoved | src/mgmt/manager.rs:250-253 | an id that has left the registry never returns and gets no further push |
| Registry.FailedPushEvicts | src/master.rs:154-157 | after a failed push its subscriber is absent, and no later sequence of calls brings it back or pushes to it again |
| Registry.ReleaseIdempotent | src/master.rs:47-52 | dropping twice is the same as dropping once; dropping a present id shrinks the registry by exactly one; dropping an absent id changes nothing |
| Registry.SubscriberMap.constructor | src/mgmt/manager.rs:134-136 | `SubscriberMap::new` is empty, with no push outstanding |
| Registry.SubscriberMap.Remove | src/mgmt/manager.rs:153 | `remove(&id)` takes out exactly that id and keeps the invariant |
| Registry.SubscriberMap.Broadcast | src/mgmt/manager.rs:233-258 | the send loop leaves the map as `Broadcasted` says and adds one outstanding push per eligible entry; the pushes sent are exactly one per entry below the cap, each to that entry's endpoint and carrying the payload |
| Registry.SubscriberMap.Visit | src/mgmt/manager.rs:235-241 | one pass of the loop body: an entry below the cap is raised by one and pushed to; an entry at the cap is skipped |
| Registry.SubscriberMap.OnPushOk | src/mgmt/manager.rs:245-248 | the success arm decrements only if the entry is present, completes one outstanding push and keeps the invariant |
| Registry.SubscriberMap.OnPushErr | src/mgmt/manager.rs:250-253 | the error arm removes the entry, completes one outstanding push and keeps the invariant |
| Registry.Subscription.constructor | src/mgmt/manager.rs:145-147 | a subscription is bound to its id and the shared map |
| Registry.Subscription.Drop | src/mgmt/manager.rs:150-155 | dropping removes exactly its own id (a no-op if already gone) and leaves every other entry and every outstanding push as it was |
| Registry.PublisherImpl.constructor | src/mgmt/manager.rs:165-167 | a publisher starts with `next_id` 0 over the given map |
| Registry.PublisherImpl.Subscribe | src/mgmt/manager.rs:171-191 | inserts the endpoint under the old `next_id` with count 0, returns a fresh subscription bound to exactly that id and map, bumps `next_id`, and issues an id above every id issued before; with unreadable parameters it fails and changes nothing (same code at src/master.rs:70-90) |
| Manager.StartWorker | src/mgmt/manager.rs:66-77 | a successful fork gives `Worker { id, pid: child }` with the id it was called for; a failed fork gives its error |
| Manager.StartFrom | src/mgmt/manager.rs:38-40 | the `map(start_worker).collect()` from a given id: on success one worker per remaining id, ids consecutive from `from`; on failure the error of a fork in range |
| Manager.CollectWorkers | src/mgmt/manager.rs:37-40 | the workers `start_workers(count)` collects: on success `count` workers with ids 0..count-1 in order; on failure the error of one of its forks |
| Manager.StartWorkersSucceed | src/mgmt/manager.rs:37-40 | when every fork succeeds, exactly `count` workers with ids 0..count-1 in order |
| Manager.StartWorkersFail | src/mgmt/manager.rs:38-40 | when a fork fails, the error of the first failing one is returned |
| Manager.StartWorkersStopAtFirstFailure | src/mgmt/manager.rs:38-40 | forks after the first failure have no effect on the outcome, because collection stops there |
| Manager.StartWorkersOutcome | src/mgmt/manager.rs:37-48 | `start_workers` succeeds exactly when all of its forks do |
| Manager.Manager.StartWorkers | src/mgmt/manager.rs:37-48 | on success, a new manager with the collected workers and a new empty registry; otherwise the first fork error |
| Manager.Manager.Listen | src/mgmt/manager.rs:54-58 | the publisher shares the manager's registry and starts at id 0 with the invariant established |
| Manager.Manager.PublishNewServer | src/mgmt/manager.rs:220-259 | one broadcast of the message over the manager's registry, with its effect and pushes as for `Broadcast` |
| Master.NewPublisher | src/master.rs:62-66 | `PublisherImpl::new` makes a new empty registry, shared by the publisher and the returned handle, and `next_id` 0 |
| Master.Ticker.Tick | src/master.rs:131-165 | a tick raises and pushes only entries below the cap, skips the others, and every push carries the bytes fixed when the timer was built |
| Master.Publish | src/master.rs:93-131 | the publisher and the timer loop share one new registry, and the message bytes are fixed before the first tick |
| Api.RouteOf | src/mgmt/api.rs:178-198 | `GET /`, `GET /servers`, `POST /servers` and `DELETE /servers` each select their handler, in both directions; everything else falls through to 404 |
| Api.Entries | src/mgmt/api.rs:70-84 | one `PoolServer` per pool server, in pool order, with its url and a single `delete` link to `"/servers/" + url` with method `DELETE` |
| Api.Listing | src/mgmt/api.rs:86-93 | the listing has one entry per pool server, each its url with a single `DELETE` link, and exactly one top-level link: `add` to `/servers` with method `POST` |
| Api.IndexResponse | src/mgmt/api.rs:42-59 | `index()`: status 200, JSON content type, length of the body, and the body is the encoded index with `about` "Weldr Management API" and one `servers` link to `/servers` without method |
| Api.AllServersResponse | src/mgmt/api.rs:95-101 | `all_servers_reponse`: status 200, JSON content type, length of the body, and the body is the encoded listing of the pool |
| Api.AddServerAnswer | src/mgmt/api.rs:108-140 | `add_server`: status 200 exactly when the body decodes and 400 exactly when it does not; the length is declared; the pool keeps every server and grows by at most one; on failure it is unchanged; on success it holds the parsed URL |
| Api.Answer | src/mgmt/api.rs:178-199 | `call`: status 404 exactly when no arm of the match applies; no call removes a server from the pool, and at most one is added |
| Api.WithServer | src/mgmt/api.rs:122 | after `pool.add` the server's URL is present, every earlier server is kept in order, and at most one server is added |
| Api.AnswerPerRoute | src/mgmt/api.rs:178-198 | `GET /` gives an index with `about` "Weldr Management API" and one `servers` link to `/servers` without method; `GET /servers` lists the pool, whose only top-level link is `add` to `/servers` with method `POST`; `DELETE /servers` answers "Remove server"; anything else is a bare 404; none of these touches the pool |
| Api.AnswerDeclaresLength | src/mgmt/api.rs:55-196 | every response `call` builds sets `ContentLength` to its body's length, except for the 404, which sets none |
| Api.OnlyAddChangesPool | src/mgmt/api.rs:178-198 | only `POST /servers` can change the pool |
| Api.AddInvalidJson | src/mgmt/api.rs:127-132 | an undecodable body gives status 400, body `"invalid JSON: " + e` with its length, and leaves the pool unchanged |
| Api.AddValidJson | src/mgmt/api.rs:116-125 | a decodable body adds `Server::new(url, true)` to the pool and answers the listing of the new pool, in which the URL appears with its delete link |
| Api.DeleteLinksNameTheirServer | src/mgmt/api.rs:73-82 | stripping `/servers/` from an entry's delete href gives back that entry's URL |
| Api.DeleteLinksAreNotRouted | src/mgmt/api.rs:189-197 | as written, a `DELETE` on any delete link the listing hands out is answered with 404, since only `/servers` itself is routed |
| Api.CollectBody | src/mgmt/api.rs:110-113 | the fold over the body's chunks yields all of them concatenated in order |
| Api.Pool.Add | src/mgmt/api.rs:122 | the pool afterwards is `WithServer` of the pool before |
| Api.Mgmt.constructor | src/mgmt/api.rs:164-169 | `Mgmt::new` binds the service to the given pool and codec |
| Api.Mgmt.Call | src/mgmt/api.rs:178-199 | the response and the pool afterwards are those that `Answer` gives for the request |
| Api.Mgmt.AddServerToPool | src/mgmt/api.rs:108-140 | collects the body, then either adds the decoded server and lists the pool, or answers 400 with the pool unchanged |

## Left out

- Process plumbing: `fork`, the child's `exec` with its argv, and the hard-coded `weldr_path` (src/mgmt/manager.rs:66-94). Only the result the parent sees from `fork` is kept, as an oracle.
- src/workers.rs: it repeats the supervisor loop of `Manager::start_workers`, which is modelled.
- Cap'n Proto message building and `serialize::write_message`: these are foreign serialisation calls. The message is opaque bytes, passed to `PublishNewServer` and to `Publish`. The repository has no decode side to round-trip against.
- TCP listening, `VatNetwork`/`RpcSystem` setup and `handle.spawn`: these are network and runtime plumbing. Each push completion is an explicit call (`OnPushOk`, `OnPushErr`). A broadcast is one atomic step, because the loop holds the map's `borrow_mut` for the whole pass.
- The timer's five-second interval: a tick is a call to `Tick`.
- `HashMap` iteration order is unspecified: the send loop visits entries in any order, and the order of the pushes it returns is not fixed.
- The subscriber's RPC client capability is only an identity (`Client`). Its push endpoint (src/worker.rs) only logs the message and is not part of this model.
- src/mgmt/health.rs, src/mgmt/mod.rs and src/weldr.rs: health probing, stream merging and connection binding, CLI parsing and role dispatch.
- Registry.PublisherImpl.Subscribe: `next_id` is a `u64` in the source; the model uses an unbounded `nat`, so overflow after 2^64 subscriptions is not modelled.
- Manager.Manager.Listen: requires that the registry refers to no id, neither as an entry nor through an outstanding push. A second `listen` on the same manager is admitted once that holds again, and its publisher starts again at 0 over the same map, so ids are reused across publishers as in the source. The registry's invariant does not track ids still held by live `Subscription` objects: an old subscription's drop then removes a newer entry with the same id, as it would in the source. A second `listen` while entries are present is not covered.
- Api.AnswerDeclaresLength: a body is a `string` of characters, so the declared length counts characters, where the source's own `body.len()` (src/mgmt/api.rs:55, 98, 131, 192) counts UTF-8 bytes and passes that number to `ContentLength`. The same gap applies to the length clauses of Api.IndexResponse, Api.AllServersResponse, Api.AddServerAnswer and Api.AddInvalidJson. The two counts agree only on ASCII bodies, such as "Remove server"; encoded documents and the 400 body, whose decoder message may quote the request body, can hold other characters.
- Api.IndexResponse, Api.AllServersResponse, Api.AddServerAnswer, Api.AddInvalidJson: their declared length counts characters, not UTF-8 bytes, as in the line above.
- Api.Mgmt.AddServerToPool: the body is always delivered whole. In the source, `request.body().fold(..)` (src/mgmt/api.rs:110-113) passes on an error of the body stream as the future's `hyper::Error`; the `and_then` at src/mgmt/api.rs:113-137 then never runs, the pool is untouched and `call` yields no response. The model does not cover a failing body stream, so `Api.Answer` and `Api.Mgmt.Call` answer every `POST /servers`.
- Api.Mgmt.constructor: the `handle: Handle` field of `Mgmt` (the reactor handle, src/mgmt/api.rs:160) is not modelled, because `call` never uses it.
- JSON encoding and decoding and URL parsing are the abstract functions of a `Codec`. The panicking `expect` on URL parsing is a precondition (`UrlParses`). Body chunks are text in the model, so only bodies that are valid UTF-8 are covered; in the source, `String::from_utf8(..).unwrap()` panics on any other body, which plays the same role as the `UrlParses` precondition.
- The content type is only its text `application/json; charset=utf-8`, not hyper's `Mime` structure.
- src/pool.rs is not part of this model. The model assumes that the pool is its servers in order and that `Pool::add` appends a server unless one with the same URL is present. `add` also returns a value in the source (discarded at src/weldr.rs:55 and at src/mgmt/api.rs:122); the model has no such value.
- The removal endpoint is a placeholder in the source: `remove_server` is commented out. The model keeps the placeholder response.
