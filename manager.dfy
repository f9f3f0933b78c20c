/** The coordinator's manager (src/mgmt/manager.rs): it starts the worker
    processes, owns the subscriber registry they subscribe to, and asks all
    subscribers to add a new backend server.

    `fork` is an oracle: `fork(id)` is what the call to `fork()` made while
    starting worker `id` returns in the parent. The child's `exec` never
    returns to the supervisor, so it has no counterpart here. */
module Manager {
  import opened Wrappers
  import opened Registry

  type Pid = int

  /** The `io::Error` of a failed fork. */
  datatype IoError = IoError(errno: int)

  /** What `fork()` returns in the parent: the child's pid, or an error. */
  datatype ForkResult = Parent(child: Pid) | ForkFailed(error: IoError)

  datatype Worker = Worker(id: nat, pid: Pid)

  type Fork = nat -> ForkResult

  /** `start_worker(id)`: on a successful fork, the worker record carries
      the id it was called with and the child's pid; otherwise the fork's
      error. */
  function StartWorker(id: nat, fork: Fork): (r: Result<Worker, IoError>)
    ensures r.Success? <==> fork(id).Parent?
    ensures r.Success? ==> r.value.id == id && r.value.pid == fork(id).child
    ensures r.Failure? ==> r.error == fork(id).error
  {
    match fork(id)
    case Parent(child) => Success(Worker(id, child))
    case ForkFailed(e) => Failure(e)
  }

  /** `(from..count).map(start_worker).collect()`: starts the workers in id
      order and stops at the first error. */
  function StartFrom(from: nat, count: nat, fork: Fork): (r: Result<seq<Worker>, IoError>)
    ensures r.Success? && from <= count ==> |r.value| == count - from
    ensures r.Success? ==> forall i :: 0 <= i < |r.value| ==> r.value[i].id == from + i
    ensures r.Failure? ==> exists k: nat :: from <= k < count && fork(k).ForkFailed? && r.error == fork(k).error
    decreases count - from
  {
    if from >= count then Success([])
    else match StartWorker(from, fork)
      case Failure(e) => Failure(e)
      case Success(w) =>
        match StartFrom(from + 1, count, fork)
        case Failure(e) => Failure(e)
        case Success(ws) => Success([w] + ws)
  }

  /** The workers `start_workers(count)` collects: on success, one per id
      `0..count-1` in order; on failure, the error of one of its forks. */
  function CollectWorkers(count: nat, fork: Fork): (r: Result<seq<Worker>, IoError>)
    ensures r.Success? ==> |r.value| == count && forall i :: 0 <= i < count ==> r.value[i].id == i
    ensures r.Failure? ==> exists k: nat :: k < count && fork(k).ForkFailed? && r.error == fork(k).error
  {
    StartFrom(0, count, fork)
  }

  lemma {:induction false} StartFromSucceeds(from: nat, count: nat, fork: Fork)
    requires from <= count
    requires forall id :: from <= id < count ==> fork(id).Parent?
    ensures StartFrom(from, count, fork).Success?
    ensures |StartFrom(from, count, fork).value| == count - from
    ensures forall i :: 0 <= i < count - from ==>
      StartFrom(from, count, fork).value[i] == Worker(from + i, fork(from + i).child)
    decreases count - from
  {
    if from < count {
      StartFromSucceeds(from + 1, count, fork);
    }
  }

  lemma {:induction false} StartFromFails(from: nat, count: nat, fork: Fork, k: nat)
    requires from <= k < count && fork(k).ForkFailed?
    requires forall id :: from <= id < k ==> fork(id).Parent?
    ensures StartFrom(from, count, fork) == Failure(fork(k).error)
    decreases k - from
  {
    if from < k {
      StartFromFails(from + 1, count, fork, k);
    }
  }

  /** When every fork succeeds, `start_workers(count)` yields `count`
      workers with ids 0..count-1 in order, each with its child's pid. */
  lemma StartWorkersSucceed(count: nat, fork: Fork)
    requires forall id: nat :: id < count ==> fork(id).Parent?
    ensures CollectWorkers(count, fork).Success?
    ensures |CollectWorkers(count, fork).value| == count
    ensures forall i :: 0 <= i < count ==> CollectWorkers(count, fork).value[i] == Worker(i, fork(i).child)
  {
    StartFromSucceeds(0, count, fork);
  }

  /** When some fork fails, `start_workers(count)` reports the error of the
      first one that failed. */
  lemma StartWorkersFail(count: nat, fork: Fork, k: nat)
    requires k < count && fork(k).ForkFailed?
    requires forall id: nat :: id < k ==> fork(id).Parent?
    ensures CollectWorkers(count, fork) == Failure(fork(k).error)
  {
    StartFromFails(0, count, fork, k);
  }

  /** Forks after the first failure are never made: two fork histories that
      agree up to and including the first failure give the same outcome. */
  lemma StartWorkersStopAtFirstFailure(count: nat, f: Fork, g: Fork, k: nat)
    requires k < count && f(k).ForkFailed?
    requires forall id: nat :: id < k ==> f(id).Parent?
    requires forall id: nat :: id <= k ==> f(id) == g(id)
    ensures CollectWorkers(count, f) == CollectWorkers(count, g)
  {
    StartFromFails(0, count, f, k);
    StartFromFails(0, count, g, k);
  }

  lemma {:induction false} StartFromOutcome(from: nat, count: nat, fork: Fork)
    requires from <= count
    ensures StartFrom(from, count, fork).Success? <==> forall id :: from <= id < count ==> fork(id).Parent?
    decreases count - from
  {
    if from < count {
      StartFromOutcome(from + 1, count, fork);
    }
  }

  /** `start_workers(count)` succeeds exactly when every one of its forks does. */
  lemma StartWorkersOutcome(count: nat, fork: Fork)
    ensures CollectWorkers(count, fork).Success? <==> forall id: nat :: id < count ==> fork(id).Parent?
  {
    StartFromOutcome(0, count, fork);
  }

  /** `Manager` with its `Inner`: the started workers and the registry. */
  class Manager {
    const workers: seq<Worker>
    const subscribers: SubscriberMap

    constructor (workers: seq<Worker>, subscribers: SubscriberMap)
      ensures this.workers == workers && this.subscribers == subscribers
    {
      this.workers := workers;
      this.subscribers := subscribers;
    }

    /** `Manager::start_workers(count)`: on success, a manager holding the
        collected workers and a new, empty registry; otherwise the first
        fork error. Workers started before a failure are not stopped. */
    static method StartWorkers(count: nat, fork: Fork) returns (r: Result<Manager, IoError>)
      ensures r.Success? <==> CollectWorkers(count, fork).Success?
      ensures r.Success? ==>
        && fresh(r.value) && fresh(r.value.subscribers)
        && r.value.workers == CollectWorkers(count, fork).value
        && r.value.subscribers.Valid()
        && r.value.subscribers.subscribers == map[] && r.value.subscribers.Ids() == {}
      ensures r.Failure? ==> r.error == CollectWorkers(count, fork).error
    {
      match CollectWorkers(count, fork)
      case Failure(e) =>
        r := Failure(e);
      case Success(workers) =>
        var subscribers := new SubscriberMap();
        var manager := new Manager(workers, subscribers);
        r := Success(manager);
    }

    /** `listen`: the publisher it serves shares this manager's registry
        and starts handing out ids at 0. */
    method Listen() returns (publisher: PublisherImpl)
      requires subscribers.Valid() && subscribers.Ids() == {}
      ensures fresh(publisher) && publisher.subscribers == subscribers
      ensures publisher.nextId == 0 && publisher.issued == [] && publisher.Valid()
    {
      publisher := new PublisherImpl(subscribers);
    }

    /** `publish_new_server`: one broadcast of the serialised request to
        every subscriber below the cap. */
    method PublishNewServer(message: Bytes) returns (sent: seq<Push>)
      requires subscribers.Valid()
      modifies subscribers
      ensures subscribers.Valid()
      ensures subscribers.subscribers == Broadcasted(old(subscribers.subscribers))
      ensures subscribers.pending == old(subscribers.pending) + multiset(Eligible(old(subscribers.subscribers)))
      ensures PushesFor(old(subscribers.subscribers), message, sent)
      ensures subscribers.Ids() == old(subscribers.Ids())
    {
      sent := subscribers.Broadcast(message);
    }
  }
}
