/** The coordinator of src/master.rs: the same registry as the manager's,
    created by the publisher itself, and a broadcast driven by a timer that
    pushes one fixed message, serialised once before the timer starts. */
module Master {
  import opened Registry

  /** `PublisherImpl::new()`: a new, empty registry, and the publisher and
      the caller sharing it; ids start at 0. */
  method NewPublisher() returns (publisher: PublisherImpl, subscribers: SubscriberMap)
    ensures fresh(publisher) && fresh(subscribers) && publisher.subscribers == subscribers
    ensures subscribers.subscribers == map[] && subscribers.Ids() == {}
    ensures publisher.nextId == 0 && publisher.issued == [] && publisher.Valid()
  {
    subscribers := new SubscriberMap();
    publisher := new PublisherImpl(subscribers);
  }

  /** The state the timer's closure captures: the registry handle and the
      message bytes. */
  class Ticker {
    const subscribers: SubscriberMap
    const buf: Bytes

    constructor (subscribers: SubscriberMap, buf: Bytes)
      ensures this.subscribers == subscribers && this.buf == buf
    {
      this.subscribers := subscribers;
      this.buf := buf;
    }

    /** One timer tick: every subscriber below the cap gains one and is
        pushed `buf`; subscribers at the cap are skipped, not queued. Since
        `buf` never changes, every tick pushes the same bytes. */
    method Tick() returns (sent: seq<Push>)
      requires subscribers.Valid()
      modifies subscribers
      ensures subscribers.Valid()
      ensures subscribers.subscribers == Broadcasted(old(subscribers.subscribers))
      ensures subscribers.pending == old(subscribers.pending) + multiset(Eligible(old(subscribers.subscribers)))
      ensures PushesFor(old(subscribers.subscribers), buf, sent)
      ensures subscribers.Ids() == old(subscribers.Ids())
    {
      sent := subscribers.Broadcast(buf);
    }
  }

  /** `publish`: makes the publisher and its registry, then the timer loop
      over the same registry with the message `buf` serialised once. */
  method Publish(buf: Bytes) returns (publisher: PublisherImpl, ticker: Ticker)
    ensures fresh(publisher) && fresh(ticker) && fresh(publisher.subscribers)
    ensures ticker.subscribers == publisher.subscribers && ticker.buf == buf
    ensures publisher.nextId == 0 && publisher.subscribers.subscribers == map[] && publisher.Valid()
  {
    var subscribers;
    publisher, subscribers := NewPublisher();
    ticker := new Ticker(subscribers, buf);
  }
}
