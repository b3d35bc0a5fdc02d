/** order-service's outbox relay: from the topic that carries the outbox rows to order.created messages. */
module OutboxRelay {
  import opened Domain
  import opened Ordering

  /**
   * The consumer group and what it has published. Rows below `start` were in the topic when the group
   * last joined without a committed offset.
   */
  datatype Relay<M> = Relay(joined: bool, start: nat, position: nat, committed: Option<nat>, published: seq<M>)

  /** `fromBeginning: false`: a group without a committed offset starts at the end of the topic. */
  function Connected<M>(r: Relay<M>, end: nat): Relay<M> {
    match r.committed
    case Some(offset) => r.(joined := true, position := offset)
    case None => r.(joined := true, start := end, position := end)
  }

  /** The next message is done; `event` is what was published for it. */
  function Passed<M>(r: Relay<M>, event: Option<M>): Relay<M> {
    r.(position := r.position + 1, published := r.published + if event.Some? then [event.value] else [])
  }

  /** An offset is committed once a message has been handled; joining alone commits nothing. */
  function CommittedHere<M>(r: Relay<M>): Relay<M> {
    if r.position > r.start then r.(committed := Some(r.position)) else r
  }

  /** The text of a message: an object, a JSON string that holds a text in turn, JSON's null, or no JSON at all. */
  datatype Text = Event(event: OrderCreated) | Encoded(inner: Text) | Null | Malformed

  /** What parsing, once or twice, makes of a message; Unreadable is an exception from JSON.parse. */
  datatype Reading = Empty | Unreadable | Body(body: Text)

  function Read(value: Option<Text>): Reading {
    match value
    case None => Empty
    case Some(Malformed) => Unreadable
    case Some(Encoded(Malformed)) => Unreadable
    case Some(Encoded(inner)) => Body(inner)
    case Some(text) => Body(text)
  }

  /** The message cannot be done: parsing it throws, or reading the order id of what was published does. */
  predicate Jams(reading: Reading) {
    reading.Unreadable? || reading == Body(Null)
  }

  function Published(reading: Reading): Option<Text> {
    if reading.Body? then Some(reading.body) else None
  }

  /** A row's payload arrives as it is, or encoded once more. */
  predicate Carries(value: Option<Text>, e: OrderCreated) {
    value == Some(Event(e)) || value == Some(Encoded(Event(e)))
  }

  /** Messages from r.position up to n handled one after the other. */
  function PassedTo(r: Relay<Text>, topic: seq<Option<Text>>, n: nat): Relay<Text>
    requires r.position <= n <= |topic|
    decreases n
  {
    if n == r.position then r else Passed(PassedTo(r, topic, n - 1), Published(Read(topic[n - 1])))
  }

  /** No message between start and position was passed over, and nothing else was published. */
  predicate Sensible(r: Relay<Text>, topic: seq<Option<Text>>) {
    && r.start <= r.position <= |topic|
    && (r.committed.Some? ==> r.start < r.committed.value <= r.position)
    && (forall k :: r.start <= k < r.position ==>
          !Jams(Read(topic[k])) && (Read(topic[k]).Body? ==> Read(topic[k]).body in r.published))
    && forall text :: text in r.published ==> exists k :: 0 <= k < |topic| && Read(topic[k]) == Body(text)
  }

  class OutboxRelayService {
    var destroyed: bool
    var connected: bool
    var joined: bool
    var start: nat
    var position: nat
    var committed: Option<nat>
    var published: seq<Text>

    function State(): Relay<Text>
      reads this
    {
      Relay(joined, start, position, committed, published)
    }

    predicate Valid(topic: seq<Option<Text>>)
      reads this
    {
      Sensible(State(), topic)
    }

    constructor ()
      ensures !destroyed && !connected && State() == Relay(false, 0, 0, None, [])
      ensures Valid([])
    {
      destroyed, connected, joined, start, position, committed, published := false, false, false, 0, 0, None, [];
    }

    /** `reachable` is whether Kafka is; if not, the consumer is disconnected and another attempt follows. */
    method Connect(topic: seq<Option<Text>>, reachable: bool)
      requires Valid(topic)
      modifies this
      ensures Valid(topic) && destroyed == old(destroyed)
      ensures destroyed ==> connected == old(connected)
      ensures !destroyed ==> connected == reachable
      ensures !destroyed && reachable ==>
        && joined && committed == old(committed) && published == old(published)
        && position == (if old(committed).Some? then old(committed).value else |topic|)
        && start == (if old(committed).Some? then old(start) else |topic|)
      ensures State() == if !destroyed && reachable then Connected(old(State()), |topic|) else old(State())
    {
      if destroyed {
        return;
      }
      if !reachable {
        connected := false;
        return;
      }
      connected, joined := true, true;
      if committed.Some? {
        position := committed.value;
      } else {
        start, position := |topic|, |topic|;
      }
    }

    /** `reachable` is whether the publish works; an exception leaves the message for another delivery. */
    method EachMessage(value: Option<Text>, reachable: bool) returns (done: bool)
      modifies this`published
      ensures done <==> !Jams(Read(value)) && (Read(value).Empty? || reachable)
      ensures published == old(published) + if Read(value).Body? && reachable then [Read(value).body] else []
      ensures value.None? ==> done && published == old(published)
      ensures value == Some(Malformed) || value == Some(Encoded(Malformed)) ==> !done && published == old(published)
      ensures value == Some(Null) || value == Some(Encoded(Null)) ==>
        !done && published == old(published) + if reachable then [Null] else []
      ensures forall e :: Carries(value, e) ==>
        done == reachable && published == old(published) + if reachable then [Event(e)] else []
    {
      if value.None? {
        return true;
      }
      var event := value.value;
      if event.Malformed? {
        return false;
      }
      if event.Encoded? {
        event := event.inner;
        if event.Malformed? {
          return false;
        }
      }
      if reachable {
        published := published + [event];
      }
      return reachable && !event.Null?;
    }

    /**
     * Messages are handled in order until the topic is exhausted, a message jams, or the publish of message
     * `broken` fails. A null jams only after it has been published.
     */
    method Consume(topic: seq<Option<Text>>, broken: nat)
      requires Valid(topic)
      modifies this`position, this`published
      ensures Valid(topic) && old(position) <= position
      ensures var passed := PassedTo(old(State()), topic, position);
              State() == if connected && position < |topic| && position != broken && Read(topic[position]) == Body(Null)
                         then passed.(published := passed.published + [Null]) else passed
      ensures !connected ==> position == old(position)
      ensures connected && position < |topic| ==>
        Jams(Read(topic[position])) || (position == broken && Read(topic[position]).Body?)
    {
      while connected && position < |topic|
        invariant Valid(topic) && old(position) <= position
        invariant State() == PassedTo(old(State()), topic, position)
        invariant !connected ==> position == old(position)
        decreases |topic| - position
      {
        ghost var before := State();
        var done := EachMessage(topic[position], position != broken);
        if !done {
          if published != before.published {
            assert published[|before.published|] == Null;
          }
          assert forall text :: text in before.published ==> text in published;
          return;
        }
        position := position + 1;
        assert State() == Passed(before, Published(Read(topic[position - 1])));
        StaysSensible(before, topic);
      }
    }

    method Commit(topic: seq<Option<Text>>)
      requires Valid(topic)
      modifies this`committed
      ensures Valid(topic) && State() == CommittedHere(old(State()))
      ensures committed == if position > start then Some(position) else old(committed)
    {
      if position > start {
        committed := Some(position);
      }
    }

    method OnModuleDestroy()
      modifies this`destroyed, this`connected
      ensures destroyed && !connected
    {
      destroyed, connected := true, false;
    }
  }

  lemma StaysSensible(r: Relay<Text>, topic: seq<Option<Text>>)
    requires Sensible(r, topic) && r.position < |topic| && !Jams(Read(topic[r.position]))
    ensures Sensible(Passed(r, Published(Read(topic[r.position]))), topic)
  {
    var reading := Read(topic[r.position]);
    var after := Passed(r, Published(reading));
    if reading.Body? {
      assert after.published[|r.published|] == reading.body;
    }
    assert forall text :: text in r.published ==> text in after.published;
  }

  /** However a row was encoded, what is published is its event. */
  lemma RowsArePublishedAsEvents(topic: seq<Option<Text>>, rows: seq<OrderCreated>, k: nat)
    requires |topic| == |rows| && (forall i :: 0 <= i < |rows| ==> Carries(topic[i], rows[i])) && k < |rows|
    ensures Read(topic[k]) == Body(Event(rows[k]))
  {
    assert Carries(topic[k], rows[k]);
  }

  /** Rows encoded either way: exactly the events of rows are published, none skipped. */
  lemma NothingSkipped(relay: OutboxRelayService, topic: seq<Option<Text>>, rows: seq<OrderCreated>)
    requires relay.Valid(topic)
    requires |topic| == |rows| && forall i :: 0 <= i < |rows| ==> Carries(topic[i], rows[i])
    ensures forall k :: relay.start <= k < relay.position ==> Event(rows[k]) in relay.published
    ensures forall text :: text in relay.published ==> text.Event? && text.event in rows
  {
    forall k | 0 <= k < |rows| ensures Read(topic[k]) == Body(Event(rows[k])) {
      RowsArePublishedAsEvents(topic, rows, k);
    }
  }
}
