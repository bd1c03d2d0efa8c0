/** The session object itself: its fields, and the loops that fan one event out to the clients. */
module SessionObject {
  import opened Options
  import opened StreamTypes
  import opened ReplayClient
  import ReplayRing
  import Text

  /** The state in which `publish` leaves one client. */
  function Handed(c: Client, entry: Entry, bytes: nat, reset: Delivery): Client {
    if Accepts(c, bytes) then Pushed(c, Delivery(entry, false, bytes)) else Forced(c, reset)
  }

  ghost predicate AllSound(clients: set<ReplayClient>)
    reads clients
  {
    forall c :: c in clients ==> Sound(c.State())
  }

  /** The loop of `publish` over the clients: who has no room is reset and dropped. */
  method FanOut(clients: set<ReplayClient>, entry: Entry, bytes: nat, reset: StreamEvent, resetBytes: nat)
    returns (kept: set<ReplayClient>)
    requires AllSound(clients)
    modifies clients
    ensures AllSound(clients)
    ensures forall c :: c in kept <==> c in clients && Accepts(old(c.State()), bytes)
    ensures forall c :: c in clients ==>
      c.State() == Handed(old(c.State()), entry, bytes, Delivery(Entry(0, reset), true, resetBytes))
  {
    kept := clients;
    var todo := clients;
    while todo != {}
      invariant todo <= kept <= clients
      invariant AllSound(clients)
      invariant forall c :: c in todo ==> c.State() == old(c.State())
      invariant forall c :: c in clients && c !in todo ==>
        c.State() == Handed(old(c.State()), entry, bytes, Delivery(Entry(0, reset), true, resetBytes))
      invariant forall c :: c in clients && c !in todo ==> (c in kept <==> Accepts(old(c.State()), bytes))
      decreases todo
    {
      var client :| client in todo;
      todo := todo - {client};
      var accepted := client.Push(entry, bytes);
      if !accepted {
        client.ForceTerminal(reset, resetBytes);
        kept := kept - {client};
      }
    }
  }

  /** The loop of `publishTerminal`. */
  method EndAll(clients: set<ReplayClient>, event: StreamEvent, bytes: nat)
    requires AllSound(clients)
    modifies clients
    ensures AllSound(clients)
    ensures forall c :: c in clients ==> c.State() == Ended(old(c.State()), Delivery(Entry(0, event), true, bytes))
    ensures forall c :: c in clients ==> c.closed
  {
    var todo := clients;
    while todo != {}
      invariant todo <= clients && AllSound(clients)
      invariant forall c :: c in todo ==> c.State() == old(c.State())
      invariant forall c :: c in clients && c !in todo ==>
        c.State() == Ended(old(c.State()), Delivery(Entry(0, event), true, bytes)) && c.closed
      decreases todo
    {
      var client :| client in todo;
      todo := todo - {client};
      client.PushTerminal(event, bytes);
    }
  }

  /** A new client, ended at once behind a terminal. */
  method Newcomer(terminal: Option<StreamEvent>, bytes: nat) returns (client: ReplayClient)
    ensures fresh(client) && Sound(client.State()) && (terminal.Some? ==> client.closed)
    ensures client.State() == if terminal.None? then NEW_CLIENT
      else Forced(NEW_CLIENT, Delivery(Entry(0, terminal.value), true, bytes))
  {
    client := new ReplayClient();
    if terminal.Some? {
      client.ForceTerminal(terminal.value, bytes);
    }
  }

  datatype Refusal = MalformedId | ResumeUnavailable

  class Session {
    const ring: ReplayRing.ReplayRing
    var clients: set<ReplayClient>
    var terminal: Option<StreamEvent>
    var expired: bool

    /** Clients keep sound queues; an expired session has none; behind a terminal all are closed. */
    ghost predicate Valid()
      reads this, ring, clients
    {
      && ring.Configured() && ring.Valid()
      && AllSound(clients)
      && (expired ==> clients == {})
      && (terminal.Some? ==> forall c :: c in clients ==> c.closed)
    }

    constructor (ring: ReplayRing.ReplayRing)
      requires ring.Configured() && ring.Valid()
      ensures Valid() && this.ring == ring && clients == {} && terminal == None && !expired
    {
      this.ring, clients, terminal, expired := ring, {}, None, false;
    }

    function WireBytes(event: StreamEvent): nat {
      ring.encodedLength(event) + ENVELOPE_BYTES
    }

    function ResetDelivery(topic: Topic): Delivery {
      var event := ResetEvent(topic, "slow_consumer");
      Delivery(Entry(0, event), true, WireBytes(event))
    }

    function EndDelivery(event: StreamEvent): Delivery {
      Delivery(Entry(0, event), true, WireBytes(event))
    }

    method PublishTerminal(event: StreamEvent)
      requires Valid()
      modifies this`terminal, clients
      ensures Valid()
      ensures terminal == if old(expired) || old(terminal).Some? then old(terminal) else Some(event)
      ensures old(expired) || old(terminal).Some? ==> forall c :: c in clients ==> c.State() == old(c.State())
      ensures !old(expired) && old(terminal).None? ==> forall c :: c in clients ==>
        c.State() == Ended(old(c.State()), EndDelivery(event))
    {
      if !expired && terminal.None? {
        EndAll(clients, event, WireBytes(event));
        terminal := Some(event);
      }
    }

    /** Hands an entry to every client of a live session. */
    method Deliver(entry: Entry, bytes: nat)
      requires Valid() && !expired && terminal.None?
      modifies this`clients, clients
      ensures Valid()
      ensures forall c :: c in clients <==> c in old(clients) && Accepts(old(c.State()), bytes)
      ensures forall c :: c in old(clients) ==>
        c.State() == Handed(old(c.State()), entry, bytes, ResetDelivery(entry.event.topic))
    {
      var reset := ResetEvent(entry.event.topic, "slow_consumer");
      clients := FanOut(clients, entry, bytes, reset, WireBytes(reset));
    }

    /** The position under which an event has just been published; heartbeats have none. */
    ghost function Position(event: StreamEvent): nat
      reads ring
    {
      if event.kind == Heartbeat then 0 else |ring.log|
    }

    /** What a delivery of the event just published costs: it carries its identifier, if any. */
    ghost function Cost(event: StreamEvent): nat
      reads ring
    {
      WireBytes(event) + if event.kind == Heartbeat then 0 else |ReplayRing.Id(ring.epoch, ring.numeral(|ring.log|))|
    }

    /** Appends an event that does not end the session to the log, unless it is too large or only a
        heartbeat. */
    method Log(event: StreamEvent) returns (fits: bool, position: nat, bytes: nat)
      requires Valid() && ring.sequence + 1 < Text.UINT64_LIMIT && !Terminal(event.kind)
      modifies ring
      ensures Valid()
      ensures fits <==> event.kind == Heartbeat || WireBytes(event) <= MAX_EVENT_BYTES
      ensures ring.log == if fits && event.kind != Heartbeat then old(ring.log) + [event] else old(ring.log)
      ensures fits ==> position == Position(event) && bytes == Cost(event)
      ensures forall c :: c in clients ==> c.State() == old(c.State())
    {
      var appended := ring.Append(event);
      fits := !appended.TooLarge?;
      position := if appended.Logged? then ring.sequence else 0;
      bytes := WireBytes(event) + if appended.Logged? then |appended.id| else 0;
    }

    /** What a live session does with an event that fits. */
    method PublishFitting(event: StreamEvent)
      requires Valid() && !expired && terminal.None? && ring.sequence + 1 < Text.UINT64_LIMIT && !Terminal(event.kind)
      requires event.kind == Heartbeat || WireBytes(event) <= MAX_EVENT_BYTES
      modifies this`clients, ring, clients
      ensures Valid()
      ensures ring.log == if event.kind != Heartbeat then old(ring.log) + [event] else old(ring.log)
      ensures forall c :: c in clients <==> c in old(clients) && Accepts(old(c.State()), Cost(event))
      ensures forall c :: c in old(clients) ==>
        c.State() == Handed(old(c.State()), Entry(Position(event), event), Cost(event), ResetDelivery(event.topic))
    {
      var fits, position, bytes := Log(event);
      Deliver(Entry(position, event), bytes);
    }

    /** What a live session does with an event that does not end it: one that the ring would refuse
        ends the session instead. */
    method PublishLive(event: StreamEvent) returns (published: bool)
      requires Valid() && !expired && terminal.None? && ring.sequence + 1 < Text.UINT64_LIMIT && !Terminal(event.kind)
      modifies this`terminal, this`clients, ring, clients
      ensures Valid()
      ensures published <==> event.kind == Heartbeat || WireBytes(event) <= MAX_EVENT_BYTES
      ensures ring.log == if published && event.kind != Heartbeat then old(ring.log) + [event] else old(ring.log)
      ensures terminal == if published then None else Some(ResetEvent(event.topic, "event_too_large"))
      ensures published ==> forall c :: c in clients <==> c in old(clients) && Accepts(old(c.State()), Cost(event))
      ensures published ==> forall c :: c in old(clients) ==>
        c.State() == Handed(old(c.State()), Entry(Position(event), event), Cost(event), ResetDelivery(event.topic))
      ensures !published ==> clients == old(clients)
      ensures !published ==> forall c :: c in clients ==>
        c.State() == Ended(old(c.State()), EndDelivery(terminal.value))
    {
      published := event.kind == Heartbeat || WireBytes(event) <= MAX_EVENT_BYTES;
      if published {
        PublishFitting(event);
      } else {
        PublishTerminal(ResetEvent(event.topic, "event_too_large"));
      }
    }

    /** `publish`: a live session logs the event and hands it to every client; a terminal event, or
        one too large to log, ends the session instead; a session that is over does nothing. */
    method Publish(event: StreamEvent) returns (published: bool)
      requires Valid() && ring.sequence + 1 < Text.UINT64_LIMIT
      modifies this`terminal, this`clients, ring, clients
      ensures Valid()
      ensures published <==> !Terminal(event.kind) && !old(expired) && old(terminal).None?
                             && (event.kind == Heartbeat || WireBytes(event) <= MAX_EVENT_BYTES)
      ensures ring.log == if published && event.kind != Heartbeat then old(ring.log) + [event] else old(ring.log)
      ensures terminal == if published || old(expired) || old(terminal).Some? then old(terminal)
                          else Some(if Terminal(event.kind) then event else ResetEvent(event.topic, "event_too_large"))
      ensures published ==> forall c :: c in clients <==> c in old(clients) && Accepts(old(c.State()), Cost(event))
      ensures published ==> forall c :: c in old(clients) ==>
        c.State() == Handed(old(c.State()), Entry(Position(event), event), Cost(event), ResetDelivery(event.topic))
      ensures !published ==> clients == old(clients)
      ensures !published && terminal == old(terminal) ==> forall c :: c in clients ==> c.State() == old(c.State())
      ensures !published && terminal != old(terminal) ==>
        forall c :: c in clients ==> c.State() == Ended(old(c.State()), EndDelivery(terminal.value))
    {
      published := false;
      if event.kind == Reset || event.kind == Error {
        PublishTerminal(event);
      } else if !expired && terminal.None? {
        published := PublishLive(event);
      }
    }

    /** `publishTransient`: handed to the clients, never logged. */
    method PublishTransient(event: StreamEvent) returns (published: bool)
      requires Valid()
      modifies this`clients, clients
      ensures Valid()
      ensures published <==> !expired && terminal.None?
      ensures !published ==> clients == old(clients)
      ensures published ==> forall c :: c in clients <==> c in old(clients) && Accepts(old(c.State()), WireBytes(event))
      ensures forall c :: c in old(clients) ==>
        c.State() == if published then Handed(old(c.State()), Entry(0, event), WireBytes(event),
          ResetDelivery(event.topic))
                     else old(c.State())
    {
      if expired || terminal.Some? {
        return false;
      }
      Deliver(Entry(0, event), WireBytes(event));
      return true;
    }

    /** Why a client cannot attach. */
    function Refused(lastId: string, binding: string): Option<Refusal>
      reads this, ring
    {
      if expired then Some(ResumeUnavailable)
      else if lastId == "" then None
      else
        match ReplayRing.Resume(ring.epoch, ring.binding, ring.events, lastId, binding)
        case Malformed => Some(MalformedId)
        case Unavailable => Some(ResumeUnavailable)
        case Entries(_) => None
    }

    /** What a client is to be replayed: the log after the identified position, or nothing when
        there is no identifier. */
    method Replay(lastId: string, binding: string)
      returns (refusal: Option<Refusal>, replay: seq<ReplayRing.RingEvent>, ghost from: nat)
      requires ring.Configured() && ring.Valid()
      ensures refusal == Refused(lastId, binding)
      ensures refusal.None? ==>
        && from <= |ring.log| && (if lastId == "" then from == |ring.log| else lastId == ring.name(from))
        && replay == ReplayRing.Wired(ring.name, ring.size, Numbered(ring.log)[from..])
    {
      refusal, replay, from := None, [], |ring.log|;
      if expired {
        refusal := Some(ResumeUnavailable);
      } else if lastId != "" {
        var result := ring.ReplayEntries(lastId, binding);
        match result {
          case Malformed => refusal := Some(MalformedId);
          case Unavailable => refusal := Some(ResumeUnavailable);
          case Entries(entries) =>
            replay := entries;
            from := ring.ResumedFrom(lastId, binding);
        }
      }
    }

    /** `attach`: refused on an expired session or an unusable identifier. Otherwise the client gets
        its replay, and a latecomer behind the terminal gets that after it. */
    method Attach(lastId: string, binding: string)
      returns (refusal: Option<Refusal>, client: ReplayClient?, replay: seq<ReplayRing.RingEvent>, ghost from: nat)
      requires Valid()
      modifies this`clients
      ensures Valid()
      ensures refusal == old(Refused(lastId, binding)) && (client == null <==> refusal.Some?)
      ensures client == null ==> clients == old(clients)
      ensures client != null ==>
        && fresh(client) && clients == old(clients) + {client}
        && client.State() == (if terminal.None? then NEW_CLIENT else Forced(NEW_CLIENT, EndDelivery(terminal.value)))
        && from <= |ring.log| && (if lastId == "" then from == |ring.log| else lastId == ring.name(from))
        && replay == ReplayRing.Wired(ring.name, ring.size, Numbered(ring.log)[from..])
    {
      client := null;
      refusal, replay, from := Replay(lastId, binding);
      if refusal.None? {
        client := Join();
      }
    }

    /** Registers a new client; behind a terminal it gets that at once. */
    method Join() returns (client: ReplayClient)
      requires Valid() && !expired
      modifies this`clients
      ensures Valid() && fresh(client) && clients == old(clients) + {client}
      ensures client.State() == if terminal.None? then NEW_CLIENT else Forced(NEW_CLIENT, EndDelivery(terminal.value))
    {
      client := Newcomer(terminal, if terminal.Some? then WireBytes(terminal.value) else 0);
      clients := clients + {client};
    }

    /** `detach`; tells whether the idle timer is to be started. */
    method Detach(client: ReplayClient) returns (idle: bool)
      requires Valid() && Sound(client.State())
      modifies this`clients, client
      ensures Valid()
      ensures client.State() == Shut(old(client.State())) && clients == old(clients) - {client}
      ensures idle <==> clients == {} && !expired
    {
      client.Close();
      clients := clients - {client};
      idle := clients == {} && !expired;
    }

    /** `expire`: only a session without clients expires, and only once. */
    method Expire() returns (stopped: bool)
      requires Valid()
      modifies this`expired
      ensures Valid()
      ensures stopped <==> clients == {} && !old(expired)
      ensures expired <==> old(expired) || stopped
    {
      if clients != {} || expired {
        return false;
      }
      expired := true;
      return true;
    }
  }
}
