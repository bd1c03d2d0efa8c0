/** The bounded queue between a stream session and one connected client. */
module ReplayClient {
  import opened Options
  import opened StreamTypes

  datatype Delivery = Delivery(entry: Entry, terminal: bool, bytes: nat)

  datatype Client = Client(queue: seq<Delivery>, bytes: int, closed: bool)

  const NEW_CLIENT := Client([], 0, false)

  function Total(queue: seq<Delivery>): nat {
    if queue == [] then 0 else queue[0].bytes + Total(queue[1..])
  }

  predicate Within(queue: seq<Delivery>) {
    |queue| <= MAX_QUEUE_EVENTS && Total(queue) <= MAX_QUEUE_BYTES
  }

  /** Only the last delivery may be terminal. */
  ghost predicate TerminalLast(queue: seq<Delivery>) {
    forall i :: 0 <= i < |queue| - 1 ==> !queue[i].terminal
  }

  ghost predicate Ends(queue: seq<Delivery>) {
    queue != [] && queue[|queue| - 1].terminal
  }

  /** The byte counter is exact, the limits hold unless a lone terminal waits, a terminal is last,
      and after it the client is closed. */
  ghost predicate Sound(c: Client) {
    && c.bytes == Total(c.queue)
    && (Within(c.queue) || (|c.queue| == 1 && c.queue[0].terminal))
    && TerminalLast(c.queue)
    && (Ends(c.queue) ==> c.closed)
  }

  predicate Accepts(c: Client, bytes: nat) {
    !c.closed && |c.queue| < MAX_QUEUE_EVENTS && c.bytes + bytes <= MAX_QUEUE_BYTES
  }

  /** `push`: a full or closed queue leaves the client as it was. */
  function Pushed(c: Client, d: Delivery): Client {
    if Accepts(c, d.bytes) then c.(queue := c.queue + [d], bytes := c.bytes + d.bytes) else c
  }

  /** `forceTerminal`: the terminal replaces whatever was waiting. */
  function Forced(c: Client, d: Delivery): Client {
    if c.closed then c else Client([d], d.bytes, true)
  }

  /** `pushTerminal`: the terminal waits its turn when there is room for it. */
  function Ended(c: Client, d: Delivery): Client {
    if c.closed then c
    else if Accepts(c, d.bytes) then Client(c.queue + [d], c.bytes + d.bytes, true)
    else Client([d], d.bytes, true)
  }

  function Popped(c: Client): Client
    requires c.queue != []
  {
    c.(queue := c.queue[1..], bytes := c.bytes - c.queue[0].bytes)
  }

  function Shut(c: Client): Client {
    c.(closed := true)
  }

  lemma {:induction false} TotalGrows(queue: seq<Delivery>, d: Delivery)
    ensures Total(queue + [d]) == Total(queue) + d.bytes
  {
    if queue == [] {
      assert [] + [d] == [d];
    } else {
      assert (queue + [d])[1..] == queue[1..] + [d];
      TotalGrows(queue[1..], d);
    }
  }

  /** Every operation keeps the queue sound. */
  lemma OperationsKeepSound(c: Client, d: Delivery, t: Delivery)
    requires Sound(c) && !d.terminal && t.terminal
    ensures Sound(Pushed(c, d)) && Sound(Forced(c, t)) && Sound(Ended(c, t)) && Sound(Shut(c))
    ensures c.queue != [] ==> Sound(Popped(c))
  {
    TotalGrows(c.queue, d);
    TotalGrows(c.queue, t);
    TotalGrows([], t);
    assert [] + [t] == [t];
  }

  datatype Operation = Push(delivery: Delivery) | Force(delivery: Delivery) | End(delivery: Delivery) | Pop | Shutdown

  /** A client and everything its reader has taken. */
  datatype Life = Life(client: Client, taken: seq<Delivery>)

  /** Deliveries are pushed, terminals are forced or ended with. */
  predicate Proper(op: Operation) {
    match op
    case Push(d) => !d.terminal
    case Force(t) => t.terminal
    case End(t) => t.terminal
    case _ => true
  }

  function Live(life: Life, op: Operation): Life {
    var c := life.client;
    match op
    case Push(d) => life.(client := Pushed(c, d))
    case Force(t) => life.(client := Forced(c, t))
    case End(t) => life.(client := Ended(c, t))
    case Pop => if c.queue == [] then life else Life(Popped(c), life.taken + [c.queue[0]])
    case Shutdown => life.(client := Shut(c))
  }

  function LiveAll(ops: seq<Operation>): Life {
    if ops == [] then Life(NEW_CLIENT, []) else Live(LiveAll(ops[..|ops| - 1]), ops[|ops| - 1])
  }

  /** The queue is sound, and of all deliveries taken or waiting only the last may be a terminal,
      which closes the client. */
  ghost predicate Lived(life: Life) {
    && Sound(life.client) && TerminalLast(life.taken + life.client.queue)
    && (Ends(life.taken) ==> life.client.closed && life.client.queue == [])
  }

  lemma LiveOn(life: Life, op: Operation)
    requires Lived(life) && Proper(op)
    ensures Lived(Live(life, op))
  {
    var c, all := life.client, life.taken + life.client.queue;
    assert forall i :: 0 <= i < |life.taken| ==> all[i] == life.taken[i];
    match op
    case Push(d) =>
      OperationsKeepSound(c, d, d.(terminal := true));
      NoneYet(life);
    case Force(t) =>
      OperationsKeepSound(c, t.(terminal := false), t);
      NoneYet(life);
    case End(t) =>
      OperationsKeepSound(c, t.(terminal := false), t);
      NoneYet(life);
    case Pop =>
      if c.queue != [] {
        OperationsKeepSound(c, c.queue[0].(terminal := false), c.queue[0].(terminal := true));
        assert life.taken + [c.queue[0]] + c.queue[1..] == all;
      }
    case Shutdown =>
  }

  /** An open client has no terminal, taken or waiting. */
  lemma NoneYet(life: Life)
    requires Lived(life)
    ensures !life.client.closed ==> forall i :: 0 <= i < |life.taken| ==> !life.taken[i].terminal
    ensures !life.client.closed ==> forall i :: 0 <= i < |life.client.queue| ==> !life.client.queue[i].terminal
  {
    var all, n := life.taken + life.client.queue, |life.taken|;
    assert forall i :: 0 <= i < n ==> all[i] == life.taken[i];
    assert forall i :: 0 <= i < |life.client.queue| ==> all[n + i] == life.client.queue[i];
  }

  /** Over any sequence of operations a client gets at most one terminal, and nothing after it. */
  lemma {:induction false} OneTerminalLast(ops: seq<Operation>)
    requires forall i :: 0 <= i < |ops| ==> Proper(ops[i])
    ensures Lived(LiveAll(ops))
  {
    if ops != [] {
      OneTerminalLast(ops[..|ops| - 1]);
      LiveOn(LiveAll(ops[..|ops| - 1]), ops[|ops| - 1]);
    }
  }

  class ReplayClient {
    var queue: seq<Delivery>
    var bytes: int
    var closed: bool

    function State(): Client
      reads this
    {
      Client(queue, bytes, closed)
    }

    constructor ()
      ensures State() == NEW_CLIENT && Sound(State())
    {
      queue, bytes, closed := [], 0, false;
    }

    method Push(entry: Entry, wireBytes: nat) returns (accepted: bool)
      requires Sound(State())
      modifies this
      ensures Sound(State())
      ensures accepted <==>
        !old(closed) && |old(queue)| < MAX_QUEUE_EVENTS && old(bytes) + wireBytes <= MAX_QUEUE_BYTES
      ensures queue == (if accepted then old(queue) + [Delivery(entry, false, wireBytes)] else old(queue))
      ensures closed == old(closed)
      ensures State() == Pushed(old(State()), Delivery(entry, false, wireBytes))
      ensures accepted == Accepts(old(State()), wireBytes)
    {
      ghost var d := Delivery(entry, false, wireBytes);
      OperationsKeepSound(State(), d, d.(terminal := true));
      if closed || |queue| >= MAX_QUEUE_EVENTS || bytes + wireBytes > MAX_QUEUE_BYTES {
        return false;
      }
      queue := queue + [Delivery(entry, false, wireBytes)];
      bytes := bytes + wireBytes;
      return true;
    }

    method ForceTerminal(event: StreamEvent, wireBytes: nat)
      requires Sound(State())
      modifies this
      ensures Sound(State())
      ensures closed && queue == if old(closed) then old(queue) else [Delivery(Entry(0, event), true, wireBytes)]
      ensures State() == Forced(old(State()), Delivery(Entry(0, event), true, wireBytes))
    {
      var delivery := Delivery(Entry(0, event), true, wireBytes);
      OperationsKeepSound(State(), delivery.(terminal := false), delivery);
      if closed {
        return;
      }
      queue, bytes, closed := [delivery], delivery.bytes, true;
    }

    method PushTerminal(event: StreamEvent, wireBytes: nat)
      requires Sound(State())
      modifies this
      ensures Sound(State())
      ensures closed && (old(closed) ==> queue == old(queue))
      ensures !old(closed) ==>
        var t := Delivery(Entry(0, event), true, wireBytes);
        if |old(queue)| < MAX_QUEUE_EVENTS && old(bytes) + wireBytes <= MAX_QUEUE_BYTES
        then queue == old(queue) + [t] else queue == [t]
      ensures State() == Ended(old(State()), Delivery(Entry(0, event), true, wireBytes))
    {
      var delivery := Delivery(Entry(0, event), true, wireBytes);
      OperationsKeepSound(State(), delivery.(terminal := false), delivery);
      if closed {
        return;
      }
      if |queue| >= MAX_QUEUE_EVENTS || bytes + delivery.bytes > MAX_QUEUE_BYTES {
        queue, bytes := [delivery], delivery.bytes;
      } else {
        queue, bytes := queue + [delivery], bytes + delivery.bytes;
      }
      closed := true;
    }

    /** One pass of `next`: a waiting delivery, the end of the stream, or nothing yet. */
    method Next() returns (delivery: Option<Delivery>, ended: bool)
      requires Sound(State())
      modifies this
      ensures Sound(State())
      ensures delivery.Some? <==> old(queue) != []
      ensures delivery.Some? ==>
        delivery.value == old(queue)[0] && queue == old(queue)[1..] && closed == old(closed) && !ended
      ensures delivery.Some? ==> State() == Popped(old(State()))
      ensures delivery.None? ==> State() == old(State()) && ended == closed
    {
      if |queue| > 0 {
        ghost var d := queue[0];
        OperationsKeepSound(State(), d.(terminal := false), d.(terminal := true));
        delivery, ended := Some(queue[0]), false;
        queue, bytes := queue[1..], bytes - queue[0].bytes;
      } else {
        delivery, ended := None, closed;
      }
    }

    method Close()
      requires Sound(State())
      modifies this
      ensures Sound(State()) && State() == Shut(old(State())) && closed && queue == old(queue)
    {
      closed := true;
    }
  }
}
