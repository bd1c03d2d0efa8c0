/** The session object's methods as schedules of the step machine: a method call is the schedule in
    which its hand overs follow one another, in any order of the clients, and it leaves log, clients
    and queues as the method's contract says. */
module SessionSchedules {
  import opened Options
  import opened StreamTypes
  import opened ReplayClient
  import opened StreamSession
  import SessionObject

  /** The order names every member of the set once. */
  ghost predicate Enumerates(order: seq<nat>, ids: set<nat>) {
    if order == [] then ids == {} else order[0] in ids && Enumerates(order[1..], ids - {order[0]})
  }

  function HandOvers(order: seq<nat>, resetBytes: nat): seq<Action> {
    if order == [] then [] else [HandOver(order[0], resetBytes)] + HandOvers(order[1..], resetBytes)
  }

  /** A call: it takes the lock with its first step, serves the clients, and lets go. */
  function Call(first: Action, order: seq<nat>, resetBytes: nat): seq<Action> {
    [first] + HandOvers(order, resetBytes) + [Release]
  }

  lemma {:induction false} RunConcat(s: Session, a: seq<Action>, b: seq<Action>)
    requires Run(s, a).Some?
    ensures Run(s, a + b) == Run(Run(s, a).value, b)
    decreases |a|
  {
    if a == [] {
      assert a + b == b;
    } else {
      assert (a + b)[1..] == a[1..] + b;
      RunConcat(Apply(s, a[0]), a[1..], b);
    }
  }

  /** A client stays unless it was to be published to and had no room. */
  predicate Stays(s: Session, id: nat)
    requires id in s.joined
  {
    s.job.Publishing? ==> Accepts(s.joined[id].client, s.job.bytes)
  }

  /** Everything but members and clients is as before, and nobody is waiting any more. */
  ghost predicate SameRest(s: Session, s': Session) {
    s'.log == s.log && s'.job == s.job && s'.terminal == s.terminal && s'.expired == s.expired && s'.pending == {}
    && s'.joined.Keys == s.joined.Keys
  }

  /** Handing over to all pending clients, in any order, serves each of them once. */
  lemma {:induction false} EachIsServed(s: Session, order: seq<nat>, resetBytes: nat, id: nat)
    requires Enumerates(order, s.pending) && s.pending <= s.joined.Keys && !s.job.Idle? && id in s.joined
    ensures Run(s, HandOvers(order, resetBytes)).Some?
    ensures var s' := Run(s, HandOvers(order, resetBytes)).value;
      && SameRest(s, s')
      && s'.joined[id] == (if id in s.pending then Served(s.joined[id], s.job, resetBytes) else s.joined[id])
      && (id in s'.clients <==> id in s.clients && (id in s.pending ==> Stays(s, id)))
    decreases |order|
  {
    if order != [] {
      var step := HandOver(order[0], resetBytes);
      var actions := HandOvers(order, resetBytes);
      assert actions[0] == step && actions[1..] == HandOvers(order[1..], resetBytes);
      EachIsServed(Apply(s, step), order[1..], resetBytes, id);
    }
  }

  /** A whole call, seen from one client. */
  lemma CallServes(s: Session, first: Action, order: seq<nat>, resetBytes: nat, id: nat)
    requires Enabled(s, first) && (first.Publish? || first.PublishTransient? || first.PublishTerminal?)
    requires s.clients <= s.joined.Keys && Enumerates(order, s.clients) && id in s.clients
    ensures Run(s, Call(first, order, resetBytes)).Some?
    ensures var begun, s' := Apply(s, first), Run(s, Call(first, order, resetBytes)).value;
      && s'.log == begun.log && s'.terminal == begun.terminal && s'.job.Idle? && s'.pending == {}
      && id in s'.joined && s'.joined[id] == Served(s.joined[id], begun.job, resetBytes)
      && (id in s'.clients <==> Stays(begun, id))
  {
    var begun, served := Apply(s, first), HandOvers(order, resetBytes);
    EachIsServed(begun, order, resetBytes, id);
    RunConcat(begun, served, [Release]);
    assert Call(first, order, resetBytes)[1..] == served + [Release];
    var t := Run(begun, served).value;
    assert [Release][1..] == [];
    assert Run(t, [Release]) == Some(Apply(t, Release));
  }

  // ---- The methods -----------------------------------------------------------------------

  /** `Publish` of an event that is logged. */
  lemma PublishIsASchedule(s: Session, event: StreamEvent, bytes: nat, order: seq<nat>, resetBytes: nat, id: nat)
    requires s.job.Idle? && !s.expired && s.terminal.None? && event.kind != Heartbeat && !Terminal(event.kind)
    requires s.clients <= s.joined.Keys && Enumerates(order, s.clients) && id in s.clients
    ensures Run(s, Call(Publish(event, bytes), order, resetBytes)).Some?
    ensures var s' := Run(s, Call(Publish(event, bytes), order, resetBytes)).value;
      var reset := TerminalDelivery(ResetEvent(event.topic, "slow_consumer"), resetBytes);
      && s'.log == s.log + [event] && s'.terminal == s.terminal && id in s'.joined
      && s'.joined[id].client == SessionObject.Handed(s.joined[id].client, Entry(|s'.log|, event), bytes, reset)
      && (id in s'.clients <==> Accepts(s.joined[id].client, bytes))
  {
    CallServes(s, Publish(event, bytes), order, resetBytes, id);
  }

  /** `PublishTransient`, and `Publish` of a heartbeat. */
  lemma TransientIsASchedule(s: Session, event: StreamEvent, bytes: nat, order: seq<nat>, resetBytes: nat, id: nat)
    requires s.job.Idle? && !s.expired && s.terminal.None?
    requires s.clients <= s.joined.Keys && Enumerates(order, s.clients) && id in s.clients
    ensures Run(s, Call(PublishTransient(event, bytes), order, resetBytes)).Some?
    ensures var s' := Run(s, Call(PublishTransient(event, bytes), order, resetBytes)).value;
      var reset := TerminalDelivery(ResetEvent(event.topic, "slow_consumer"), resetBytes);
      && s'.log == s.log && s'.terminal == s.terminal && id in s'.joined
      && s'.joined[id].client == SessionObject.Handed(s.joined[id].client, Entry(0, event), bytes, reset)
      && (id in s'.clients <==> Accepts(s.joined[id].client, bytes))
  {
    CallServes(s, PublishTransient(event, bytes), order, resetBytes, id);
  }

  /** `PublishTerminal`, and `Publish` of an event that ends the session. */
  lemma TerminalIsASchedule(s: Session, event: StreamEvent, bytes: nat, order: seq<nat>, id: nat)
    requires s.job.Idle? && !s.expired && s.terminal.None?
    requires s.clients <= s.joined.Keys && Enumerates(order, s.clients) && id in s.clients
    ensures Run(s, Call(PublishTerminal(event, bytes), order, 0)).Some?
    ensures var s' := Run(s, Call(PublishTerminal(event, bytes), order, 0)).value;
      && s'.log == s.log && s'.terminal == Some(event) && id in s'.joined && id in s'.clients
      && s'.joined[id].client == Ended(s.joined[id].client, Delivery(Entry(0, event), true, bytes))
  {
    CallServes(s, PublishTerminal(event, bytes), order, 0, id);
  }

  /** `Attach`: where the client starts, what it is replayed, and in which state it is. */
  lemma AttachIsAStep(s: Session, id: nat, resume: Option<nat>, bytes: nat)
    requires s.job.Idle? && !s.expired && id !in s.joined && (resume.Some? ==> 1 <= resume.value <= |s.log|)
    ensures Enabled(s, Attach(id, resume, bytes)) && id in Apply(s, Attach(id, resume, bytes)).clients
    ensures var m, from := Apply(s, Attach(id, resume, bytes)).joined[id], if resume.Some? then resume.value
      else |s.log|;
      && m.from == from <= |s.log| && m.replay == Numbered(s.log)[from..]
      && m.client == if s.terminal.None? then NEW_CLIENT
                     else Forced(NEW_CLIENT, Delivery(Entry(0, s.terminal.value), true, bytes))
  {
  }

  /** `Detach` and `Expire`: the client is closed and taken off the list, and a session without
      clients expires for good. */
  lemma DetachIsASchedule(s: Session, id: nat)
    requires s.job.Idle? && id in s.joined
    ensures Run(s, [Close(id), Detach(id)]).Some?
    ensures var s' := Run(s, [Close(id), Detach(id)]).value;
      && id in s'.joined && s'.clients == s.clients - {id} && s'.joined[id].client == Shut(s.joined[id].client)
      && s'.joined[id].client.closed && s'.log == s.log && s'.terminal == s.terminal
    ensures s.clients == {} && !s.expired ==> Enabled(s, Expire) && Apply(s, Expire) == s.(expired := true)
    ensures s.clients != {} || s.expired ==> !Enabled(s, Expire)
  {
    assert [Close(id), Detach(id)][1..] == [Detach(id)] && [Detach(id)][1..] == [];
    var closed := Apply(s, Close(id));
    assert Run(closed, [Detach(id)]) == Some(Apply(closed, Detach(id)));
  }
}
