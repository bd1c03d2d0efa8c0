/** What a client is bound to get: a client that keeps up is never dropped and misses nothing, and a
    terminal waits its turn behind everything that was logged before it. */
module StreamArrivals {
  import opened Options
  import opened StreamTypes
  import opened ReplayClient
  import opened StreamSession

  /** An open client has room for a delivery of this size. */
  predicate Roomy(c: Client, bytes: nat) {
    !c.closed && |c.queue| < MAX_QUEUE_EVENTS && c.bytes + bytes <= MAX_QUEUE_BYTES
  }

  predicate Connected(s: Session, id: nat) {
    id in s.clients && id in s.joined && !s.joined[id].client.closed
  }

  // ---- One hand over ---------------------------------------------------------------------

  /** A client with room gets the entry at the end of its queue and stays; one without room is
      reset and dropped. */
  lemma RoomIsUsed(s: Session, id: nat, resetBytes: nat)
    requires s.job.Publishing? && id in s.pending && id in s.joined
    ensures Enabled(s, HandOver(id, resetBytes))
    ensures var s', c := Apply(s, HandOver(id, resetBytes)), s.joined[id].client;
      if Roomy(c, s.job.bytes) then
        && s'.joined[id].client.queue == c.queue + [Delivery(s.job.entry, false, s.job.bytes)]
        && !s'.joined[id].client.closed && s'.clients == s.clients
      else
        && s'.joined[id].client.closed && s'.clients == s.clients - {id}
        && (!c.closed ==> |s'.joined[id].client.queue| == 1 && s'.joined[id].client.queue[0].terminal)
  {
  }

  // ---- Clients that keep up --------------------------------------------------------------

  /** The step may disconnect the client: its own end does, or it is served a terminal, or an entry
      for which it has no room. */
  predicate Disconnects(s: Session, a: Action, id: nat) {
    match a
    case Close(who) => who == id
    case Detach(who) => who == id
    case HandOver(who, _) =>
      && who == id
      && (s.job.Terminating? || (s.job.Publishing? && id in s.joined && !Roomy(s.joined[id].client, s.job.bytes)))
    case _ => false
  }

  lemma StaysConnected(s: Session, a: Action, id: nat)
    requires Connected(s, id) && Enabled(s, a) && !Disconnects(s, a, id)
    ensures Connected(Apply(s, a), id)
  {
  }

  predicate Undisturbed(s: Session, schedule: seq<Action>, id: nat)
    decreases |schedule|
  {
    schedule != [] && Enabled(s, schedule[0]) ==>
      !Disconnects(s, schedule[0], id) && Undisturbed(Apply(s, schedule[0]), schedule[1..], id)
  }

  lemma {:induction false} RemainsConnected(s: Session, schedule: seq<Action>, id: nat)
    requires Connected(s, id) && Run(s, schedule).Some? && Undisturbed(s, schedule, id)
    ensures Connected(Run(s, schedule).value, id)
    decreases |schedule|
  {
    if schedule != [] {
      StaysConnected(s, schedule[0], id);
      RemainsConnected(Apply(s, schedule[0]), schedule[1..], id);
    }
  }

  lemma {:induction false} RunJoins(s: Session, a: seq<Action>, b: seq<Action>)
    requires Run(s, a).Some?
    ensures Run(s, a + b) == Run(Run(s, a).value, b)
    decreases |a|
  {
    if a == [] {
      assert a + b == b;
    } else {
      assert (a + b)[1..] == a[1..] + b;
      RunJoins(Apply(s, a[0]), a[1..], b);
    }
  }

  /** A client that always has room when it is its turn, and is not closed or detached by its own
      side, stays connected through every schedule; and whenever it has read its queue with no hand
      over going on, it has seen the log from its start to the end. */
  lemma KeepingUpMissesNothing(before: seq<Action>, after: seq<Action>, id: nat)
    requires Run(NEW_SESSION, before + after).Some? && Run(NEW_SESSION, before).Some?
    requires Connected(Run(NEW_SESSION, before).value, id)
    requires Undisturbed(Run(NEW_SESSION, before).value, after, id)
    ensures var s := Run(NEW_SESSION, before + after).value;
      && Connected(s, id)
      && var m := s.joined[id];
      s.job.Idle? && m.client.queue == [] ==> m.from <= |s.log| && Seen(m) == Numbered(s.log)[m.from..]
  {
    RunJoins(NEW_SESSION, before, after);
    RemainsConnected(Run(NEW_SESSION, before).value, after, id);
    ClientsSeeRuns(before + after, id);
  }

  // ---- The terminal waits its turn -------------------------------------------------------

  /** Before its hand over the client still has room for the terminal, and after it the terminal is
      the last of its deliveries; either way its course runs to the end of the log. */
  ghost predicate EndingMember(m: Member, length: nat, waiting: bool, t: Delivery) {
    && m.from + |Course(m)| == length
    && if waiting then Roomy(m.client, t.bytes) else m.client.closed && Closes(m.delivered + m.client.queue, t)
  }

  ghost predicate Closes(all: seq<Delivery>, t: Delivery) {
    all != [] && all[|all| - 1] == t
  }

  ghost predicate Ending(s: Session, id: nat, event: StreamEvent, bytes: nat) {
    && id in s.joined && s.terminal == Some(event)
    && (id in s.pending ==> s.job == Terminating(event, bytes))
    && EndingMember(s.joined[id], |s.log|, id in s.pending, TerminalDelivery(event, bytes))
  }

  lemma ServedTerminal(m: Member, length: nat, t: Delivery)
    requires EndingMember(m, length, true, t) && t.entry.position == 0
    ensures EndingMember(m.(client := Ended(m.client, t)), length, false, t)
  {
    Extended(m, t, Ended(m.client, t));
  }

  lemma TakenBeforeTerminal(m: Member, log: seq<StreamEvent>, waiting: bool, t: Delivery)
    requires Orderly(m, log) && m.client.queue != [] && EndingMember(m, |log|, waiting, t)
    ensures var m' := m.(client := Popped(m.client), delivered := m.delivered + [m.client.queue[0]]);
      EndingMember(m', |log|, waiting, t)
  {
    TakenOk(m, log);
    assert (m.delivered + [m.client.queue[0]]) + m.client.queue[1..] == m.delivered + m.client.queue;
  }

  /** Behind a terminal nothing but its own steps touches a client. */
  lemma OthersWait(s: Session, a: Action, id: nat)
    requires Enabled(s, a) && id in s.joined && s.terminal.Some?
    requires a != Close(id) && a != Take(id) && !(a.HandOver? && a.id == id)
    ensures var s' := Apply(s, a);
      && s'.log == s.log && s'.terminal == s.terminal && id in s'.joined && s'.joined[id] == s.joined[id]
      && (id in s'.pending <==> id in s.pending) && (id in s.pending ==> s'.job == s.job)
  {
  }

  lemma EndingStep(s: Session, a: Action, id: nat, event: StreamEvent, bytes: nat)
    requires Ok(s) && Enabled(s, a) && a != Close(id) && Ending(s, id, event, bytes)
    ensures Ending(Apply(s, a), id, event, bytes)
  {
    if a.HandOver? && a.id == id {
      ServedTerminal(s.joined[id], |s.log|, TerminalDelivery(event, bytes));
    } else if a == Take(id) {
      assert MemberOk(s, id);
      TakenBeforeTerminal(s.joined[id], s.log, id in s.pending, TerminalDelivery(event, bytes));
    } else {
      OthersWait(s, a, id);
    }
  }

  lemma {:induction false} EndingRun(s: Session, schedule: seq<Action>, id: nat, event: StreamEvent, bytes: nat)
    requires Ok(s) && Run(s, schedule).Some? && Close(id) !in schedule && Ending(s, id, event, bytes)
    ensures Ending(Run(s, schedule).value, id, event, bytes)
    decreases |schedule|
  {
    if schedule != [] {
      StepOk(s, schedule[0]);
      EndingStep(s, schedule[0], id, event, bytes);
      EndingRun(Apply(s, schedule[0]), schedule[1..], id, event, bytes);
    }
  }

  /** A client that is connected when the terminal is published, and has room for it, gets it behind
      everything logged: once its queue is read it has seen the log to its end, and the terminal
      last. */
  lemma TerminalComesLast(before: seq<Action>, event: StreamEvent, bytes: nat, after: seq<Action>, id: nat)
    requires Run(NEW_SESSION, before).Some?
    requires var s := Run(NEW_SESSION, before).value;
      && s.job.Idle? && !s.expired && s.terminal.None? && Connected(s, id) && Roomy(s.joined[id].client, bytes)
      && Run(Apply(s, PublishTerminal(event, bytes)), after).Some?
    requires Close(id) !in after
    ensures var s := Run(NEW_SESSION, before).value;
      var s' := Run(Apply(s, PublishTerminal(event, bytes)), after).value;
      && s'.log == s.log && id in s'.joined
      && var m := s'.joined[id];
      id !in s'.pending && m.client.queue == [] ==>
        && m.from <= |s.log| && Seen(m) == Numbered(s.log)[m.from..]
        && m.delivered != [] && m.delivered[|m.delivered| - 1] == Delivery(Entry(0, event), true, bytes)
  {
    var s := Run(NEW_SESSION, before).value;
    RunOk(NEW_SESSION, before);
    EndingBegins(s, id, event, bytes);
    var begun := Apply(s, PublishTerminal(event, bytes));
    EndingRun(begun, after, id, event, bytes);
    TerminalIsFinal(begun, after);
    RunOk(begun, after);
    if id !in Run(begun, after).value.pending && Run(begun, after).value.joined[id].client.queue == [] {
      EndingSeen(Run(begun, after).value, id, event, bytes);
    }
  }

  lemma EndingBegins(s: Session, id: nat, event: StreamEvent, bytes: nat)
    requires Ok(s) && s.job.Idle? && !s.expired && s.terminal.None?
    requires Connected(s, id) && Roomy(s.joined[id].client, bytes)
    ensures Ok(Apply(s, PublishTerminal(event, bytes)))
    ensures Ending(Apply(s, PublishTerminal(event, bytes)), id, event, bytes)
  {
    StepOk(s, PublishTerminal(event, bytes));
    assert MemberOk(s, id);
  }

  lemma EndingSeen(s: Session, id: nat, event: StreamEvent, bytes: nat)
    requires Ok(s) && Ending(s, id, event, bytes) && id !in s.pending && s.joined[id].client.queue == []
    ensures var m := s.joined[id];
      && m.from <= |s.log| && Seen(m) == Numbered(s.log)[m.from..]
      && Closes(m.delivered, TerminalDelivery(event, bytes))
  {
    assert MemberOk(s, id);
    var m := s.joined[id];
    assert m.delivered + m.client.queue == m.delivered;
  }
}
