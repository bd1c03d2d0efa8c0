/** A stream session and its clients, over every interleaving of their steps.

    A step is what happens between two lock operations: `publish` and its kin hold the session
    lock while they hand one delivery after the other to the clients, and each client's reader
    may run in between. Positions stand for wire identifiers. */
module StreamSession {
  import opened Options
  import opened StreamTypes
  import opened ReplayClient

  /** A client that has attached: where its run of the log starts, what it was replayed, what its
      reader has taken so far. */
  datatype Member = Member(client: Client, from: nat, replay: seq<Entry>, delivered: seq<Delivery>)

  /** What the holder of the session lock is handing out. */
  datatype Job = Idle | Publishing(entry: Entry, bytes: nat) | Terminating(event: StreamEvent, bytes: nat)

  datatype Session = Session(
    log: seq<StreamEvent>, joined: map<nat, Member>, clients: set<nat>,
    job: Job, pending: set<nat>, terminal: Option<StreamEvent>, expired: bool)

  datatype Action =
    | Attach(id: nat, resume: Option<nat>, bytes: nat)
    | Publish(event: StreamEvent, bytes: nat)
    | PublishTransient(event: StreamEvent, bytes: nat)
    | PublishTerminal(event: StreamEvent, bytes: nat)
    | HandOver(id: nat, resetBytes: nat)
    | Release
    | Take(id: nat)
    | Close(id: nat)
    | Detach(id: nat)
    | Expire

  const NEW_SESSION := Session([], map[], {}, Idle, {}, None, false)

  predicate Open(s: Session) {
    s.job.Idle? && !s.expired
  }

  predicate Enabled(s: Session, a: Action) {
    match a
    case Attach(id, resume, _) => Open(s) && id !in s.joined && (resume.Some? ==> 1 <= resume.value <= |s.log|)
    case Publish(event, _) => Open(s) && s.terminal.None? && event.kind != Heartbeat && !Terminal(event.kind)
    case PublishTransient(_, _) => Open(s) && s.terminal.None?
    case PublishTerminal(_, _) => Open(s) && s.terminal.None?
    case HandOver(id, _) => id in s.pending && id in s.joined && !s.job.Idle?
    case Release => !s.job.Idle? && s.pending == {}
    case Take(id) => id in s.joined && s.joined[id].client.queue != []
    case Close(id) => id in s.joined
    case Detach(id) => id in s.joined && s.job.Idle?
    case Expire => Open(s) && s.clients == {}
  }

  function TerminalDelivery(event: StreamEvent, bytes: nat): Delivery {
    Delivery(Entry(0, event), true, bytes)
  }

  /** A new client: the replayed tail of the log, and the session's terminal if there is one. */
  function Joined(s: Session, resume: Option<nat>, bytes: nat): Member
    requires resume.Some? ==> resume.value <= |s.log|
  {
    var from := if resume.Some? then resume.value else |s.log|;
    var client := if s.terminal.Some? then Forced(NEW_CLIENT, TerminalDelivery(s.terminal.value, bytes))
      else NEW_CLIENT;
    Member(client, from, Numbered(s.log)[from..], [])
  }

  /** One delivery of the current job to one client. */
  function Served(m: Member, job: Job, resetBytes: nat): Member {
    match job
    case Idle => m
    case Publishing(entry, bytes) =>
      var d := Delivery(entry, false, bytes);
      if Accepts(m.client, bytes) then m.(client := Pushed(m.client, d))
      else m.(client := Forced(m.client, TerminalDelivery(ResetEvent(entry.event.topic, "slow_consumer"), resetBytes)))
    case Terminating(event, bytes) => m.(client := Ended(m.client, TerminalDelivery(event, bytes)))
  }

  function Apply(s: Session, a: Action): Session
    requires Enabled(s, a)
  {
    match a
    case Attach(id, resume, bytes) =>
      s.(joined := s.joined[id := Joined(s, resume, bytes)], clients := s.clients + {id})
    case Publish(event, bytes) =>
      s.(log := s.log + [event], job := Publishing(Entry(|s.log| + 1, event), bytes), pending := s.clients)
    case PublishTransient(event, bytes) => s.(job := Publishing(Entry(0, event), bytes), pending := s.clients)
    case PublishTerminal(event, bytes) =>
      s.(terminal := Some(event), job := Terminating(event, bytes), pending := s.clients)
    case HandOver(id, resetBytes) =>
      s.(joined := s.joined[id := Served(s.joined[id], s.job, resetBytes)], pending := s.pending - {id},
         clients := if s.job.Publishing? && !Accepts(s.joined[id].client, s.job.bytes)
                    then s.clients - {id} else s.clients)
    case Release => s.(job := Idle)
    case Take(id) =>
      var m := s.joined[id];
      s.(joined := s.joined[id := m.(client := Popped(m.client), delivered := m.delivered + [m.client.queue[0]])])
    case Close(id) => s.(joined := s.joined[id := s.joined[id].(client := Shut(s.joined[id].client))])
    case Detach(id) => s.(clients := s.clients - {id})
    case Expire => s.(expired := true)
  }

  /** The session after a schedule of steps, and whether every step was possible. */
  function Run(s: Session, schedule: seq<Action>): Option<Session>
    decreases |schedule|
  {
    if schedule == [] then Some(s)
    else if Enabled(s, schedule[0]) then Run(Apply(s, schedule[0]), schedule[1..])
    else None
  }

  // ---- What a client has seen ------------------------------------------------------------

  /** The deliveries that carry a log position. */
  function Logged(ds: seq<Delivery>): seq<Entry> {
    if ds == [] then []
    else
      var d, rest := ds[|ds| - 1], Logged(ds[..|ds| - 1]);
      if d.entry.position > 0 then rest + [d.entry] else rest
  }

  /** Everything with a log position that the client has been or will be shown. */
  function Course(m: Member): seq<Entry> {
    m.replay + Logged(m.delivered + m.client.queue)
  }

  /** What the client has actually been shown. */
  function Seen(m: Member): seq<Entry> {
    m.replay + Logged(m.delivered)
  }

  /** A contiguous run of the log that starts right after position `from`. */
  ghost predicate Contiguous(run: seq<Entry>, log: seq<StreamEvent>, from: nat) {
    && from + |run| <= |log|
    && forall i :: 0 <= i < |run| ==> run[i] == Entry(from + i + 1, log[from + i])
  }

  /** Log entries the current job still owes the client. */
  function Owed(s: Session, id: nat): nat {
    if s.job.Publishing? && s.job.entry.position > 0 && id in s.pending then 1 else 0
  }

  /** What holds of a member by itself: its course is a run of the log, and a terminal comes last
      of all its deliveries. */
  ghost predicate Orderly(m: Member, log: seq<StreamEvent>) {
    && Sound(m.client)
    && Contiguous(Course(m), log, m.from)
    && TerminalLast(m.delivered + m.client.queue)
    && (Ends(m.delivered) ==> m.client.closed)
  }

  ghost predicate MemberOk(s: Session, id: nat)
    requires id in s.joined
  {
    var m := s.joined[id];
    && Orderly(m, s.log)
    && (id in s.clients && !m.client.closed ==> m.from + |Course(m)| + Owed(s, id) == |s.log|)
    && (s.terminal.Some? && id in s.clients && id !in s.pending ==> m.client.closed)
  }

  ghost predicate JobOk(s: Session) {
    && s.pending <= s.clients <= s.joined.Keys
    && (s.job.Idle? ==> s.pending == {})
    && (s.expired ==> s.clients == {} && s.job.Idle?)
    && (s.job.Publishing? ==> s.terminal.None?)
    && (s.job.Publishing? && s.job.entry.position > 0 ==>
          s.job.entry.position == |s.log| && s.job.entry.event == s.log[|s.log| - 1])
    && (s.job.Terminating? ==> s.terminal == Some(s.job.event))
  }

  ghost predicate Ok(s: Session) {
    JobOk(s) && forall id :: id in s.joined ==> MemberOk(s, id)
  }

  lemma {:induction false} LoggedIsPrefix(a: seq<Delivery>, b: seq<Delivery>)
    ensures Logged(a) <= Logged(a + b)
  {
    if b == [] {
      assert a + b == a;
    } else {
      assert (a + b)[..|a + b| - 1] == a + b[..|b| - 1];
      LoggedIsPrefix(a, b[..|b| - 1]);
    }
  }

  lemma LoggedAppend(ds: seq<Delivery>, d: Delivery)
    ensures Logged(ds + [d]) == if d.entry.position > 0 then Logged(ds) + [d.entry] else Logged(ds)
  {
    assert (ds + [d])[..|ds + [d]| - 1] == ds;
  }

  lemma ContiguousPrefix(part: seq<Entry>, run: seq<Entry>, log: seq<StreamEvent>, from: nat)
    requires Contiguous(run, log, from) && part <= run
    ensures Contiguous(part, log, from)
  {
    assert forall i :: 0 <= i < |part| ==> part[i] == run[i];
  }

  lemma ContiguousExtend(run: seq<Entry>, log: seq<StreamEvent>, from: nat)
    requires Contiguous(run, log, from) && from + |run| + 1 == |log|
    ensures Contiguous(run + [Entry(|log|, log[|log| - 1])], log, from)
  {
  }

  /** A longer log keeps every member orderly. */
  lemma LogGrows(m: Member, log: seq<StreamEvent>, event: StreamEvent)
    requires Orderly(m, log)
    ensures Orderly(m, log + [event])
  {
    var run := Course(m);
    forall i | 0 <= i < |run| ensures run[i] == Entry(m.from + i + 1, (log + [event])[m.from + i]) {
    }
  }

  lemma NoTerminalYet(m: Member, log: seq<StreamEvent>)
    requires Orderly(m, log) && !m.client.closed
    ensures forall i :: 0 <= i < |m.delivered + m.client.queue| ==> !(m.delivered + m.client.queue)[i].terminal
  {
    var all := m.delivered + m.client.queue;
    if all != [] && m.client.queue == [] {
      assert all == m.delivered;
    }
  }

  /** Replacing the queue by a terminal cuts the course short without leaving a hole. */
  lemma CutShort(m: Member, t: Delivery, log: seq<StreamEvent>)
    requires Orderly(m, log) && !m.client.closed && t.terminal && t.entry.position == 0
    ensures Orderly(m.(client := Client([t], t.bytes, true)), log)
  {
    NoTerminalYet(m, log);
    OperationsKeepSound(m.client, t.(terminal := false), t);
    LoggedAppend(m.delivered, t);
    LoggedIsPrefix(m.delivered, m.client.queue);
    ContiguousPrefix(m.replay + Logged(m.delivered), Course(m), log, m.from);
    assert forall i :: 0 <= i < |m.delivered| ==> (m.delivered + m.client.queue)[i] == (m.delivered + [t])[i];
  }

  /** A delivery at the end of the queue extends the course by its log entry, if it has one. */
  lemma Extended(m: Member, d: Delivery, c: Client)
    requires c.queue == m.client.queue + [d]
    ensures Course(m.(client := c)) == if d.entry.position > 0 then Course(m) + [d.entry] else Course(m)
    ensures m.delivered + c.queue == (m.delivered + m.client.queue) + [d]
  {
    assert m.delivered + c.queue == (m.delivered + m.client.queue) + [d];
    LoggedAppend(m.delivered + m.client.queue, d);
    assert m.replay + (Logged(m.delivered + m.client.queue) + [d.entry]) == Course(m) + [d.entry];
  }

  /** Accepting the next log entry, or a delivery outside the log, keeps a member orderly. */
  lemma PushedOk(m: Member, d: Delivery, log: seq<StreamEvent>)
    requires Orderly(m, log) && Accepts(m.client, d.bytes) && !d.terminal
    requires d.entry.position > 0 ==> m.from + |Course(m)| + 1 == |log| && d.entry == Entry(|log|, log[|log| - 1])
    ensures Orderly(m.(client := Pushed(m.client, d)), log)
  {
    NoTerminalYet(m, log);
    OperationsKeepSound(m.client, d, d.(terminal := true));
    Extended(m, d, Pushed(m.client, d));
    if d.entry.position > 0 {
      ContiguousExtend(Course(m), log, m.from);
    }
  }

  lemma EndedOk(m: Member, t: Delivery, log: seq<StreamEvent>)
    requires Orderly(m, log) && t.terminal && t.entry.position == 0
    ensures Orderly(m.(client := Ended(m.client, t)), log)
  {
    if !m.client.closed {
      if Accepts(m.client, t.bytes) {
        NoTerminalYet(m, log);
        OperationsKeepSound(m.client, t.(terminal := false), t);
        Extended(m, t, Ended(m.client, t));
      } else {
        CutShort(m, t, log);
      }
    }
  }

  /** Handing the current job's delivery to a client keeps its course contiguous. */
  lemma ServedOk(s: Session, id: nat, resetBytes: nat)
    requires Ok(s) && Enabled(s, HandOver(id, resetBytes))
    ensures MemberOk(Apply(s, HandOver(id, resetBytes)), id)
  {
    var m := s.joined[id];
    assert MemberOk(s, id);
    match s.job {
      case Publishing(entry, bytes) =>
        var d := Delivery(entry, false, bytes);
        if Accepts(m.client, bytes) {
          PushedOk(m, d, s.log);
          Extended(m, d, Pushed(m.client, d));
        } else if !m.client.closed {
          CutShort(m, TerminalDelivery(ResetEvent(entry.event.topic, "slow_consumer"), resetBytes), s.log);
        }
      case Terminating(event, bytes) =>
        EndedOk(m, TerminalDelivery(event, bytes), s.log);
    }
  }

  /** Taking the first delivery moves it from what will be shown to what has been shown. */
  lemma TakenOk(m: Member, log: seq<StreamEvent>)
    requires Orderly(m, log) && m.client.queue != []
    ensures var m' := m.(client := Popped(m.client), delivered := m.delivered + [m.client.queue[0]]);
      Orderly(m', log) && Course(m') == Course(m)
  {
    var d := m.client.queue[0];
    OperationsKeepSound(m.client, d.(terminal := false), d.(terminal := true));
    assert (m.delivered + [d]) + m.client.queue[1..] == m.delivered + m.client.queue;
    var all := m.delivered + m.client.queue;
    assert all[|m.delivered|] == d;
    if d.terminal {
      assert |m.client.queue| == 1;
      assert Ends(m.client.queue);
    }
  }

  lemma JoinedOk(s: Session, id: nat, resume: Option<nat>, bytes: nat)
    requires Ok(s) && Enabled(s, Attach(id, resume, bytes))
    ensures MemberOk(Apply(s, Attach(id, resume, bytes)), id)
  {
    var m := Joined(s, resume, bytes);
    if s.terminal.Some? {
      var t := TerminalDelivery(s.terminal.value, bytes);
      OperationsKeepSound(NEW_CLIENT, t.(terminal := false), t);
      LoggedAppend([], t);
      assert [] + [t] == [t];
      assert m.delivered + m.client.queue == [t];
    } else {
      assert m.delivered + m.client.queue == [];
    }
    assert Course(m) == m.replay;
  }

  /** A step leaves the members it does not touch in order. */
  lemma BystanderOk(s: Session, a: Action, id: nat)
    requires Ok(s) && Enabled(s, a) && id in s.joined
    requires Apply(s, a).joined[id] == s.joined[id]
    requires a.HandOver? ==> a.id != id
    ensures MemberOk(Apply(s, a), id)
  {
    assert MemberOk(s, id);
    if a.Publish? {
      LogGrows(s.joined[id], s.log, a.event);
    }
  }

  lemma ShutOk(s: Session, id: nat)
    requires Ok(s) && id in s.joined
    ensures MemberOk(Apply(s, Close(id)), id)
  {
    assert MemberOk(s, id);
  }

  lemma TakeOk(s: Session, id: nat)
    requires Ok(s) && Enabled(s, Take(id))
    ensures MemberOk(Apply(s, Take(id)), id)
  {
    assert MemberOk(s, id);
    TakenOk(s.joined[id], s.log);
  }

  /** Every step keeps the invariant. */
  lemma StepOk(s: Session, a: Action)
    requires Ok(s) && Enabled(s, a)
    ensures Ok(Apply(s, a))
  {
    forall id | id in Apply(s, a).joined ensures MemberOk(Apply(s, a), id) {
      if a == Close(id) {
        ShutOk(s, id);
      } else if a == Take(id) {
        TakeOk(s, id);
      } else if a.HandOver? && a.id == id {
        ServedOk(s, id, a.resetBytes);
      } else if a.Attach? && a.id == id {
        JoinedOk(s, id, a.resume, a.bytes);
      } else {
        BystanderOk(s, a, id);
      }
    }
    JobStepOk(s, a);
  }

  lemma JobStepOk(s: Session, a: Action)
    requires Ok(s) && Enabled(s, a)
    ensures JobOk(Apply(s, a))
  {
  }

  /** The invariant holds after every schedule. */
  lemma {:induction false} RunOk(s: Session, schedule: seq<Action>)
    requires Ok(s) && Run(s, schedule).Some?
    ensures Ok(Run(s, schedule).value)
    decreases |schedule|
  {
    if schedule != [] {
      StepOk(s, schedule[0]);
      RunOk(Apply(s, schedule[0]), schedule[1..]);
    }
  }

  // ---- The promises ----------------------------------------------------------------------

  /** After any schedule, what a client has seen is a contiguous, duplicate free, in order run of
      the log that starts right after the position it resumed from, or where the log ended when
      it attached. A client that is still connected and has read everything, with no hand over
      going on, has seen the log to its end. */
  lemma ClientsSeeRuns(schedule: seq<Action>, id: nat)
    requires Run(NEW_SESSION, schedule).Some? && id in Run(NEW_SESSION, schedule).value.joined
    ensures var s := Run(NEW_SESSION, schedule).value;
      var m := s.joined[id];
      && Contiguous(Seen(m), s.log, m.from)
      && (id in s.clients && !m.client.closed && s.job.Idle? && m.client.queue == [] ==> m.from + |Seen(m)| == |s.log|)
      && TerminalLast(m.delivered)
      && (Ends(m.delivered) ==> m.client.queue == [])
  {
    RunOk(NEW_SESSION, schedule);
    var s := Run(NEW_SESSION, schedule).value;
    var m := s.joined[id];
    assert MemberOk(s, id);
    LoggedIsPrefix(m.delivered, m.client.queue);
    ContiguousPrefix(Seen(m), Course(m), s.log, m.from);
    if m.client.queue == [] {
      assert m.delivered + m.client.queue == m.delivered;
    }
    assert forall i :: 0 <= i < |m.delivered| ==> (m.delivered + m.client.queue)[i] == m.delivered[i];
  }

  /** Once set, the session's terminal never changes and the log never grows again, and an
      expired session stays without clients. */
  lemma {:induction false} TerminalIsFinal(s: Session, schedule: seq<Action>)
    requires Ok(s) && Run(s, schedule).Some?
    ensures var s' := Run(s, schedule).value;
      && s.log <= s'.log
      && (s.terminal.Some? ==> s'.terminal == s.terminal && s'.log == s.log)
      && (s.expired ==> s'.expired && s'.clients == {} && s'.log == s.log)
    decreases |schedule|
  {
    if schedule != [] {
      StepOk(s, schedule[0]);
      TerminalIsFinal(Apply(s, schedule[0]), schedule[1..]);
    }
  }

  /** A member keeps the starting point and the replay it attached with, and what it has seen
      only grows. */
  lemma {:induction false} MembersKeepTheirStart(s: Session, schedule: seq<Action>, id: nat)
    requires Run(s, schedule).Some? && id in s.joined
    ensures var s' := Run(s, schedule).value;
      && id in s'.joined && s'.joined[id].from == s.joined[id].from && s'.joined[id].replay == s.joined[id].replay
      && s.joined[id].delivered <= s'.joined[id].delivered
    decreases |schedule|
  {
    if schedule != [] {
      MembersKeepTheirStart(Apply(s, schedule[0]), schedule[1..], id);
    }
  }
}
