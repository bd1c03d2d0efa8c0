/** What the merge loop promises of each topic, against a definition by arrival order alone. */
module TopicOrder {
  import opened Options
  import opened StreamTypes
  import opened TopicMerge

  /** An event that reached the topic, after the scope filter, with the key of its source. */
  datatype Heard = Heard(key: string, event: StreamEvent)

  /** The event without the items that may not be seen. */
  function Shown(allowed: Option<set<string>>, e: StreamEvent): StreamEvent {
    e.(items := Visible(allowed, e.items))
  }

  /** Everything heard for a topic, in order of arrival. */
  function HeardFor(env: Env, incoming: seq<Incoming>, topic: Topic): seq<Heard> {
    if incoming == [] then []
    else
      var rest, item := HeardFor(env, incoming[..|incoming| - 1], topic), incoming[|incoming| - 1];
      if item.Arrived? && item.source.topic == topic && Passes(env.allowed, item.event)
      then rest + [Heard(item.source.key, Shown(env.allowed, item.event))]
      else rest
  }

  /** Sources that have sent their final snapshot. */
  function Finals(h: seq<Heard>): set<string> {
    if h == [] then {}
    else
      var last := h[|h| - 1];
      if last.event.kind == Snapshot && last.event.final then Finals(h[..|h| - 1]) + {last.key}
      else Finals(h[..|h| - 1])
  }

  /** All snapshot items. */
  function Items(h: seq<Heard>): seq<TopicObject> {
    if h == [] then []
    else
      var e := h[|h| - 1].event;
      if e.kind == Snapshot then Items(h[..|h| - 1]) + e.items else Items(h[..|h| - 1])
  }

  /** All changes: neither snapshots nor progress reports. */
  function Changes(h: seq<Heard>): seq<StreamEvent> {
    if h == [] then []
    else
      var e := h[|h| - 1].event;
      if e.kind == Snapshot || e.kind == Progress then Changes(h[..|h| - 1]) else Changes(h[..|h| - 1]) + [e]
  }

  /** The snapshot's resource version: the last one seen of a single source. */
  function Version(h: seq<Heard>, expected: nat): string {
    if h == [] then ""
    else
      var e := h[|h| - 1].event;
      if e.kind == Snapshot && expected == 1 then e.resourceVersion else Version(h[..|h| - 1], expected)
  }

  /** How many events it took until every expected source was final; more than all of them if
      that has not happened. */
  function CompletedAt(h: seq<Heard>, expected: nat): (n: nat)
    ensures n <= |h| + 1
  {
    if h == [] then 1
    else
      var n := CompletedAt(h[..|h| - 1], expected);
      if n < |h| then n else if |Finals(h)| == expected then |h| else |h| + 1
  }

  function Events(h: seq<Heard>): seq<StreamEvent> {
    if h == [] then [] else Events(h[..|h| - 1]) + [h[|h| - 1].event]
  }

  /** Heartbeats are passed on without being logged. */
  function Loggable(events: seq<StreamEvent>): seq<StreamEvent> {
    if events == [] then []
    else if events[0].kind == Heartbeat then Loggable(events[1..])
    else [events[0]] + Loggable(events[1..])
  }

  /** The log a topic is due: nothing before completion; then the chunks of all items in arrival
      order, every change heard up to completion, and every event after it. */
  function Due(env: Env, topic: Topic, h: seq<Heard>): seq<StreamEvent> {
    var expected := Expected(env.sources, topic);
    var n := CompletedAt(h, expected);
    if n > |h| then []
    else
      match SnapshotEvents(env, topic, Version(h[..n], expected), Items(h[..n]))
      case None => []
      case Some(chunks) => Loggable(chunks + Changes(h[..n]) + Events(h[n..]))
  }

  function LogOf(log: seq<LogEntry>, topic: Topic): seq<StreamEvent> {
    if log == [] then []
    else
      var last, rest := log[|log| - 1], LogOf(log[..|log| - 1], topic);
      if last.topic == topic then rest + [last.event] else rest
  }

  // ---- Lists -----------------------------------------------------------------------------

  lemma LogOfAppend(log: seq<LogEntry>, entry: LogEntry, topic: Topic)
    ensures LogOf(log + [entry], topic) ==
            if entry.topic == topic then LogOf(log, topic) + [entry.event] else LogOf(log, topic)
  {
    assert (log + [entry])[..|log|] == log;
  }

  lemma {:induction false} LoggableConcat(a: seq<StreamEvent>, b: seq<StreamEvent>)
    ensures Loggable(a + b) == Loggable(a) + Loggable(b)
  {
    if a == [] {
      assert a + b == b;
    } else {
      assert (a + b)[1..] == a[1..] + b;
      LoggableConcat(a[1..], b);
    }
  }

  lemma EventsAppend(h: seq<Heard>, x: Heard)
    ensures Events(h + [x]) == Events(h) + [x.event]
  {
    assert (h + [x])[..|h|] == h;
  }

  // ---- How what is due grows -------------------------------------------------------------

  lemma SliceAppend(h: seq<Heard>, x: Heard, n: nat)
    requires n <= |h|
    ensures (h + [x])[..n] == h[..n] && (h + [x])[n..] == h[n..] + [x]
  {
  }

  lemma StillCompleted(h: seq<Heard>, x: Heard, expected: nat)
    requires CompletedAt(h, expected) <= |h|
    ensures CompletedAt(h + [x], expected) == CompletedAt(h, expected)
  {
    assert (h + [x])[..|h + [x]| - 1] == h;
  }

  /** After completion every further event is due next. */
  lemma DueGrows(env: Env, topic: Topic, h: seq<Heard>, x: Heard)
    requires var expected := Expected(env.sources, topic);
      var n := CompletedAt(h, expected);
      n <= |h| && SnapshotEvents(env, topic, Version(h[..n], expected), Items(h[..n])).Some?
    ensures Due(env, topic, h + [x]) == Due(env, topic, h) + Loggable([x.event])
  {
    var expected := Expected(env.sources, topic);
    var n := CompletedAt(h, expected);
    StillCompleted(h, x, expected);
    SliceAppend(h, x, n);
    var chunks := SnapshotEvents(env, topic, Version(h[..n], expected), Items(h[..n])).value;
    EventsAppend(h[n..], x);
    var before := chunks + Changes(h[..n]) + Events(h[n..]);
    assert chunks + Changes(h[..n]) + Events(h[n..] + [x]) == before + [x.event];
    LoggableConcat(before, [x.event]);
  }

  /** What is due never changes, it only grows. */
  lemma DueIsStable(env: Env, topic: Topic, h: seq<Heard>, x: Heard)
    ensures Due(env, topic, h) <= Due(env, topic, h + [x])
  {
    var expected := Expected(env.sources, topic);
    var n := CompletedAt(h, expected);
    if n <= |h| {
      if SnapshotEvents(env, topic, Version(h[..n], expected), Items(h[..n])).Some? {
        DueGrows(env, topic, h, x);
      }
    }
  }

  // ---- Publishing ------------------------------------------------------------------------

  lemma PublishLogs(env: Env, m: Merge, topic: Topic, e: StreamEvent, other: Topic)
    requires m.running
    ensures var m' := Publish(env, m, topic, e);
      && m'.states == m.states
      && LogOf(m'.log, other) ==
           (if m'.running && other == topic then LogOf(m.log, other) + Loggable([e]) else LogOf(m.log, other))
  {
    LogOfAppend(m.log, LogEntry(topic, e), other);
    assert Loggable([e]) == if e.kind == Heartbeat then [] else [e];
  }

  /** A batch is logged up to the point where the session refuses, all of it if it does not. */
  lemma {:induction false} PublishAllLogs(env: Env, m: Merge, topic: Topic, events: seq<StreamEvent>)
    requires m.running
    ensures var m' := PublishAll(env, m, topic, events);
      && m'.states == m.states
      && LogOf(m'.log, topic) <= LogOf(m.log, topic) + Loggable(events)
      && (m'.running ==> LogOf(m'.log, topic) == LogOf(m.log, topic) + Loggable(events))
    decreases |events|
  {
    if events != [] {
      PublishLogs(env, m, topic, events[0], topic);
      var m1 := Publish(env, m, topic, events[0]);
      assert events == [events[0]] + events[1..];
      LoggableConcat([events[0]], events[1..]);
      if m1.running {
        PublishAllLogs(env, m1, topic, events[1..]);
        assert LogOf(m1.log, topic) + Loggable(events[1..]) == LogOf(m.log, topic) + Loggable(events);
      }
    }
  }

  lemma {:induction false} PublishAllIsLocal(env: Env, m: Merge, topic: Topic, events: seq<StreamEvent>, other: Topic)
    requires other != topic
    ensures var m' := PublishAll(env, m, topic, events);
      m'.states == m.states && LogOf(m'.log, other) == LogOf(m.log, other)
    decreases |events|
  {
    if events != [] && m.running {
      PublishLogs(env, m, topic, events[0], other);
      PublishAllIsLocal(env, Publish(env, m, topic, events[0]), topic, events[1..], other);
    }
  }

  // ---- The loop's invariant --------------------------------------------------------------

  /** While the loop runs, a topic's state holds what has been heard, and once complete its log is
      exactly what is due. */
  ghost predicate Tracks(env: Env, t: TopicState, log: seq<StreamEvent>, topic: Topic, h: seq<Heard>) {
    var expected := Expected(env.sources, topic);
    var n := CompletedAt(h, expected);
    && t.expected == expected
    && (t.complete ==>
          && n <= |h| && SnapshotEvents(env, topic, Version(h[..n], expected), Items(h[..n])).Some?
          && log == Due(env, topic, h))
    && (!t.complete ==>
          && n > |h| && log == [] && t.items == Items(h) && t.buffered == Changes(h)
          && t.finalSources == Finals(h) && t.version == Version(h, expected))
  }

  ghost predicate KeptFor(env: Env, m: Merge, topic: Topic, h: seq<Heard>) {
    && LogOf(m.log, topic) <= Due(env, topic, h)
    && (m.running && topic in m.states ==> Tracks(env, m.states[topic], LogOf(m.log, topic), topic, h))
    && (topic !in m.states ==> LogOf(m.log, topic) == [])
  }

  /** An event of another topic, or one the scope filter drops, leaves a topic alone. */
  lemma OthersLeaveAlone(env: Env, m: Merge, source: Source, e: StreamEvent, topic: Topic)
    requires m.running && source.topic != topic
    ensures var m' := OnEvent(env, m, source, e);
      && LogOf(m'.log, topic) == LogOf(m.log, topic)
      && (topic in m'.states <==> topic in m.states)
      && (topic in m.states ==> m'.states[topic] == m.states[topic])
  {
    if !Terminal(e.kind) && source.topic in m.states {
      var t := m.states[source.topic];
      if t.complete {
        PublishLogs(env, m, source.topic, e, topic);
      } else if e.kind == Snapshot {
        CompletionIsLocal(env, m, source, t, e, topic);
      }
    }
  }

  lemma CompletionIsLocal(env: Env, m: Merge, source: Source, t: TopicState, e: StreamEvent, topic: Topic)
    requires m.running && source.topic != topic
    ensures var m' := OnSnapshot(env, m, source, t, e);
      && LogOf(m'.log, topic) == LogOf(m.log, topic)
      && (topic in m'.states <==> topic in m.states)
      && (topic in m.states ==> m'.states[topic] == m.states[topic])
  {
    var advanced := Advance(env, t, source.key, e);
    if advanced.Some? {
      var t' := advanced.value;
      var m1 := Preview(m.(states := m.states[source.topic := t']), PreviewLength(t, e.items) > 0 || e.final);
      var chunks := SnapshotEvents(env, source.topic, t'.version, t'.items);
      if m1.running && |t'.finalSources| == t'.expected && chunks.Some? {
        var m2 := m1.(states := m1.states[source.topic := t'.(complete := true)]);
        PublishAllIsLocal(env, m2, source.topic, chunks.value + t'.buffered, topic);
      }
    }
  }

  // ---- One event of the topic itself -----------------------------------------------------

  /** Hearing one more event moves each of the definitions by one step. */
  lemma HeardOneMore(h: seq<Heard>, x: Heard, expected: nat)
    requires CompletedAt(h, expected) > |h|
    ensures Finals(h + [x]) == if x.event.kind == Snapshot && x.event.final then Finals(h) + {x.key} else Finals(h)
    ensures Items(h + [x]) == if x.event.kind == Snapshot then Items(h) + x.event.items else Items(h)
    ensures Changes(h + [x]) ==
      if x.event.kind == Snapshot || x.event.kind == Progress then Changes(h) else Changes(h) + [x.event]
    ensures Version(h + [x], expected) ==
      if x.event.kind == Snapshot && expected == 1 then x.event.resourceVersion else Version(h, expected)
    ensures CompletedAt(h + [x], expected) == if |Finals(h + [x])| == expected then |h| + 1 else |h| + 2
  {
    assert (h + [x])[..|h + [x]| - 1] == h;
  }

  lemma NotYetCompleted(h: seq<Heard>, expected: nat)
    requires CompletedAt(h, expected) > |h| && expected >= 1
    ensures |Finals(h)| != expected
  {
  }

  /** Completion: the chunks, then everything buffered, is exactly what is due at that moment. */
  lemma DueAtCompletion(env: Env, topic: Topic, h: seq<Heard>, chunks: seq<StreamEvent>)
    requires var expected := Expected(env.sources, topic);
      CompletedAt(h, expected) == |h|
      && SnapshotEvents(env, topic, Version(h, expected), Items(h)) == Some(chunks)
    ensures Due(env, topic, h) == Loggable(chunks + Changes(h))
  {
    assert h[..|h|] == h && h[|h|..] == [];
    assert chunks + Changes(h) + Events([]) == chunks + Changes(h);
  }

  lemma SnapshotKept(env: Env, m: Merge, source: Source, e: StreamEvent, h: seq<Heard>)
    requires m.running && e.kind == Snapshot && source.topic in m.states && !m.states[source.topic].complete
    requires Expected(env.sources, source.topic) >= 1
    requires Tracks(env, m.states[source.topic], LogOf(m.log, source.topic), source.topic, h)
    ensures KeptFor(env, OnSnapshot(env, m, source, m.states[source.topic], e), source.topic,
                    h + [Heard(source.key, e)])
  {
    var topic, t, x := source.topic, m.states[source.topic], Heard(source.key, e);
    var expected := Expected(env.sources, topic);
    HeardOneMore(h, x, expected);
    var advanced := Advance(env, t, source.key, e);
    if advanced.Some? {
      var t' := advanced.value;
      var m1 := Preview(m.(states := m.states[topic := t']), PreviewLength(t, e.items) > 0 || e.final);
      if m1.running && |t'.finalSources| == t'.expected {
        var chunks := SnapshotEvents(env, topic, t'.version, t'.items);
        if chunks.Some? {
          var m2 := m1.(states := m1.states[topic := t'.(complete := true)]);
          DueAtCompletion(env, topic, h + [x], chunks.value);
          PublishAllLogs(env, m2, topic, chunks.value + t'.buffered);
          assert (h + [x])[..|h| + 1] == h + [x];
        }
      }
    }
  }

  lemma PublishedKept(env: Env, m: Merge, source: Source, e: StreamEvent, h: seq<Heard>)
    requires m.running && source.topic in m.states && m.states[source.topic].complete
    requires Tracks(env, m.states[source.topic], LogOf(m.log, source.topic), source.topic, h)
    ensures KeptFor(env, Publish(env, m, source.topic, e), source.topic, h + [Heard(source.key, e)])
  {
    var topic, x := source.topic, Heard(source.key, e);
    var expected := Expected(env.sources, topic);
    DueGrows(env, topic, h, x);
    StillCompleted(h, x, expected);
    SliceAppend(h, x, CompletedAt(h, expected));
    PublishLogs(env, m, topic, e, topic);
  }

  /** Neither a progress report nor a buffered change completes a topic. */
  lemma QuietKept(env: Env, m: Merge, source: Source, e: StreamEvent, h: seq<Heard>)
    requires m.running && source.topic in m.states && !m.states[source.topic].complete
    requires !Terminal(e.kind) && e.kind != Snapshot && Expected(env.sources, source.topic) >= 1
    requires Tracks(env, m.states[source.topic], LogOf(m.log, source.topic), source.topic, h)
    ensures KeptFor(env, OnEvent(env, m, source, e), source.topic, h + [Heard(source.key, e)])
  {
    NotYetCompleted(h, Expected(env.sources, source.topic));
    HeardOneMore(h, Heard(source.key, e), Expected(env.sources, source.topic));
  }

  lemma EventKept(env: Env, m: Merge, source: Source, e: StreamEvent, h: seq<Heard>)
    requires m.running && KeptFor(env, m, source.topic, h)
    requires Expected(env.sources, source.topic) >= 1
    ensures KeptFor(env, OnEvent(env, m, source, e), source.topic, h + [Heard(source.key, e)])
  {
    if Terminal(e.kind) || source.topic !in m.states {
      DueIsStable(env, source.topic, h, Heard(source.key, e));
    } else if m.states[source.topic].complete {
      PublishedKept(env, m, source, e, h);
    } else if e.kind == Snapshot {
      SnapshotKept(env, m, source, e, h);
    } else {
      QuietKept(env, m, source, e, h);
    }
  }

  // ---- The promises ----------------------------------------------------------------------

  /** Items come from the session's own sources. */
  ghost predicate FromSources(env: Env, incoming: seq<Incoming>) {
    forall i :: 0 <= i < |incoming| && incoming[i].Arrived? ==> incoming[i].source in env.sources
  }

  lemma {:induction false} SourcesAreExpected(sources: seq<Source>, source: Source)
    requires source in sources
    ensures Expected(sources, source.topic) >= 1
  {
    var n := |sources| - 1;
    if sources[n] != source {
      SourcesAreExpected(sources[..n], source);
    }
  }

  /** One item of the loop, for any topic. */
  lemma StepKept(env: Env, m: Merge, item: Incoming, topic: Topic, h: seq<Heard>)
    requires KeptFor(env, m, topic, h) && (item.Arrived? ==> item.source in env.sources)
    ensures var m' := if m.running then Handle(env, m, item) else m;
      var scoped := if item.Arrived? && item.source.topic == topic then Scoped(env.allowed, item.event) else None;
      KeptFor(env, m', topic, if scoped.None? then h else h + [Heard(item.source.key, scoped.value)])
  {
    if item.Arrived? && Scoped(env.allowed, item.event).Some? {
      var e := Scoped(env.allowed, item.event).value;
      if item.source.topic != topic {
        if m.running {
          OthersLeaveAlone(env, m, item.source, e, topic);
        }
      } else if m.running {
        SourcesAreExpected(env.sources, item.source);
        EventKept(env, m, item.source, e, h);
      } else {
        DueIsStable(env, topic, h, Heard(item.source.key, e));
      }
    }
  }

  /** However the sources interleave and whenever the session is cut off, a topic's log is a prefix
      of what is due to it, and all of it as long as the loop runs. */
  lemma {:induction false} LogIsDue(env: Env, lives: nat, incoming: seq<Incoming>, topic: Topic)
    requires FromSources(env, incoming)
    ensures KeptFor(env, Process(env, lives, incoming), topic, HeardFor(env, incoming, topic))
  {
    if incoming != [] {
      var n := |incoming| - 1;
      LogIsDue(env, lives, incoming[..n], topic);
      if incoming[n].Arrived? {
        ScopedExactly(env.allowed, incoming[n].event);
      }
      StepKept(env, Process(env, lives, incoming[..n]), incoming[n], topic, HeardFor(env, incoming[..n], topic));
    }
  }

  function Keys(sources: seq<Source>, topic: Topic): set<string> {
    if sources == [] then {}
    else
      var last, rest := sources[|sources| - 1], Keys(sources[..|sources| - 1], topic);
      if last.topic == topic then rest + {last.key} else rest
  }

  lemma {:induction false} KeysAtMostExpected(sources: seq<Source>, topic: Topic)
    ensures |Keys(sources, topic)| <= Expected(sources, topic)
  {
    if sources != [] {
      KeysAtMostExpected(sources[..|sources| - 1], topic);
    }
  }

  lemma {:induction false} KeyListed(sources: seq<Source>, source: Source)
    requires source in sources
    ensures source.key in Keys(sources, source.topic)
  {
    var n := |sources| - 1;
    if sources[n] != source {
      KeyListed(sources[..n], source);
    }
  }

  lemma {:induction false} FinalsAreSources(env: Env, incoming: seq<Incoming>, topic: Topic)
    requires FromSources(env, incoming)
    ensures Finals(HeardFor(env, incoming, topic)) <= Keys(env.sources, topic)
  {
    if incoming != [] {
      var n := |incoming| - 1;
      FinalsAreSources(env, incoming[..n], topic);
      var h := HeardFor(env, incoming[..n], topic);
      var item := incoming[n];
      if item.Arrived? && item.source.topic == topic && Passes(env.allowed, item.event) {
        var x := Heard(item.source.key, Shown(env.allowed, item.event));
        assert (h + [x])[..|h + [x]| - 1] == h;
        KeyListed(env.sources, item.source);
      }
    }
  }

  lemma {:induction false} FinalsGrow(h: seq<Heard>, n: nat)
    requires n <= |h|
    ensures Finals(h[..n]) <= Finals(h)
  {
    if n < |h| {
      FinalsGrow(h[..|h| - 1], n);
      assert h[..|h| - 1][..n] == h[..n];
    } else {
      assert h[..n] == h;
    }
  }

  lemma {:induction false} CompletedMeansFinal(h: seq<Heard>, expected: nat)
    requires CompletedAt(h, expected) <= |h|
    ensures |Finals(h[..CompletedAt(h, expected)])| == expected
  {
    var n := CompletedAt(h, expected);
    if n < |h| {
      CompletedMeansFinal(h[..|h| - 1], expected);
      assert h[..|h| - 1][..n] == h[..n];
    } else {
      assert h[..n] == h;
    }
  }

  /** Nothing of a topic is logged before every one of its sources has sent its final snapshot. */
  lemma NothingBeforeEverySource(env: Env, lives: nat, incoming: seq<Incoming>, topic: Topic)
    requires FromSources(env, incoming)
    requires LogOf(Process(env, lives, incoming).log, topic) != []
    ensures Finals(HeardFor(env, incoming, topic)) == Keys(env.sources, topic)
  {
    LogIsDue(env, lives, incoming, topic);
    var h, expected := HeardFor(env, incoming, topic), Expected(env.sources, topic);
    CompletedMeansFinal(h, expected);
    FinalsGrow(h, CompletedAt(h, expected));
    FinalsAreSources(env, incoming, topic);
    KeysAtMostExpected(env.sources, topic);
    SubsetSizes(Finals(h[..CompletedAt(h, expected)]), Keys(env.sources, topic));
  }

  lemma SubsetSizes(a: set<string>, b: set<string>)
    requires a <= b && |b| <= |a|
    ensures a == b
  {
    assert b == a + (b - a);
    assert |b| == |a| + |b - a|;
  }

  // ---- Scope -----------------------------------------------------------------------------

  ghost predicate AllInside(allowed: Option<set<string>>, events: seq<StreamEvent>) {
    forall e :: e in events ==> WithinScope(allowed, e)
  }

  ghost predicate HeardInside(allowed: Option<set<string>>, h: seq<Heard>) {
    forall i :: 0 <= i < |h| ==> WithinScope(allowed, h[i].event)
  }

  lemma {:induction false} HeardIsInside(env: Env, incoming: seq<Incoming>, topic: Topic)
    ensures HeardInside(env.allowed, HeardFor(env, incoming, topic))
  {
    if incoming != [] {
      var item := incoming[|incoming| - 1];
      HeardIsInside(env, incoming[..|incoming| - 1], topic);
      if item.Arrived? && Passes(env.allowed, item.event) {
        ScopedExactly(env.allowed, item.event);
        ScopedStaysInside(env.allowed, item.event);
      }
    }
  }

  lemma {:induction false} ItemsAreInside(scope: set<string>, h: seq<Heard>, o: TopicObject)
    requires HeardInside(Some(scope), h) && "" !in scope && o in Items(h)
    ensures o.namespace in scope
  {
    var e := h[|h| - 1].event;
    if !(e.kind == Snapshot && o in e.items) {
      ItemsAreInside(scope, h[..|h| - 1], o);
    }
  }

  lemma {:induction false} PartsAreInside(allowed: Option<set<string>>, h: seq<Heard>)
    requires HeardInside(allowed, h)
    ensures AllInside(allowed, Changes(h)) && AllInside(allowed, Events(h))
  {
    if h != [] {
      PartsAreInside(allowed, h[..|h| - 1]);
    }
  }

  lemma {:induction false} LoggableIsInside(allowed: Option<set<string>>, events: seq<StreamEvent>)
    requires AllInside(allowed, events)
    ensures AllInside(allowed, Loggable(events))
  {
    if events != [] {
      LoggableIsInside(allowed, events[1..]);
    }
  }

  lemma {:induction false} ItemsOfOne(events: seq<StreamEvent>, i: nat, o: TopicObject)
    requires i < |events| && o in events[i].items
    ensures o in ItemsOf(events)
  {
    if i > 0 {
      ItemsOfOne(events[1..], i - 1, o);
    }
  }

  lemma ChunksAreInside(env: Env, topic: Topic, version: string, h: seq<Heard>)
    requires HeardInside(env.allowed, h) && SnapshotEvents(env, topic, version, Items(h)).Some?
    ensures AllInside(env.allowed, SnapshotEvents(env, topic, version, Items(h)).value)
  {
    var chunks := SnapshotEvents(env, topic, version, Items(h)).value;
    ChunksHoldTheItems(env.encodedLength, topic, version, Items(h), [], 0);
    assert [] + Items(h) == Items(h);
    forall i | 0 <= i < |chunks| ensures WithinScope(env.allowed, chunks[i]) {
      ChunksAreNumbered(env.encodedLength, topic, version, Items(h), [], 0, i);
      if env.allowed.Some? && "" !in env.allowed.value {
        forall o | o in chunks[i].items ensures o.namespace in env.allowed.value {
          ItemsOfOne(chunks, i, o);
          ItemsAreInside(env.allowed.value, h, o);
        }
      }
    }
  }

  lemma DueIsInside(env: Env, topic: Topic, h: seq<Heard>)
    requires HeardInside(env.allowed, h)
    ensures AllInside(env.allowed, Due(env, topic, h))
  {
    var expected := Expected(env.sources, topic);
    var n := CompletedAt(h, expected);
    if n <= |h| && SnapshotEvents(env, topic, Version(h[..n], expected), Items(h[..n])).Some? {
      var chunks := SnapshotEvents(env, topic, Version(h[..n], expected), Items(h[..n])).value;
      ChunksAreInside(env, topic, Version(h[..n], expected), h[..n]);
      PartsAreInside(env.allowed, h[..n]);
      PartsAreInside(env.allowed, h[n..]);
      LoggableIsInside(env.allowed, chunks + Changes(h[..n]) + Events(h[n..]));
    }
  }

  /** Whatever the sources deliver, nothing outside the session's namespaces is ever logged. */
  lemma LogStaysInScope(env: Env, lives: nat, incoming: seq<Incoming>, topic: Topic)
    requires FromSources(env, incoming)
    ensures AllInside(env.allowed, LogOf(Process(env, lives, incoming).log, topic))
  {
    LogIsDue(env, lives, incoming, topic);
    HeardIsInside(env, incoming, topic);
    DueIsInside(env, topic, HeardFor(env, incoming, topic));
  }
}
