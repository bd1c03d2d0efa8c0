/** When the merge loop goes on: said by what has arrived and the limits alone. As long as the limits
    are kept and the session accepts what it is given, nothing that is due to a topic is missing. */
module TopicProgress {
  import opened Options
  import opened StreamTypes
  import opened TopicMerge
  import opened TopicOrder

  // ---- The limits ------------------------------------------------------------------------

  /** Encoded bytes of items, with a separator each. */
  function Weight(env: Env, items: seq<TopicObject>): nat {
    if items == [] then 0
    else
      var last := env.itemLength(items[|items| - 1]);
      Weight(env, items[..|items| - 1]) + if last.Some? then last.value + 1 else 0
  }

  /** Wire bytes of events. */
  function Load(env: Env, events: seq<StreamEvent>): nat {
    if events == [] then 0
    else Load(env, events[..|events| - 1]) + env.encodedLength(events[|events| - 1]) + ENVELOPE_BYTES
  }

  predicate Encodable(env: Env, items: seq<TopicObject>) {
    forall i :: 0 <= i < |items| ==> env.itemLength(items[i]).Some?
  }

  /** Heartbeats are never too large, other events must fit. */
  predicate Publishable(env: Env, e: StreamEvent) {
    e.kind == Heartbeat || env.encodedLength(e) + ENVELOPE_BYTES <= MAX_EVENT_BYTES
  }

  predicate AllPublishable(env: Env, events: seq<StreamEvent>) {
    forall i :: 0 <= i < |events| ==> Publishable(env, events[i])
  }

  predicate Done(env: Env, topic: Topic, h: seq<Heard>) {
    CompletedAt(h, Expected(env.sources, topic)) <= |h|
  }

  /** The event brings the last of the final snapshots. */
  predicate Completes(env: Env, topic: Topic, h: seq<Heard>, x: Heard) {
    |Finals(h + [x])| == Expected(env.sources, topic)
  }

  function Snapshots(env: Env, topic: Topic, h: seq<Heard>): Option<seq<StreamEvent>> {
    SnapshotEvents(env, topic, Version(h, Expected(env.sources, topic)), Items(h))
  }

  /** What the loop can take in next for a topic. */
  predicate Acceptable(env: Env, topic: Topic, h: seq<Heard>, x: Heard) {
    var e := x.event;
    if Done(env, topic, h) then Publishable(env, e)
    else if e.kind == Progress then true
    else if e.kind == Snapshot then
      && x.key !in Finals(h) && |Items(h)| + |e.items| <= MAX_SNAPSHOT_ITEMS
      && Encodable(env, e.items) && Weight(env, Items(h)) + Weight(env, e.items) <= MAX_SNAPSHOT_BYTES
      && (Completes(env, topic, h, x) ==>
            && Snapshots(env, topic, h + [x]).Some?
            && AllPublishable(env, Snapshots(env, topic, h + [x]).value + Changes(h)))
    else
      && |Changes(h)| < MAX_QUEUE_EVENTS
      && Load(env, Changes(h)) + env.encodedLength(e) + ENVELOPE_BYTES <= MAX_QUEUE_BYTES
  }

  /** How many calls of the session the event may cost. */
  function Calls(env: Env, topic: Topic, h: seq<Heard>, x: Heard): nat {
    if !Done(env, topic, h) && x.event.kind == Snapshot && Completes(env, topic, h, x)
       && Snapshots(env, topic, h + [x]).Some?
    then 1 + |Snapshots(env, topic, h + [x]).value| + |Changes(h)|
    else 1
  }

  // ---- Sums ------------------------------------------------------------------------------

  lemma {:induction false} WeightJoins(env: Env, a: seq<TopicObject>, b: seq<TopicObject>)
    ensures Weight(env, a + b) == Weight(env, a) + Weight(env, b)
  {
    if b == [] {
      assert a + b == a;
    } else {
      WeightJoins(env, a, b[..|b| - 1]);
      assert (a + b)[..|a + b| - 1] == a + b[..|b| - 1];
    }
  }

  /** The running count accepts items exactly when all can be encoded and the sum stays in budget. */
  lemma {:induction false} ItemBytesExactly(env: Env, bytes: nat, items: seq<TopicObject>)
    requires bytes <= MAX_SNAPSHOT_BYTES
    ensures ItemBytes(env.itemLength, bytes, items) ==
      if Encodable(env, items) && bytes + Weight(env, items) <= MAX_SNAPSHOT_BYTES
      then Some(bytes + Weight(env, items)) else None
    decreases |items|
  {
    if items != [] {
      assert items == [items[0]] + items[1..];
      WeightJoins(env, [items[0]], items[1..]);
      WeightOfOne(env, items[0]);
      var first := env.itemLength(items[0]);
      if first.Some? && bytes + first.value + 1 <= MAX_SNAPSHOT_BYTES {
        ItemBytesExactly(env, bytes + first.value + 1, items[1..]);
        assert Encodable(env, items) <==> Encodable(env, items[1..]);
      }
    }
  }

  lemma WeightOfOne(env: Env, o: TopicObject)
    ensures Weight(env, [o]) == if env.itemLength(o).Some? then env.itemLength(o).value + 1 else 0
  {
    assert [o][..0] == [];
  }

  lemma LoadOfMore(env: Env, events: seq<StreamEvent>, e: StreamEvent)
    ensures Load(env, events + [e]) == Load(env, events) + env.encodedLength(e) + ENVELOPE_BYTES
  {
    assert (events + [e])[..|events|] == events;
  }

  /** A batch goes through exactly when each event fits, while the session accepts calls. */
  lemma {:induction false} PublishAllExactly(env: Env, m: Merge, topic: Topic, events: seq<StreamEvent>)
    requires m.running && m.lives >= |events|
    ensures PublishAll(env, m, topic, events).running <==> AllPublishable(env, events)
    ensures PublishAll(env, m, topic, events).running ==> PublishAll(env, m, topic, events).lives == m.lives - |events|
    decreases |events|
  {
    if events != [] {
      var m' := Publish(env, m, topic, events[0]);
      assert events == [events[0]] + events[1..];
      if m'.running {
        PublishAllExactly(env, m', topic, events[1..]);
      } else {
        assert PublishAll(env, m', topic, events[1..]) == m';
      }
    }
  }

  // ---- One event -------------------------------------------------------------------------

  /** The topic's counters are the sums of what it holds. */
  ghost predicate Ledger(env: Env, t: TopicState, h: seq<Heard>) {
    !t.complete ==>
      && t.itemBytes == Weight(env, Items(h)) <= MAX_SNAPSHOT_BYTES
      && t.bufferedBytes == Load(env, Changes(h))
  }

  lemma AddItemsExactly(env: Env, t: TopicState, items: seq<TopicObject>)
    requires t.itemBytes <= MAX_SNAPSHOT_BYTES
    ensures AddItems(env, t, items).Some? <==>
      && |t.items| + |items| <= MAX_SNAPSHOT_ITEMS && Encodable(env, items)
      && t.itemBytes + Weight(env, items) <= MAX_SNAPSHOT_BYTES
    ensures AddItems(env, t, items).Some? ==>
      AddItems(env, t, items).value == t.(items := t.items + items, itemBytes := t.itemBytes + Weight(env, items))
  {
    ItemBytesExactly(env, t.itemBytes, items);
  }

  lemma SnapshotGoesOn(env: Env, m: Merge, source: Source, e: StreamEvent, h: seq<Heard>)
    requires m.running && e.kind == Snapshot && source.topic in m.states && !m.states[source.topic].complete
    requires Tracks(env, m.states[source.topic], LogOf(m.log, source.topic), source.topic, h)
    requires Ledger(env, m.states[source.topic], h)
    requires m.lives >= Calls(env, source.topic, h, Heard(source.key, e))
    ensures var x, m' := Heard(source.key, e), OnSnapshot(env, m, source, m.states[source.topic], e);
      && (m'.running <==> Acceptable(env, source.topic, h, x))
      && (m'.running ==> m'.lives + Calls(env, source.topic, h, x) >= m.lives && source.topic in m'.states
                         && Ledger(env, m'.states[source.topic], h + [x]))
  {
    var topic, t, x := source.topic, m.states[source.topic], Heard(source.key, e);
    HeardOneMore(h, x, Expected(env.sources, topic));
    AddItemsExactly(env, t, e.items);
    WeightJoins(env, Items(h), e.items);
    var advanced := Advance(env, t, source.key, e);
    if advanced.Some? {
      var t' := advanced.value;
      var m1 := Preview(m.(states := m.states[topic := t']), PreviewLength(t, e.items) > 0 || e.final);
      assert m1.running && m1.lives >= m.lives - 1;
      if |t'.finalSources| == t'.expected {
        var chunks := SnapshotEvents(env, topic, t'.version, t'.items);
        assert chunks == Snapshots(env, topic, h + [x]);
        if chunks.Some? {
          var m2 := m1.(states := m1.states[topic := t'.(complete := true)]);
          PublishAllExactly(env, m2, topic, chunks.value + t'.buffered);
          PublishAllKeepsStates(env, m2, topic, chunks.value + t'.buffered);
        }
      }
    }
  }

  lemma {:induction false} PublishAllKeepsStates(env: Env, m: Merge, topic: Topic, events: seq<StreamEvent>)
    ensures PublishAll(env, m, topic, events).states == m.states
    decreases |events|
  {
    if events != [] && m.running {
      PublishAllKeepsStates(env, Publish(env, m, topic, events[0]), topic, events[1..]);
    }
  }

  lemma ProgressGoesOn(env: Env, m: Merge, source: Source, e: StreamEvent, h: seq<Heard>)
    requires m.running && source.topic in m.states && !m.states[source.topic].complete && e.kind == Progress
    requires Tracks(env, m.states[source.topic], LogOf(m.log, source.topic), source.topic, h)
    requires Ledger(env, m.states[source.topic], h) && m.lives >= 1
    ensures var x, m' := Heard(source.key, e), OnProgress(m, source.topic, m.states[source.topic], e);
      && m'.running && m'.lives + 1 >= m.lives && source.topic in m'.states
      && Ledger(env, m'.states[source.topic], h + [x])
  {
    HeardOneMore(h, Heard(source.key, e), Expected(env.sources, source.topic));
  }

  /** A change is buffered exactly when there is room. */
  lemma BufferExactly(env: Env, t: TopicState, h: seq<Heard>, x: Heard)
    requires x.event.kind != Snapshot && x.event.kind != Progress && !t.complete && Ledger(env, t, h)
    requires t.buffered == Changes(h) && Items(h + [x]) == Items(h) && Changes(h + [x]) == Changes(h) + [x.event]
    ensures Buffer(env, t, x.event).Some? <==>
      && |Changes(h)| < MAX_QUEUE_EVENTS
      && Load(env, Changes(h)) + env.encodedLength(x.event) + ENVELOPE_BYTES <= MAX_QUEUE_BYTES
    ensures Buffer(env, t, x.event).Some? ==> Ledger(env, Buffer(env, t, x.event).value, h + [x])
  {
    LoadOfMore(env, Changes(h), x.event);
  }

  lemma ChangeGoesOn(env: Env, m: Merge, source: Source, e: StreamEvent, h: seq<Heard>)
    requires m.running && source.topic in m.states && !m.states[source.topic].complete
    requires !Terminal(e.kind) && e.kind != Snapshot && e.kind != Progress
    requires Tracks(env, m.states[source.topic], LogOf(m.log, source.topic), source.topic, h)
    requires Ledger(env, m.states[source.topic], h)
    ensures var x, m' := Heard(source.key, e), OnEvent(env, m, source, e);
      && (m'.running <==> Acceptable(env, source.topic, h, x))
      && (m'.running ==> m'.lives == m.lives && source.topic in m'.states
                         && Ledger(env, m'.states[source.topic], h + [x]))
  {
    HeardOneMore(h, Heard(source.key, e), Expected(env.sources, source.topic));
    BufferExactly(env, m.states[source.topic], h, Heard(source.key, e));
  }

  /** An event of a known topic that does not end the session is taken in exactly when it is
      acceptable, as long as the session accepts the calls it costs. */
  lemma EventGoesOn(env: Env, m: Merge, source: Source, e: StreamEvent, h: seq<Heard>)
    requires m.running && source.topic in m.states && !Terminal(e.kind)
    requires Tracks(env, m.states[source.topic], LogOf(m.log, source.topic), source.topic, h)
    requires Ledger(env, m.states[source.topic], h)
    requires m.lives >= Calls(env, source.topic, h, Heard(source.key, e))
    ensures var x, m' := Heard(source.key, e), OnEvent(env, m, source, e);
      && (m'.running <==> Acceptable(env, source.topic, h, x))
      && (m'.running ==> m'.lives + Calls(env, source.topic, h, x) >= m.lives && source.topic in m'.states
                         && Ledger(env, m'.states[source.topic], h + [x]))
  {
    if m.states[source.topic].complete {
    } else if e.kind == Snapshot {
      SnapshotGoesOn(env, m, source, e, h);
    } else if e.kind == Progress {
      ProgressGoesOn(env, m, source, e, h);
    } else {
      ChangeGoesOn(env, m, source, e, h);
    }
  }

  // ---- The whole run ---------------------------------------------------------------------

  /** The loop can take the item in after the others: it is an event, and one that the scope filter
      drops, or one of a known topic that is acceptable and does not end the session. */
  predicate Goes(env: Env, before: seq<Incoming>, item: Incoming) {
    item.Arrived? && (Passes(env.allowed, item.event) ==>
      && !Terminal(item.event.kind) && item.source.topic in env.topics
      && Acceptable(env, item.source.topic, HeardFor(env, before, item.source.topic), HeardOf(env, item)))
  }

  function HeardOf(env: Env, item: Incoming): Heard
    requires item.Arrived?
  {
    Heard(item.source.key, Shown(env.allowed, item.event))
  }

  predicate Admissible(env: Env, incoming: seq<Incoming>) {
    incoming != [] ==>
      var n := |incoming| - 1;
      Admissible(env, incoming[..n]) && Goes(env, incoming[..n], incoming[n])
  }

  /** How many calls of the session all of it may cost. */
  function Cost(env: Env, incoming: seq<Incoming>): nat {
    if incoming == [] then 0
    else
      var n := |incoming| - 1;
      Cost(env, incoming[..n]) + ItemCost(env, incoming[..n], incoming[n])
  }

  function ItemCost(env: Env, before: seq<Incoming>, item: Incoming): nat {
    if item.Arrived? && Passes(env.allowed, item.event)
    then Calls(env, item.source.topic, HeardFor(env, before, item.source.topic), HeardOf(env, item)) else 0
  }

  ghost predicate Steady(env: Env, m: Merge, incoming: seq<Incoming>) {
    && (forall topic :: topic in m.states <==> topic in env.topics)
    && (forall topic :: topic in m.states ==> Ledger(env, m.states[topic], HeardFor(env, incoming, topic)))
  }

  lemma HeardNext(env: Env, before: seq<Incoming>, item: Incoming, topic: Topic)
    ensures HeardFor(env, before + [item], topic) ==
      if item.Arrived? && item.source.topic == topic && Passes(env.allowed, item.event)
      then HeardFor(env, before, topic) + [HeardOf(env, item)] else HeardFor(env, before, topic)
  {
    assert (before + [item])[..|before|] == before;
  }

  lemma TopicsStay(env: Env, m: Merge, source: Source, e: StreamEvent, topic: Topic)
    requires m.running
    ensures topic in OnEvent(env, m, source, e).states <==> topic in m.states
  {
    if source.topic != topic {
      OthersLeaveAlone(env, m, source, e, topic);
    } else if !Terminal(e.kind) && topic in m.states && !m.states[topic].complete && e.kind == Snapshot {
      var advanced := Advance(env, m.states[topic], source.key, e);
      if advanced.Some? {
        var t' := advanced.value;
        var m1 := Preview(m.(states := m.states[topic := t']), PreviewLength(m.states[topic], e.items) > 0 || e.final);
        var chunks := SnapshotEvents(env, topic, t'.version, t'.items);
        if m1.running && |t'.finalSources| == t'.expected && chunks.Some? {
          var m2 := m1.(states := m1.states[topic := t'.(complete := true)]);
          PublishAllKeepsStates(env, m2, topic, chunks.value + t'.buffered);
        }
      }
    }
  }

  /** One item, for all topics at once. */
  lemma ItemGoesOn(env: Env, m: Merge, before: seq<Incoming>, item: Incoming)
    requires m.running && Steady(env, m, before) && m.lives >= ItemCost(env, before, item)
    requires item.Arrived? ==> KeptFor(env, m, item.source.topic, HeardFor(env, before, item.source.topic))
    ensures var m' := Handle(env, m, item);
      && (m'.running <==> Goes(env, before, item))
      && (m'.running ==> m'.lives + ItemCost(env, before, item) >= m.lives && Steady(env, m', before + [item]))
  {
    forall topic ensures HeardFor(env, before + [item], topic) ==
      if item.Arrived? && item.source.topic == topic && Passes(env.allowed, item.event)
      then HeardFor(env, before, topic) + [HeardOf(env, item)] else HeardFor(env, before, topic)
    {
      HeardNext(env, before, item, topic);
    }
    if item.Arrived? {
      ScopedExactly(env.allowed, item.event);
      if Passes(env.allowed, item.event) {
        PassedGoesOn(env, m, before, item);
      }
    }
  }

  lemma PassedGoesOn(env: Env, m: Merge, before: seq<Incoming>, item: Incoming)
    requires m.running && Steady(env, m, before) && m.lives >= ItemCost(env, before, item)
    requires item.Arrived? && Passes(env.allowed, item.event)
    requires KeptFor(env, m, item.source.topic, HeardFor(env, before, item.source.topic))
    ensures var m' := OnEvent(env, m, item.source, Shown(env.allowed, item.event));
      && (m'.running <==> Goes(env, before, item))
      && (m'.running ==>
            && m'.lives + ItemCost(env, before, item) >= m.lives
            && (forall topic :: topic in m'.states <==> topic in env.topics)
            && (forall topic :: topic in m'.states ==> Ledger(env, m'.states[topic],
                  if topic == item.source.topic then HeardFor(env, before, topic) + [HeardOf(env, item)]
                  else HeardFor(env, before, topic))))
  {
    var source, e := item.source, Shown(env.allowed, item.event);
    var m' := OnEvent(env, m, source, e);
    if !Terminal(e.kind) && source.topic in m.states {
      EventGoesOn(env, m, source, e, HeardFor(env, before, source.topic));
      forall topic ensures topic in m'.states <==> topic in m.states {
        TopicsStay(env, m, source, e, topic);
      }
      forall topic | topic != source.topic && topic in m.states ensures m'.states[topic] == m.states[topic] {
        OthersLeaveAlone(env, m, source, e, topic);
      }
    }
  }

  /** The loop is running exactly when everything so far could be taken in; and then it has spent no
      more calls than that cost. */
  ghost predicate GoesOn(env: Env, lives: nat, m: Merge, incoming: seq<Incoming>) {
    && (m.running <==> Admissible(env, incoming))
    && (m.running ==> m.lives + Cost(env, incoming) >= lives && Steady(env, m, incoming))
  }

  lemma OneMoreItem(env: Env, before: seq<Incoming>, item: Incoming)
    ensures Admissible(env, before + [item]) <==> Admissible(env, before) && Goes(env, before, item)
    ensures Cost(env, before + [item]) == Cost(env, before) + ItemCost(env, before, item)
  {
    assert (before + [item])[..|before|] == before;
  }

  lemma LoopStep(env: Env, lives: nat, m: Merge, before: seq<Incoming>, item: Incoming)
    requires GoesOn(env, lives, m, before) && lives >= Cost(env, before + [item])
    requires m.running && item.Arrived? ==>
      KeptFor(env, m, item.source.topic, HeardFor(env, before, item.source.topic))
    ensures GoesOn(env, lives, if m.running then Handle(env, m, item) else m, before + [item])
  {
    OneMoreItem(env, before, item);
    if m.running {
      ItemGoesOn(env, m, before, item);
    }
  }

  /** However the sources interleave, the loop is still running exactly when every item could be
      taken in, provided the session accepted the calls that took. */
  lemma {:induction false} LoopGoesOn(env: Env, lives: nat, incoming: seq<Incoming>)
    requires FromSources(env, incoming) && lives >= Cost(env, incoming)
    ensures GoesOn(env, lives, Process(env, lives, incoming), incoming)
  {
    if incoming == [] {
      StartIsSteady(env, lives);
    } else {
      var n := |incoming| - 1;
      assert incoming == incoming[..n] + [incoming[n]];
      OneMoreItem(env, incoming[..n], incoming[n]);
      LoopGoesOn(env, lives, incoming[..n]);
      if incoming[n].Arrived? {
        LogIsDue(env, lives, incoming[..n], incoming[n].source.topic);
      }
      LoopStep(env, lives, Process(env, lives, incoming[..n]), incoming[..n], incoming[n]);
    }
  }

  lemma StartIsSteady(env: Env, lives: nat)
    ensures Start(env, lives).running && Steady(env, Start(env, lives), [])
  {
  }

  /** Then nothing is missing: the log of every topic is all that is due to it. */
  lemma NothingIsMissing(env: Env, lives: nat, incoming: seq<Incoming>, topic: Topic)
    requires FromSources(env, incoming) && Admissible(env, incoming) && lives >= Cost(env, incoming)
    requires topic in env.topics
    ensures LogOf(Process(env, lives, incoming).log, topic) == Due(env, topic, HeardFor(env, incoming, topic))
  {
    LoopGoesOn(env, lives, incoming);
    LogIsDue(env, lives, incoming, topic);
  }

  // ---- Chunks ----------------------------------------------------------------------------

  /** The item leaves the reserve free in a chunk of its own, whatever the chunk's number. */
  ghost predicate FitsAlone(size: StreamEvent -> nat, topic: Topic, version: string, o: TopicObject) {
    forall n: nat, final: bool :: size(Chunk(topic, version, [o], n, final)) <= MAX_EVENT_BYTES - 512
  }

  lemma {:induction false} ChunksSucceed(size: StreamEvent -> nat, topic: Topic, version: string,
                                         items: seq<TopicObject>, chunk: seq<TopicObject>, n: nat)
    requires forall i :: 0 <= i < |items| ==> FitsAlone(size, topic, version, items[i])
    ensures ChunksFrom(size, topic, version, items, chunk, n).Some?
    decreases |items|
  {
    if items != [] {
      var candidate := chunk + [items[0]];
      assert FitsAlone(size, topic, version, items[0]) && [] + [items[0]] == [items[0]];
      if size(Chunk(topic, version, candidate, n, false)) <= MAX_EVENT_BYTES - 512 {
        ChunksSucceed(size, topic, version, items[1..], candidate, n);
      } else {
        ChunksSucceed(size, topic, version, items[1..], [items[0]], n + 1);
      }
    }
  }

  /** A snapshot within the limits, of items of the topic that fit alone, can be published. */
  lemma SnapshotSucceeds(env: Env, topic: Topic, version: string, items: seq<TopicObject>)
    requires |items| <= MAX_SNAPSHOT_ITEMS && env.listLength(items) <= MAX_SNAPSHOT_BYTES
    requires forall i :: 0 <= i < |items| ==>
      items[i].topic == topic && FitsAlone(env.encodedLength, topic, version, items[i])
    ensures SnapshotEvents(env, topic, version, items).Some?
  {
    ChunksSucceed(env.encodedLength, topic, version, items, [], 0);
  }

  /** A chunk leaves the reserve free, or is a single item that fits; or the snapshot is empty. */
  ghost predicate Fitting(size: StreamEvent -> nat, topic: Topic, version: string, items: seq<TopicObject>, n: nat) {
    || items == []
    || size(Chunk(topic, version, items, n, false)) <= MAX_EVENT_BYTES - 512
    || (|items| == 1 && size(Chunk(topic, version, items, n, true)) + ENVELOPE_BYTES <= MAX_EVENT_BYTES)
  }

  /** Every chunk fits, and was closed only because the next item would not have left the reserve. */
  lemma {:induction false} ChunksAreFull(size: StreamEvent -> nat, topic: Topic, version: string,
                                         items: seq<TopicObject>, chunk: seq<TopicObject>, n: nat, i: nat)
    requires ChunksFrom(size, topic, version, items, chunk, n).Some? && Fitting(size, topic, version, chunk, n)
    requires i < |ChunksFrom(size, topic, version, items, chunk, n).value|
    ensures var chunks := ChunksFrom(size, topic, version, items, chunk, n).value;
      && Fitting(size, topic, version, chunks[i].items, n + i)
      && (i < |chunks| - 1 ==>
            && chunks[i + 1].items != []
            && size(Chunk(topic, version, chunks[i].items + [chunks[i + 1].items[0]], n + i, false))
               > MAX_EVENT_BYTES - 512)
    decreases |items|
  {
    var chunks := ChunksFrom(size, topic, version, items, chunk, n).value;
    if items != [] {
      var candidate := chunk + [items[0]];
      if size(Chunk(topic, version, candidate, n, false)) <= MAX_EVENT_BYTES - 512 {
        ChunksAreFull(size, topic, version, items[1..], candidate, n, i);
      } else {
        FirstChunkExtends(size, topic, version, items[1..], [items[0]], n + 1);
        if i > 0 {
          ChunksAreFull(size, topic, version, items[1..], [items[0]], n + 1, i - 1);
        }
      }
    }
  }

  /** The first chunk begins with what was being filled. */
  lemma {:induction false} FirstChunkExtends(size: StreamEvent -> nat, topic: Topic, version: string,
                                             items: seq<TopicObject>, chunk: seq<TopicObject>, n: nat)
    requires ChunksFrom(size, topic, version, items, chunk, n).Some?
    ensures ChunksFrom(size, topic, version, items, chunk, n).value != []
    ensures chunk <= ChunksFrom(size, topic, version, items, chunk, n).value[0].items
    decreases |items|
  {
    if items != [] {
      var candidate := chunk + [items[0]];
      if size(Chunk(topic, version, candidate, n, false)) <= MAX_EVENT_BYTES - 512 {
        FirstChunkExtends(size, topic, version, items[1..], candidate, n);
      }
    }
  }
}
