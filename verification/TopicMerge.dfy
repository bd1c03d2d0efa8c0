/** The session's merge loop: many watch sources become one transactional snapshot per topic,
    followed by every later change. */
module TopicMerge {
  import opened Options
  import opened StreamTypes

  const MAX_SNAPSHOT_ITEMS: nat := 10000
  const MAX_SNAPSHOT_BYTES: nat := 10485760
  const PREVIEW_ITEMS: int := 500

  datatype Source = Source(topic: Topic, key: string, namespace: string)

  /** What the loop receives: an event of a source, a failed source (quietly when the session is
      already over), or a failed reauthorization. */
  datatype Incoming = Arrived(source: Source, event: StreamEvent) | Failed(source: Source, quiet: bool) | Revoked

  /** The session's scope and sources, and the encoded lengths of events, items and item lists. */
  datatype Env = Env(allowed: Option<set<string>>, sources: seq<Source>, topics: seq<Topic>,
                     encodedLength: StreamEvent -> nat, itemLength: TopicObject -> Option<nat>,
                     listLength: seq<TopicObject> -> nat)

  // ---- Scope filter ----------------------------------------------------------------------

  /** `topicObjectNamespace`: volume claims are missing from its cases. */
  function NamespaceOf(o: TopicObject): string {
    if o.topic == Claims then "" else o.namespace
  }

  function Inside(items: seq<TopicObject>, scope: set<string>): seq<TopicObject> {
    if items == [] then []
    else
      var n := |items| - 1;
      if NamespaceOf(items[n]) in scope then Inside(items[..n], scope) + [items[n]] else Inside(items[..n], scope)
  }

  /** `filterScopedEvent`. */
  function Scoped(allowed: Option<set<string>>, e: StreamEvent): Option<StreamEvent> {
    match allowed
    case None => Some(e)
    case Some(scope) =>
      if e.subject.Some? && NamespaceOf(e.subject.value) !in scope then None
      else if e.deleted.Some? && e.deleted.value.namespace !in scope then None
      else if (e.kind == Added || e.kind == Modified) && e.subject.None? then None
      else if e.kind == Deleted && e.deleted.None? then None
      else Some(e.(items := Inside(e.items, scope)))
  }

  // What the filter does, said without it.

  /** An object counts as inside a scope by its own namespace; a volume claim counts as being in
      the namespace without a name. */
  predicate Counted(scope: set<string>, o: TopicObject) {
    if o.topic == Claims then "" in scope else o.namespace in scope
  }

  /** Without a scope everything passes. With one, an event passes whose object and deletion are
      inside it and which has the one its kind calls for. */
  predicate Passes(allowed: Option<set<string>>, e: StreamEvent) {
    allowed.Some? ==>
      && (e.subject.Some? ==> Counted(allowed.value, e.subject.value))
      && (e.deleted.Some? ==> e.deleted.value.namespace in allowed.value)
      && (e.kind == Added || e.kind == Modified ==> e.subject.Some?)
      && (e.kind == Deleted ==> e.deleted.Some?)
  }

  /** One list results from the other by leaving elements out. */
  predicate Subsequence(part: seq<TopicObject>, whole: seq<TopicObject>) {
    if part == [] then true
    else if whole == [] then false
    else if part[0] == whole[0] && Subsequence(part[1..], whole[1..]) then true
    else Subsequence(part, whole[1..])
  }

  /** The items a client may see: of every item inside the scope all its occurrences, of others
      none, in the order they came in. */
  ghost predicate Kept(allowed: Option<set<string>>, items: seq<TopicObject>, kept: seq<TopicObject>) {
    Subsequence(kept, items) && forall o :: Times(kept, o) == if Seen(allowed, o) then Times(items, o) else 0
  }

  predicate Seen(allowed: Option<set<string>>, o: TopicObject) {
    allowed.None? || Counted(allowed.value, o)
  }

  function Times(items: seq<TopicObject>, o: TopicObject): nat {
    multiset(items)[o]
  }

  lemma TimesOfMore(x: TopicObject, items: seq<TopicObject>, o: TopicObject)
    ensures Times([x] + items, o) == Times(items, o) + (if x == o then 1 else 0)
    ensures Times(items + [x], o) == Times(items, o) + (if x == o then 1 else 0)
  {
  }

  lemma {:induction false} EverySequenceIsItself(items: seq<TopicObject>)
    ensures Subsequence(items, items)
  {
    if items != [] {
      EverySequenceIsItself(items[1..]);
    }
  }

  lemma {:induction false} SubsequenceGrows(part: seq<TopicObject>, whole: seq<TopicObject>, o: TopicObject)
    requires Subsequence(part, whole)
    ensures Subsequence(part, whole + [o]) && Subsequence(part + [o], whole + [o])
  {
    if whole == [] {
      assert part + [o] == [o] && whole + [o] == [o];
      EverySequenceIsItself([o]);
    } else {
      assert (whole + [o])[0] == whole[0] && (whole + [o])[1..] == whole[1..] + [o];
      if part == [] {
        SubsequenceGrows([], whole[1..], o);
        assert [] + [o] == part + [o];
      } else {
        assert (part + [o])[0] == part[0] && (part + [o])[1..] == part[1..] + [o];
        if part[0] == whole[0] && Subsequence(part[1..], whole[1..]) {
          SubsequenceGrows(part[1..], whole[1..], o);
        } else {
          SubsequenceGrows(part, whole[1..], o);
        }
      }
    }
  }

  lemma {:induction false} InsideTimes(items: seq<TopicObject>, scope: set<string>, o: TopicObject)
    ensures Times(Inside(items, scope), o) == if Counted(scope, o) then Times(items, o) else 0
  {
    if items != [] {
      var n := |items| - 1;
      InsideTimes(items[..n], scope, o);
      assert items == items[..n] + [items[n]];
      TimesOfMore(items[n], items[..n], o);
      TimesOfMore(items[n], Inside(items[..n], scope), o);
    }
  }

  lemma {:induction false} InsideIsPart(items: seq<TopicObject>, scope: set<string>)
    ensures Subsequence(Inside(items, scope), items)
  {
    if items != [] {
      var n := |items| - 1;
      InsideIsPart(items[..n], scope);
      SubsequenceGrows(Inside(items[..n], scope), items[..n], items[n]);
      assert items == items[..n] + [items[n]];
    }
  }

  lemma InsideKeeps(items: seq<TopicObject>, scope: set<string>)
    ensures Kept(Some(scope), items, Inside(items, scope))
  {
    InsideIsPart(items, scope);
    forall o ensures Times(Inside(items, scope), o) == if Counted(scope, o) then Times(items, o) else 0 {
      InsideTimes(items, scope, o);
    }
  }

  lemma {:induction false} SubsequenceCounts(part: seq<TopicObject>, whole: seq<TopicObject>, o: TopicObject)
    requires Subsequence(part, whole)
    ensures Times(part, o) <= Times(whole, o)
  {
    if part != [] {
      assert whole == [whole[0]] + whole[1..] && part == [part[0]] + part[1..];
      TimesOfMore(whole[0], whole[1..], o);
      TimesOfMore(part[0], part[1..], o);
      if part[0] == whole[0] && Subsequence(part[1..], whole[1..]) {
        SubsequenceCounts(part[1..], whole[1..], o);
      } else {
        SubsequenceCounts(part, whole[1..], o);
      }
    }
  }

  /** What is kept begins with the first item exactly when that may be seen. */
  lemma KeptHead(allowed: Option<set<string>>, items: seq<TopicObject>, kept: seq<TopicObject>)
    requires Kept(allowed, items, kept) && items != []
    ensures if Seen(allowed, items[0])
            then kept != [] && kept[0] == items[0] && Kept(allowed, items[1..], kept[1..])
            else Kept(allowed, items[1..], kept)
  {
    assert items == [items[0]] + items[1..];
    TimesOfMore(items[0], items[1..], items[0]);
    if kept != [] && kept[0] == items[0] && Subsequence(kept[1..], items[1..]) {
      assert kept == [kept[0]] + kept[1..];
      TimesOfMore(kept[0], kept[1..], kept[0]);
      forall o ensures Times(kept[1..], o) == if Seen(allowed, o) then Times(items[1..], o) else 0 {
        TimesOfMore(kept[0], kept[1..], o);
        TimesOfMore(items[0], items[1..], o);
      }
    } else {
      SubsequenceCounts(kept, items[1..], items[0]);
      forall o ensures Times(kept, o) == if Seen(allowed, o) then Times(items[1..], o) else 0 {
        TimesOfMore(items[0], items[1..], o);
      }
    }
  }

  /** There is only one way to keep the items of a scope. */
  lemma {:induction false} KeptIsUnique(allowed: Option<set<string>>, items: seq<TopicObject>,
                                        a: seq<TopicObject>, b: seq<TopicObject>)
    requires Kept(allowed, items, a) && Kept(allowed, items, b)
    ensures a == b
    decreases |items|
  {
    if items != [] {
      KeptHead(allowed, items, a);
      KeptHead(allowed, items, b);
      if Seen(allowed, items[0]) {
        KeptIsUnique(allowed, items[1..], a[1..], b[1..]);
        assert a == [a[0]] + a[1..] && b == [b[0]] + b[1..];
      } else {
        KeptIsUnique(allowed, items[1..], a, b);
      }
    }
  }

  /** The items that may be seen. */
  function Visible(allowed: Option<set<string>>, items: seq<TopicObject>): seq<TopicObject> {
    if items == [] then []
    else if Seen(allowed, items[0]) then [items[0]] + Visible(allowed, items[1..])
    else Visible(allowed, items[1..])
  }

  lemma {:induction false} VisibleKeeps(allowed: Option<set<string>>, items: seq<TopicObject>)
    ensures Kept(allowed, items, Visible(allowed, items))
  {
    if items != [] {
      VisibleKeeps(allowed, items[1..]);
      assert items == [items[0]] + items[1..];
      var kept, rest := Visible(allowed, items), Visible(allowed, items[1..]);
      assert Seen(allowed, items[0]) ==> kept[1..] == rest;
      forall o ensures Times(kept, o) == if Seen(allowed, o) then Times(items, o) else 0 {
        TimesOfMore(items[0], items[1..], o);
        TimesOfMore(items[0], rest, o);
      }
    }
  }

  /** The filter passes exactly those events, and changes nothing but their items, of which it keeps
      those that may be seen: each as often as it came, in order. */
  lemma ScopedExactly(allowed: Option<set<string>>, e: StreamEvent)
    ensures Scoped(allowed, e) ==
      if Passes(allowed, e) then Some(e.(items := Visible(allowed, e.items))) else None
    ensures Kept(allowed, e.items, Visible(allowed, e.items))
    ensures allowed.None? ==> Scoped(allowed, e) == Some(e)
  {
    VisibleKeeps(allowed, e.items);
    if allowed.Some? {
      InsideKeeps(e.items, allowed.value);
      KeptIsUnique(allowed, e.items, Visible(allowed, e.items), Inside(e.items, allowed.value));
    } else {
      EverySequenceIsItself(e.items);
      KeptIsUnique(allowed, e.items, Visible(allowed, e.items), e.items);
    }
  }

  /** Nothing in the event belongs to a namespace outside the scope. A scope lists namespaces by
      name, so the empty string is not among them. */
  ghost predicate WithinScope(allowed: Option<set<string>>, e: StreamEvent) {
    allowed.Some? && "" !in allowed.value ==>
      && (forall o :: o in e.items ==> o.namespace in allowed.value)
      && (e.subject.Some? ==> e.subject.value.namespace in allowed.value)
      && (e.deleted.Some? ==> e.deleted.value.namespace in allowed.value)
  }

  /** The filter's test keeps objects of other namespaces out exactly when the scope does not list
      the empty string, which is where the test puts volume claims. */
  lemma FilterIsTight(scope: set<string>, elsewhere: string)
    requires elsewhere !in scope
    ensures (forall o: TopicObject :: NamespaceOf(o) in scope ==> o.namespace in scope) <==> "" !in scope
  {
    var claim := TopicObject(Claims, elsewhere, "");
    assert NamespaceOf(claim) == "";
  }

  lemma {:induction false} InsideExactly(items: seq<TopicObject>, scope: set<string>, o: TopicObject)
    ensures o in Inside(items, scope) <==> o in items && NamespaceOf(o) in scope
  {
    if items != [] {
      var n := |items| - 1;
      InsideExactly(items[..n], scope, o);
      assert items == items[..n] + [items[n]];
    }
  }

  lemma ScopedStaysInside(allowed: Option<set<string>>, e: StreamEvent)
    requires Scoped(allowed, e).Some?
    ensures WithinScope(allowed, Scoped(allowed, e).value)
  {
    if allowed.Some? && "" !in allowed.value {
      forall o | o in Scoped(allowed, e).value.items ensures o.namespace in allowed.value {
        InsideExactly(e.items, allowed.value, o);
      }
    }
  }

  /** The filter keeps an item of a snapshot by its own namespace exactly when the item is not a
      volume claim of the scope: those are dropped although they belong to it. */
  lemma ClaimsAreLost(scope: set<string>, items: seq<TopicObject>, o: TopicObject)
    requires "" !in scope && o in items
    ensures (o in Inside(items, scope) <==> o.namespace in scope) <==> !(o.topic == Claims && o.namespace in scope)
  {
    InsideExactly(items, scope, o);
  }

  /** The same asymmetry on changes: a claim's creation is dropped, its deletion passes. */
  lemma ClaimChanges(scope: set<string>, claim: TopicObject, e: StreamEvent, d: StreamEvent)
    requires "" !in scope && claim.topic == Claims && claim.namespace in scope
    requires e.kind == Added && e.subject == Some(claim)
    requires d.kind == Deleted && d.subject == None && d.deleted.Some? && d.deleted.value.namespace == claim.namespace
    ensures Scoped(Some(scope), e) == None && Scoped(Some(scope), d).Some?
  {
  }

  // ---- Snapshot chunks -------------------------------------------------------------------

  function Chunk(topic: Topic, version: string, items: seq<TopicObject>, n: nat, final: bool): StreamEvent {
    StreamEvent(Snapshot, topic, version, items, None, None, "", final, n)
  }

  /** The rest of the chunking loop: `chunk` is being filled as number `n`. */
  function ChunksFrom(size: StreamEvent -> nat, topic: Topic, version: string, items: seq<TopicObject>,
                      chunk: seq<TopicObject>, n: nat): Option<seq<StreamEvent>>
    decreases |items|
  {
    if items == [] then Some([Chunk(topic, version, chunk, n, true)])
    else
      var candidate := chunk + [items[0]];
      if size(Chunk(topic, version, candidate, n, false)) <= MAX_EVENT_BYTES - 512 then
        ChunksFrom(size, topic, version, items[1..], candidate, n)
      else if chunk == [] then None
      else if size(Chunk(topic, version, [items[0]], n + 1, true)) + ENVELOPE_BYTES > MAX_EVENT_BYTES then None
      else
        match ChunksFrom(size, topic, version, items[1..], [items[0]], n + 1)
        case None => None
        case Some(rest) => Some([Chunk(topic, version, chunk, n, false)] + rest)
  }

  /** `SnapshotEvents`. */
  function SnapshotEvents(env: Env, topic: Topic, version: string, items: seq<TopicObject>): Option<seq<StreamEvent>> {
    if |items| > MAX_SNAPSHOT_ITEMS || (exists i :: 0 <= i < |items| && items[i].topic != topic)
       || env.listLength(items) > MAX_SNAPSHOT_BYTES
    then None
    else ChunksFrom(env.encodedLength, topic, version, items, [], 0)
  }

  function ItemsOf(events: seq<StreamEvent>): seq<TopicObject> {
    if events == [] then [] else events[0].items + ItemsOf(events[1..])
  }

  /** The chunks hold the items, all of them, in order. */
  lemma {:induction false} ChunksHoldTheItems(size: StreamEvent -> nat, topic: Topic, version: string,
                                              items: seq<TopicObject>, chunk: seq<TopicObject>, n: nat)
    requires ChunksFrom(size, topic, version, items, chunk, n).Some?
    ensures ItemsOf(ChunksFrom(size, topic, version, items, chunk, n).value) == chunk + items
    decreases |items|
  {
    var chunks := ChunksFrom(size, topic, version, items, chunk, n).value;
    if items == [] {
      assert ItemsOf(chunks) == chunk + [];
    } else {
      var candidate := chunk + [items[0]];
      if size(Chunk(topic, version, candidate, n, false)) <= MAX_EVENT_BYTES - 512 {
        ChunksHoldTheItems(size, topic, version, items[1..], candidate, n);
        assert candidate + items[1..] == chunk + items;
      } else {
        ChunksHoldTheItems(size, topic, version, items[1..], [items[0]], n + 1);
        assert chunks[1..] == ChunksFrom(size, topic, version, items[1..], [items[0]], n + 1).value;
        assert [items[0]] + items[1..] == items;
      }
    }
  }

  /** The chunks are numbered in order and exactly the last one is final. */
  lemma {:induction false} ChunksAreNumbered(size: StreamEvent -> nat, topic: Topic, version: string,
                                             items: seq<TopicObject>, chunk: seq<TopicObject>, n: nat, i: nat)
    requires ChunksFrom(size, topic, version, items, chunk, n).Some?
    requires i < |ChunksFrom(size, topic, version, items, chunk, n).value|
    ensures var chunks := ChunksFrom(size, topic, version, items, chunk, n).value;
      chunks[i] == Chunk(topic, version, chunks[i].items, n + i, i == |chunks| - 1)
    decreases |items|
  {
    if items != [] {
      var candidate := chunk + [items[0]];
      if size(Chunk(topic, version, candidate, n, false)) <= MAX_EVENT_BYTES - 512 {
        ChunksAreNumbered(size, topic, version, items[1..], candidate, n, i);
      } else if i > 0 {
        ChunksAreNumbered(size, topic, version, items[1..], [items[0]], n + 1, i - 1);
      } else {
        ChunksAreSome(size, topic, version, items[1..], [items[0]], n + 1);
      }
    }
  }

  lemma {:induction false} ChunksAreSome(size: StreamEvent -> nat, topic: Topic, version: string,
                                         items: seq<TopicObject>, chunk: seq<TopicObject>, n: nat)
    requires ChunksFrom(size, topic, version, items, chunk, n).Some?
    ensures ChunksFrom(size, topic, version, items, chunk, n).value != []
    decreases |items|
  {
    if items != [] && size(Chunk(topic, version, chunk + [items[0]], n, false)) <= MAX_EVENT_BYTES - 512 {
      ChunksAreSome(size, topic, version, items[1..], chunk + [items[0]], n);
    }
  }

  // ---- Per topic state -------------------------------------------------------------------

  /** `resourceTopicSnapshot`. */
  datatype TopicState = TopicState(
    expected: nat, finalSources: set<string>, previewSent: int, items: seq<TopicObject>, itemBytes: nat,
    version: string, complete: bool, buffered: seq<StreamEvent>, bufferedBytes: nat)

  function NewTopic(expected: nat): TopicState {
    TopicState(expected, {}, 0, [], 0, "", false, [], 0)
  }

  /** Bytes after accounting for more items; none when one cannot be encoded or the budget breaks. */
  function ItemBytes(length: TopicObject -> Option<nat>, bytes: nat, items: seq<TopicObject>): Option<nat>
    decreases |items|
  {
    if items == [] then Some(bytes)
    else
      match length(items[0])
      case None => None
      case Some(n) =>
        if bytes + n + 1 > MAX_SNAPSHOT_BYTES then None else ItemBytes(length, bytes + n + 1, items[1..])
  }

  function AddItems(env: Env, t: TopicState, items: seq<TopicObject>): Option<TopicState> {
    if |t.items| + |items| > MAX_SNAPSHOT_ITEMS then None
    else
      match ItemBytes(env.itemLength, t.itemBytes, items)
      case None => None
      case Some(bytes) => Some(t.(items := t.items + items, itemBytes := bytes))
  }

  function Buffer(env: Env, t: TopicState, e: StreamEvent): Option<TopicState> {
    var bytes := env.encodedLength(e) + ENVELOPE_BYTES;
    if |t.buffered| >= MAX_QUEUE_EVENTS || t.bufferedBytes + bytes > MAX_QUEUE_BYTES then None
    else Some(t.(buffered := t.buffered + [e], bufferedBytes := t.bufferedBytes + bytes))
  }

  /** The per topic object with the two operations that fill it in place. */
  class TopicSnapshot {
    var items: seq<TopicObject>
    var itemBytes: nat
    var buffered: seq<StreamEvent>
    var bufferedBytes: nat

    constructor ()
      ensures items == [] && itemBytes == 0 && buffered == [] && bufferedBytes == 0
    {
      items, itemBytes, buffered, bufferedBytes := [], 0, [], 0;
    }

    method Add(env: Env, more: seq<TopicObject>) returns (added: bool)
      modifies `items, `itemBytes
      ensures added <==> AddItems(env, NewTopic(0).(items := old(items), itemBytes := old(itemBytes)), more).Some?
      ensures added ==> items == old(items) + more && Some(itemBytes) == ItemBytes(env.itemLength, old(itemBytes), more)
      ensures !added ==> items == old(items)
    {
      if |items| + |more| > MAX_SNAPSHOT_ITEMS {
        return false;
      }
      var i := 0;
      while i < |more|
        invariant 0 <= i <= |more|
        invariant ItemBytes(env.itemLength, old(itemBytes), more) == ItemBytes(env.itemLength, itemBytes, more[i..])
        invariant items == old(items)
      {
        assert more[i..][0] == more[i] && more[i..][1..] == more[i + 1..];
        var length := env.itemLength(more[i]);
        if length.None? || itemBytes + length.value + 1 > MAX_SNAPSHOT_BYTES {
          return false;
        }
        itemBytes := itemBytes + length.value + 1;
        i := i + 1;
      }
      items := items + more;
      return true;
    }

    method Keep(env: Env, event: StreamEvent) returns (kept: bool)
      modifies `buffered, `bufferedBytes
      ensures var after := Buffer(env, NewTopic(0).(buffered := old(buffered), bufferedBytes := old(bufferedBytes)),
        event);
        && (kept <==> after.Some?)
        && buffered == (if kept then after.value.buffered else old(buffered))
        && bufferedBytes == (if kept then after.value.bufferedBytes else old(bufferedBytes))
    {
      var wireBytes := env.encodedLength(event) + ENVELOPE_BYTES;
      if |buffered| >= MAX_QUEUE_EVENTS || bufferedBytes + wireBytes > MAX_QUEUE_BYTES {
        return false;
      }
      buffered := buffered + [event];
      bufferedBytes := bufferedBytes + wireBytes;
      return true;
    }
  }

  // ---- The loop --------------------------------------------------------------------------

  datatype LogEntry = LogEntry(topic: Topic, event: StreamEvent)

  /** The loop's state. `lives` is how many more calls the session accepts before another actor
      expires or ends it. */
  datatype Merge = Merge(states: map<Topic, TopicState>, log: seq<LogEntry>, lives: nat, running: bool)

  function Expected(sources: seq<Source>, topic: Topic): nat {
    if sources == [] then 0
    else Expected(sources[..|sources| - 1], topic) + if sources[|sources| - 1].topic == topic then 1 else 0
  }

  function Start(env: Env, lives: nat): Merge {
    Merge(map t | t in env.topics :: NewTopic(Expected(env.sources, t)), [], lives, true)
  }

  function Stopped(m: Merge): Merge {
    m.(running := false)
  }

  /** `publish` as the loop sees it. */
  function Publish(env: Env, m: Merge, topic: Topic, e: StreamEvent): Merge {
    if m.lives == 0 then Stopped(m)
    else if e.kind == Heartbeat then m.(lives := m.lives - 1)
    else if env.encodedLength(e) + ENVELOPE_BYTES > MAX_EVENT_BYTES then Stopped(m)
    else m.(log := m.log + [LogEntry(topic, e)], lives := m.lives - 1)
  }

  function PublishAll(env: Env, m: Merge, topic: Topic, events: seq<StreamEvent>): Merge
    decreases |events|
  {
    if events == [] || !m.running then m
    else PublishAll(env, Publish(env, m, topic, events[0]), topic, events[1..])
  }

  /** `publishTransient` as the loop sees it. */
  function Preview(m: Merge, wanted: bool): Merge {
    if !wanted then m else if m.lives == 0 then Stopped(m) else m.(lives := m.lives - 1)
  }

  function PreviewLength(t: TopicState, items: seq<TopicObject>): nat {
    var remaining := PREVIEW_ITEMS - t.previewSent;
    if |items| <= remaining then |items| else if remaining > 0 then remaining else 0
  }

  function OnProgress(m: Merge, topic: Topic, t: TopicState, e: StreamEvent): Merge {
    var n := PreviewLength(t, e.items);
    Preview(m.(states := m.states[topic := t.(previewSent := t.previewSent + n)]), n > 0)
  }

  /** The topic's state after one more snapshot part of a source that was not final yet. */
  function Advance(env: Env, t: TopicState, key: string, e: StreamEvent): Option<TopicState> {
    if key in t.finalSources then None
    else
      match AddItems(env, t, e.items)
      case None => None
      case Some(added) =>
        Some(added.(version := if t.expected == 1 then e.resourceVersion else t.version,
                    finalSources := if e.final then t.finalSources + {key} else t.finalSources,
                    previewSent := t.previewSent + PreviewLength(t, e.items)))
  }

  function OnSnapshot(env: Env, m: Merge, source: Source, t: TopicState, e: StreamEvent): Merge {
    match Advance(env, t, source.key, e)
    case None => Stopped(m)
    case Some(t') =>
      var m' := Preview(m.(states := m.states[source.topic := t']), PreviewLength(t, e.items) > 0 || e.final);
      if m'.running && |t'.finalSources| == t'.expected then Complete(env, m', source.topic, t') else m'
  }

  /** All sources are in: publish the snapshot, then what was buffered. */
  function Complete(env: Env, m: Merge, topic: Topic, t: TopicState): Merge {
    match SnapshotEvents(env, topic, t.version, t.items)
    case None => Stopped(m)
    case Some(chunks) =>
      PublishAll(env, m.(states := m.states[topic := t.(complete := true)]), topic, chunks + t.buffered)
  }

  function OnEvent(env: Env, m: Merge, source: Source, e: StreamEvent): Merge {
    if Terminal(e.kind) || source.topic !in m.states then Stopped(m)
    else
      var t := m.states[source.topic];
      if t.complete then Publish(env, m, source.topic, e)
      else if e.kind == Progress then OnProgress(m, source.topic, t, e)
      else if e.kind == Snapshot then OnSnapshot(env, m, source, t, e)
      else
        match Buffer(env, t, e)
        case None => Stopped(m)
        case Some(t') => m.(states := m.states[source.topic := t'])
  }

  function Handle(env: Env, m: Merge, item: Incoming): Merge {
    match item
    case Failed(_, _) => Stopped(m)
    case Revoked => Stopped(m)
    case Arrived(source, event) =>
      match Scoped(env.allowed, event)
      case None => m
      case Some(e) => OnEvent(env, m, source, e)
  }

  function Process(env: Env, lives: nat, incoming: seq<Incoming>): Merge {
    if incoming == [] then Start(env, lives)
    else
      var m := Process(env, lives, incoming[..|incoming| - 1]);
      if m.running then Handle(env, m, incoming[|incoming| - 1]) else m
  }

  /** `run`: the loop that takes one item after the other until it returns. */
  method RunLoop(env: Env, lives: nat, incoming: seq<Incoming>) returns (m: Merge)
    ensures m == Process(env, lives, incoming)
  {
    m := Start(env, lives);
    var i := 0;
    while i < |incoming|
      invariant 0 <= i <= |incoming|
      invariant m == Process(env, lives, incoming[..i])
    {
      assert incoming[..i + 1][..i] == incoming[..i];
      if m.running {
        m := Handle(env, m, incoming[i]);
      }
      i := i + 1;
    }
    assert incoming[..|incoming|] == incoming;
  }
}
