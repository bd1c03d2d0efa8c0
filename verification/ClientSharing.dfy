/** What callers of the client cache share: one live lease, one cached build, one build in flight. A
    lease or an entry goes only for a reason, and no clients are lost track of. */
module ClientSharing {
  import opened Options
  import opened ClientCache
  import opened ClientLeases

  // ---- What entering does ----------------------------------------------------------------

  /** A live active lease of the key and fingerprint is handed out as it is; nothing else changes. */
  lemma ActiveIsShared(s: State, key: string, fingerprint: string)
    requires !s.closed && !s.cancelled && s.active.Some? && s.active.value.generation !in s.revoked
    requires s.active.value.key == key && s.active.value.fingerprint == fingerprint
    ensures Enter(s, key, fingerprint) == s.(threads := s.threads + [Granted(s.active.value)])
  {
  }

  /** There is no live lease to hand out. */
  predicate Unserved(s: State, key: string, fingerprint: string) {
    !(&& s.active.Some? && s.active.value.key == key && s.active.value.fingerprint == fingerprint
      && s.active.value.generation !in s.revoked && !s.cancelled)
  }

  /** A cached build of the fingerprint is used at once, without another build. */
  lemma CachedIsGranted(s: State, key: string, fingerprint: string)
    requires !s.closed && Unserved(s, key, fingerprint)
    requires key in s.entries && s.entries[key].fingerprint == fingerprint
    ensures var s' := Enter(s, key, fingerprint);
      var lease := Lease(key, fingerprint, s.entries[key].build, s.generationSeq + 1);
      && s'.threads == s.threads + [Granted(lease)] && s'.active == Some(lease) && s'.issued == s.issued + [lease]
      && s'.builds == s.builds && s'.entries == s.entries && s'.inflight == s.inflight
  {
    var p := Prepare(s, key, fingerprint);
    assert p.entries == s.entries && p.threads == s.threads && p.issued == s.issued && p.builds == s.builds;
  }

  /** A build of the same target in flight is waited for; no second one is started. */
  lemma FlightIsJoined(s: State, key: string, fingerprint: string)
    requires !s.closed && Unserved(s, key, fingerprint)
    requires !(key in s.entries && s.entries[key].fingerprint == fingerprint)
    requires Target(key, fingerprint, Epoch(s, key)) in s.inflight
    ensures var s', t := Enter(s, key, fingerprint), Target(key, fingerprint, Epoch(s, key));
      && s'.threads == s.threads + [Waiting(key, fingerprint, s'.activationSeq, s.inflight[t])]
      && s'.builds == s.builds && s'.issued == s.issued && s'.inflight == s.inflight
  {
    var p := Prepare(s, key, fingerprint);
    assert key !in p.entries && p.inflight == s.inflight && p.threads == s.threads && p.builds == s.builds;
  }

  /** Otherwise, and only then, a build is started. */
  lemma BuildIsStarted(s: State, key: string, fingerprint: string)
    requires !s.closed && Unserved(s, key, fingerprint)
    requires !(key in s.entries && s.entries[key].fingerprint == fingerprint)
    requires Target(key, fingerprint, Epoch(s, key)) !in s.inflight
    ensures var s', t := Enter(s, key, fingerprint), Target(key, fingerprint, Epoch(s, key));
      && s'.builds == s.builds + [Build(t, s'.activationSeq, |s.threads|, Running, false)]
      && s'.threads == s.threads + [Building(key, fingerprint, s'.activationSeq, |s.builds|)]
      && s'.issued == s.issued && s'.inflight == s.inflight[t := |s.builds|]
  {
    var p := Prepare(s, key, fingerprint);
    assert key !in p.entries && p.inflight == s.inflight && p.threads == s.threads && p.builds == s.builds;
    assert p.epochs == s.epochs && p.issued == s.issued;
  }

  /** A closed cache refuses. */
  lemma ClosedRefuses(s: State, key: string, fingerprint: string)
    requires s.closed
    ensures Enter(s, key, fingerprint) == s.(threads := s.threads + [Refused(Unavailable)])
  {
  }

  // ---- What the end of a build and a waiter's waking do ----------------------------------

  /** A good build that was not superseded is cached; nothing else is, and every other outcome is
      reported for what it is. */
  lemma BuildIsCached(s: State, i: nat, built: bool)
    requires Ok(s) && Enabled(s, DoFinish(i, built))
    ensures var s', thread := Finish(s, i, built), s.threads[i];
      var current := thread.activation == s.activationSeq;
      && |s'.threads| == |s.threads|
      && s'.entries == (if built && !s.closed && current
                        then s.entries[thread.key := Entry(thread.fingerprint, thread.call)]
                        else s.entries)
      && (s.closed ==> s'.threads[i] == Refused(Unavailable))
      && (!s.closed && !current ==> s'.threads[i] == Refused(GenerationChanged))
      && (!s.closed && current && !built ==> s'.threads[i] == Refused(BuilderError))
      && (!s.closed && current && built ==> s'.threads[i].Granted?)
  {
    SupersededExactly(s, i);
    var thread, p := s.threads[i], Settle(s, i, built);
    assert |p.threads| == |s.threads|;
    GrantAnswers(p, i, thread.key, thread.fingerprint, thread.call);
    GrantKeepsEntries(p, i, thread.key, thread.fingerprint, thread.call);
  }

  lemma GrantKeepsEntries(s: State, i: nat, key: string, fingerprint: string, build: nat)
    requires i < |s.threads|
    ensures var s' := Grant(s, i, key, fingerprint, build);
      s'.entries == s.entries && s'.drained == s.drained && s'.builds == s.builds
  {
    if !Serves(s, key, fingerprint) {
      var after := Issue(s, key, fingerprint, build);
      assert after.entries == s.entries && after.drained == s.drained && after.builds == s.builds;
    }
  }

  /** Why a waiter is refused. */
  lemma WaiterIsTold(s: State, i: nat)
    requires Ok(s) && Enabled(s, DoWake(i))
    ensures var answer, thread := Wake(s, i).threads, s.threads[i];
      && |answer| == |s.threads|
      && (thread.activation != s.activationSeq ==> answer[i] == Refused(GenerationChanged))
      && (thread.activation == s.activationSeq && s.builds[thread.call].progress == BuildFailed ==>
            answer[i] == Refused(BuilderError))
      && (thread.activation == s.activationSeq && s.builds[thread.call].progress == Built ==>
            if s.closed then answer[i] == Refused(Unavailable) else answer[i].Granted?)
  {
    GrantAnswers(s, i, s.threads[i].key, s.threads[i].fingerprint, s.threads[i].call);
  }

  // ---- A lease goes only for a reason ----------------------------------------------------

  /** The step asks for something else, invalidates the lease's key, or closes the cache. */
  predicate Ends(a: Action, lease: Lease) {
    match a
    case DoEnter(key, fingerprint) => key != lease.key || fingerprint != lease.fingerprint
    case DoInvalidate(key) => key == lease.key
    case DoClose => true
    case DoCancel => true
    case _ => false
  }

  lemma GrantSpares(s: State, i: nat, key: string, fingerprint: string, build: nat)
    requires i < |s.threads| && s.active.Some? && Serves(s, key, fingerprint)
    ensures Grant(s, i, key, fingerprint, build).active == s.active
    ensures Grant(s, i, key, fingerprint, build).revoked == s.revoked
    ensures Grant(s, i, key, fingerprint, build).cancelled == s.cancelled
  {
  }

  lemma WakeSpares(s: State, i: nat)
    requires Ok(s) && Enabled(s, DoWake(i)) && s.active.Some? && !s.cancelled
    ensures var s' := Wake(s, i); s'.active == s.active && s'.revoked == s.revoked && s'.cancelled == s.cancelled
  {
    var thread := s.threads[i];
    if thread.activation == s.activationSeq && s.builds[thread.call].progress == Built && !s.closed {
      AwaitedIsCurrent(s, i);
      GrantSpares(s, i, thread.key, thread.fingerprint, thread.call);
    }
  }

  lemma FinishSpares(s: State, i: nat, built: bool)
    requires Ok(s) && Enabled(s, DoFinish(i, built)) && s.active.Some? && !s.cancelled
    ensures var s' := Finish(s, i, built);
      s'.active == s.active && s'.revoked == s.revoked && s'.cancelled == s.cancelled
  {
    SupersededExactly(s, i);
    var thread, p := s.threads[i], Settle(s, i, built);
    assert p.active == s.active && p.revoked == s.revoked && p.cancelled == s.cancelled;
    if !s.closed && !Superseded(s, thread) && built {
      assert Aligned(s.entries, s.target, s.active);
      GrantSpares(p, i, thread.key, thread.fingerprint, thread.call);
    }
  }

  /** A live lease stays the active one and uncancelled through every other step. */
  lemma LeaseIsSpared(s: State, a: Action)
    requires Ok(s) && Enabled(s, a) && s.active.Some? && !s.cancelled && !Ends(a, s.active.value)
    ensures var s' := Apply(s, a); s'.active == s.active && s'.revoked == s.revoked && !s'.cancelled
  {
    match a
    case DoEnter(key, fingerprint) => ActiveIsShared(s, key, fingerprint);
    case DoFinish(i, built) => FinishSpares(s, i, built);
    case DoWake(i) => WakeSpares(s, i);
    case DoInvalidate(key) => assert Withdraw(Untarget(s), key).active == s.active;
    case _ =>
  }

  /** Over runs: nobody loses a live lease unless someone asks for another key or fingerprint,
      invalidates its key, or closes or cancels the cache. */
  lemma {:induction false} LeaseLastsUntilEnded(actions: seq<Action>, more: seq<Action>, lease: Lease)
    requires Run(actions).active == Some(lease) && !Run(actions).cancelled
    requires forall i :: 0 <= i < |more| ==> !Ends(more[i], lease)
    ensures var s := Run(actions + more);
      s.active == Some(lease) && lease.generation !in s.revoked && !s.cancelled
  {
    if more == [] {
      assert actions + more == actions;
      RunOk(actions);
    } else {
      var n := |more| - 1;
      LeaseLastsUntilEnded(actions, more[..n], lease);
      assert (actions + more)[..|actions + more| - 1] == actions + more[..n];
      var s := Run(actions + more[..n]);
      RunOk(actions + more[..n]);
      if Enabled(s, more[n]) {
        LeaseIsSpared(s, more[n]);
      }
    }
  }

  // ---- An entry goes only for a reason ---------------------------------------------------

  /** The step asks for another fingerprint of the key, invalidates it, or closes the cache. */
  predicate Drops(a: Action, key: string, entry: Entry) {
    match a
    case DoEnter(other, fingerprint) => other == key && fingerprint != entry.fingerprint
    case DoInvalidate(other) => other == key
    case DoClose => true
    case _ => false
  }

  lemma EnterKeepsEntry(s: State, key: string, fingerprint: string, other: string)
    requires other in s.entries && !Drops(DoEnter(key, fingerprint), other, s.entries[other])
    ensures var s' := Enter(s, key, fingerprint); other in s'.entries && s'.entries[other] == s.entries[other]
  {
    var p, t := Prepare(s, key, fingerprint), Target(key, fingerprint, Epoch(s, key));
    assert other in p.entries && p.entries[other] == s.entries[other];
    if s.closed {
    } else if Serves(s, key, fingerprint) {
    } else if key in p.entries {
      assert Issue(p, key, fingerprint, p.entries[key].build).entries == p.entries;
    } else if t in p.inflight {
    } else {
    }
  }

  lemma FinishKeepsEntry(s: State, i: nat, built: bool, key: string)
    requires Ok(s) && Enabled(s, DoFinish(i, built)) && key in s.entries
    ensures var s' := Finish(s, i, built); key in s'.entries && s'.entries[key] == s.entries[key]
  {
    BuildIsCached(s, i, built);
    var thread := s.threads[i];
    if thread.activation == s.activationSeq && thread.key == key {
      assert Stored(key, s.entries[key], s.builds, s.epochs, s.drained, s.inflight);
      assert Caller(thread, i, s.builds, s.activationSeq, s.target, s.entries, s.drained, s.closed, s.issued);
      assert Aligned(s.entries, s.target, s.active) && Aimed(s.target, s.epochs);
      assert s.builds[thread.call].target in s.inflight;
    }
  }

  /** A cached build stays cached through every other step, so that the next caller needs no build. */
  lemma EntryIsSpared(s: State, a: Action, key: string)
    requires Ok(s) && Enabled(s, a) && key in s.entries && !Drops(a, key, s.entries[key])
    ensures key in Apply(s, a).entries && Apply(s, a).entries[key] == s.entries[key]
  {
    match a
    case DoEnter(other, fingerprint) => EnterKeepsEntry(s, other, fingerprint, key);
    case DoFinish(i, built) => FinishKeepsEntry(s, i, built, key);
    case DoWake(i) => GrantKeepsEntries(s, i, s.threads[i].key, s.threads[i].fingerprint, s.threads[i].call);
    case DoInvalidate(other) => assert Withdraw(Untarget(s), other).entries == s.entries - {other};
    case _ =>
  }

  // ---- Nothing is lost track of ----------------------------------------------------------

  ghost predicate Holds(entries: map<string, Entry>, build: nat) {
    exists key :: key in entries && entries[key].build == build
  }

  /** Every good build is cached or has had its idle connections closed. */
  ghost predicate Tracked(builds: seq<Build>, entries: map<string, Entry>, drained: set<nat>) {
    forall c :: 0 <= c < |builds| && builds[c].progress == Built ==> c in drained || Holds(entries, c)
  }

  /** Every running build has a caller that runs it. */
  ghost predicate Owned(builds: seq<Build>, threads: seq<Thread>) {
    forall c :: 0 <= c < |builds| && builds[c].progress == Running ==>
      builds[c].owner < |threads| && threads[builds[c].owner].Building? && threads[builds[c].owner].call == c
  }

  lemma EvictTracks(builds: seq<Build>, entries: map<string, Entry>, drained: set<nat>, key: string)
    requires Tracked(builds, entries, drained) && key in entries
    ensures Tracked(builds, entries - {key}, drained + {entries[key].build})
  {
    forall c | 0 <= c < |builds| && builds[c].progress == Built && c !in drained + {entries[key].build}
      ensures Holds(entries - {key}, c)
    {
      var k :| k in entries && entries[k].build == c;
      assert k in entries - {key};
    }
  }

  lemma CloseTracks(builds: seq<Build>, entries: map<string, Entry>, drained: set<nat>)
    requires Tracked(builds, entries, drained)
    ensures Tracked(builds, map[], drained + Cached(entries))
  {
  }

  lemma PrepareTracks(s: State, key: string, fingerprint: string)
    requires Tracked(s.builds, s.entries, s.drained)
    ensures var p := Prepare(s, key, fingerprint);
      Tracked(p.builds, p.entries, p.drained) && p.builds == s.builds && p.threads == s.threads
  {
    if key in s.entries {
      EvictTracks(s.builds, s.entries, s.drained, key);
    }
  }

  lemma EnterTracks(s: State, key: string, fingerprint: string)
    requires Tracked(s.builds, s.entries, s.drained) && Owned(s.builds, s.threads)
    ensures var s' := Enter(s, key, fingerprint);
      Tracked(s'.builds, s'.entries, s'.drained) && Owned(s'.builds, s'.threads)
  {
    var p, t := Prepare(s, key, fingerprint), Target(key, fingerprint, Epoch(s, key));
    PrepareTracks(s, key, fingerprint);
    if s.closed {
    } else if Serves(s, key, fingerprint) {
    } else if key in p.entries {
      var after := Issue(p, key, fingerprint, p.entries[key].build);
      assert after.builds == p.builds && after.entries == p.entries && after.drained == p.drained;
    } else if t in p.inflight {
    } else {
      assert StartBuild(p, key, fingerprint).entries == p.entries;
    }
  }

  lemma SettleTracks(s: State, i: nat, built: bool)
    requires Ok(s) && Enabled(s, DoFinish(i, built))
    requires Tracked(s.builds, s.entries, s.drained) && Owned(s.builds, s.threads)
    ensures var p := Settle(s, i, built); Tracked(p.builds, p.entries, p.drained) && Owned(p.builds, p.threads)
  {
    SupersededExactly(s, i);
    var p, thread := Settle(s, i, built), s.threads[i];
    forall c | 0 <= c < |p.builds| && p.builds[c].progress == Built && c !in p.drained ensures Holds(p.entries, c) {
      if c == thread.call {
        assert thread.key in p.entries && p.entries[thread.key].build == c;
      } else {
        var key :| key in s.entries && s.entries[key].build == c;
        FinishKeepsEntry(s, i, built, key);
        BuildIsCached(s, i, built);
        assert key in p.entries && p.entries[key].build == c;
      }
    }
  }

  lemma GrantTracks(s: State, i: nat, key: string, fingerprint: string, build: nat)
    requires i < |s.threads| && !s.threads[i].Building?
    requires Tracked(s.builds, s.entries, s.drained) && Owned(s.builds, s.threads)
    ensures var s' := Grant(s, i, key, fingerprint, build);
      Tracked(s'.builds, s'.entries, s'.drained) && Owned(s'.builds, s'.threads)
  {
    GrantKeepsEntries(s, i, key, fingerprint, build);
    if !Serves(s, key, fingerprint) {
      assert Issue(s, key, fingerprint, build).threads == s.threads;
    }
  }

  ghost predicate Traced(s: State) {
    Tracked(s.builds, s.entries, s.drained) && Owned(s.builds, s.threads)
  }

  lemma FinishTraces(s: State, i: nat, built: bool)
    requires Ok(s) && Enabled(s, DoFinish(i, built)) && Traced(s)
    ensures Traced(Finish(s, i, built))
  {
    SettleTracks(s, i, built);
    GrantTracks(Settle(s, i, built), i, s.threads[i].key, s.threads[i].fingerprint, s.threads[i].call);
  }

  lemma SetThreadTraces(s: State, i: nat, thread: Thread)
    requires Traced(s) && i < |s.threads| && !s.threads[i].Building?
    ensures Traced(SetThread(s, i, thread))
  {
  }

  lemma WakeTraces(s: State, i: nat)
    requires Enabled(s, DoWake(i)) && Traced(s)
    ensures Traced(Wake(s, i))
  {
    var thread := s.threads[i];
    if thread.activation != s.activationSeq {
      SetThreadTraces(s, i, Refused(GenerationChanged));
    } else if s.builds[thread.call].progress == BuildFailed {
      SetThreadTraces(s, i, Refused(BuilderError));
    } else if s.closed {
      SetThreadTraces(s, i, Refused(Unavailable));
    } else {
      GrantTracks(s, i, thread.key, thread.fingerprint, thread.call);
    }
  }

  lemma InvalidateTraces(s: State, key: string)
    requires Traced(s)
    ensures Traced(Invalidate(s, key))
  {
    if key in s.entries {
      EvictTracks(s.builds, s.entries, s.drained, key);
    } else {
      assert s.entries - {key} == s.entries;
    }
    WithdrawTracks(Untarget(s), key);
  }

  lemma CloseTraces(s: State)
    requires Traced(s)
    ensures Traced(Close(s))
  {
    CloseTracks(s.builds, s.entries, s.drained);
  }

  lemma WithdrawTracks(s: State, key: string)
    ensures var w := Withdraw(s, key);
      && w.builds == s.builds && w.threads == s.threads && w.entries == s.entries - {key}
      && w.drained == if key in s.entries then s.drained + {s.entries[key].build} else s.drained
  {
  }

  lemma ApplyTraces(s: State, a: Action)
    requires Ok(s) && Enabled(s, a) && Traced(s)
    ensures Traced(Apply(s, a))
  {
    match a
    case DoEnter(key, fingerprint) => EnterTracks(s, key, fingerprint);
    case DoFinish(i, built) => FinishTraces(s, i, built);
    case DoWake(i) => WakeTraces(s, i);
    case DoGiveUp(i, failure) => SetThreadTraces(s, i, Refused(failure));
    case DoInvalidate(key) => InvalidateTraces(s, key);
    case DoClose => CloseTraces(s);
    case DoCancel =>
  }

  lemma {:induction false} RunTraces(actions: seq<Action>)
    ensures Traced(Run(actions))
  {
    if actions != [] {
      var n := |actions| - 1;
      RunTraces(actions[..n]);
      RunOk(actions[..n]);
      if Enabled(Run(actions[..n]), actions[n]) {
        ApplyTraces(Run(actions[..n]), actions[n]);
      }
    }
  }

  /** In every run: a good build that is not cached, and every one once the cache is closed, has had
      its idle connections closed. */
  lemma NoClientsLeak(actions: seq<Action>, build: nat)
    requires build < |Run(actions).builds| && Run(actions).builds[build].progress == Built
    ensures var s := Run(actions); build in s.drained || Holds(s.entries, build)
    ensures Run(actions).closed ==> build in Run(actions).drained
  {
    RunTraces(actions);
    RunOk(actions);
  }

  /** Nobody waits in vain: whoever waits can give up; when the build has ended it can wake up; and
      as long as it has not, some caller is running it and can end it. */
  lemma WaitersAreNotStuck(actions: seq<Action>, i: nat)
    requires i < |Run(actions).threads| && Run(actions).threads[i].Waiting?
    ensures var s := Run(actions);
      && Enabled(s, DoGiveUp(i, CallerGone)) && (s.cancelled ==> Enabled(s, DoGiveUp(i, Unavailable)))
      && s.threads[i].call < |s.builds|
      && if s.builds[s.threads[i].call].progress == Running
         then Enabled(s, DoFinish(s.builds[s.threads[i].call].owner, true)) else Enabled(s, DoWake(i))
  {
    RunTraces(actions);
    RunOk(actions);
    var s := Run(actions);
    assert Caller(s.threads[i], i, s.builds, s.activationSeq, s.target, s.entries, s.drained, s.closed, s.issued);
  }
}
