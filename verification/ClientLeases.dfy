/** What the client cache promises its callers, over every interleaving of its steps. */
module ClientLeases {
  import opened Options
  import opened ClientCache
  import Text

  // ---- Build keys ------------------------------------------------------------------------

  /** The build key is a string; its parts are hexadecimal digests and a decimal numeral. */
  function BuildKey(t: Target, decimal: nat -> string): string {
    Text.Join([t.key, t.fingerprint, decimal(t.epoch)], ':')
  }

  ghost predicate Clean(t: Target, decimal: nat -> string) {
    ':' !in t.key && ':' !in t.fingerprint && ':' !in decimal(t.epoch)
  }

  /** The strings keep targets apart, so the maps they index may be read as maps of targets. */
  lemma BuildKeysAreDistinct(t: Target, u: Target, decimal: nat -> string)
    requires Clean(t, decimal) && Clean(u, decimal) && (decimal(t.epoch) == decimal(u.epoch) ==> t.epoch == u.epoch)
    ensures BuildKey(t, decimal) == BuildKey(u, decimal) <==> t == u
  {
    var a, b := [t.key, t.fingerprint, decimal(t.epoch)], [u.key, u.fingerprint, decimal(u.epoch)];
    assert forall i :: 0 <= i < 3 ==> Text.Free(a[i], ':') && Text.Free(b[i], ':');
    Text.SplitJoin(a, ':');
    Text.SplitJoin(b, ':');
    if BuildKey(t, decimal) == BuildKey(u, decimal) {
      assert a == b;
      assert a[0] == b[0] && a[1] == b[1] && a[2] == b[2];
    }
  }

  // ---- One live generation ---------------------------------------------------------------

  /** At every moment all leases ever issued but the active one have a cancelled generation, and
      the generations are numbered in the order of issue. */
  lemma OneLiveLease(actions: seq<Action>, i: nat)
    requires i < |Run(actions).issued|
    ensures var s := Run(actions);
      && s.issued[i].generation == i + 1
      && (s.issued[i].generation in s.revoked <==> s.active != Some(s.issued[i]))
  {
    RunOk(actions);
  }

  ghost predicate Grows(s: State, s': State) {
    && s.issued <= s'.issued && s.revoked <= s'.revoked && |s.threads| <= |s'.threads| && (s.closed ==> s'.closed)
    && |s.builds| <= |s'.builds| && (forall c :: 0 <= c < |s.builds| ==> s.builds[c].target == s'.builds[c].target)
  }

  lemma PrepareGrows(s: State, key: string, fingerprint: string)
    ensures Grows(s, Prepare(s, key, fingerprint))
  {
  }

  lemma EnterGrows(s: State, key: string, fingerprint: string)
    ensures Grows(s, Enter(s, key, fingerprint))
  {
    var p, t := Prepare(s, key, fingerprint), Target(key, fingerprint, Epoch(s, key));
    PrepareGrows(s, key, fingerprint);
    if s.closed {
    } else if Serves(s, key, fingerprint) {
    } else if key in p.entries {
      assert Grows(p, Issue(p, key, fingerprint, p.entries[key].build));
    } else if t in p.inflight {
    } else {
      assert Grows(p, StartBuild(p, key, fingerprint));
    }
  }

  lemma GrantGrows(s: State, i: nat, key: string, fingerprint: string, build: nat)
    requires i < |s.threads|
    ensures Grows(s, Grant(s, i, key, fingerprint, build))
  {
    if !Serves(s, key, fingerprint) {
      assert Grows(s, Issue(s, key, fingerprint, build));
    }
  }

  lemma FinishGrows(s: State, i: nat, built: bool)
    requires Enabled(s, DoFinish(i, built))
    ensures Grows(s, Finish(s, i, built))
  {
    assert Grows(s, Settle(s, i, built));
    GrantGrows(Settle(s, i, built), i, s.threads[i].key, s.threads[i].fingerprint, s.threads[i].call);
  }

  lemma WakeGrows(s: State, i: nat)
    requires Enabled(s, DoWake(i))
    ensures Grows(s, Wake(s, i))
  {
    var thread := s.threads[i];
    if thread.activation != s.activationSeq {
    } else if s.builds[thread.call].progress == BuildFailed || s.closed {
    } else {
      GrantGrows(s, i, thread.key, thread.fingerprint, thread.call);
    }
  }

  lemma CloseGrows(s: State)
    ensures Grows(s, Close(s))
  {
  }

  lemma InvalidateGrows(s: State, key: string)
    ensures Grows(s, Invalidate(s, key))
  {
    assert Grows(Untarget(s), Withdraw(Untarget(s), key));
  }

  /** Leases are never taken back, cancellations never undone, builds never renamed. */
  lemma HistoryGrows(s: State, a: Action)
    requires Enabled(s, a)
    ensures Grows(s, Apply(s, a))
  {
    match a
    case DoEnter(key, fingerprint) => EnterGrows(s, key, fingerprint);
    case DoFinish(i, built) => FinishGrows(s, i, built);
    case DoWake(i) => WakeGrows(s, i);
    case DoInvalidate(key) => InvalidateGrows(s, key);
    case DoClose => CloseGrows(s);
    case _ =>
  }

  // ---- One build per target --------------------------------------------------------------

  /** No two builds of the same target run at the same time, and no two callers run one build. */
  lemma OneBuildPerTarget(actions: seq<Action>, c: nat, d: nat)
    requires var builds := Run(actions).builds;
      c < |builds| && d < |builds| && builds[c].progress == Running && builds[d].progress == Running
      && builds[c].target == builds[d].target
    ensures c == d
  {
    RunOk(actions);
    var s := Run(actions);
    assert s.inflight[s.builds[c].target] == c && s.inflight[s.builds[d].target] == d;
  }

  lemma OneBuilderPerBuild(actions: seq<Action>, i: nat, j: nat)
    requires var threads := Run(actions).threads;
      i < |threads| && j < |threads| && threads[i].Building? && threads[j].Building?
        && threads[i].call == threads[j].call
    ensures i == j
  {
    RunOk(actions);
    var s := Run(actions);
    assert s.builds[s.threads[i].call].owner == i && s.builds[s.threads[j].call].owner == j;
  }

  // ---- Closing ---------------------------------------------------------------------------

  /** Once closed, always closed: nothing cached, nothing active, and no lease is issued again. */
  lemma ClosedForGood(s: State, a: Action)
    requires Ok(s) && s.closed && Enabled(s, a)
    ensures var s' := Apply(s, a); s'.closed && s'.active.None? && s'.entries == map[] && s'.issued == s.issued
  {
    ApplyOk(s, a);
  }

  lemma {:induction false} NoLeaseAfterClose(actions: seq<Action>, more: seq<Action>)
    requires Run(actions).closed
    ensures var s := Run(actions + more);
      s.closed && s.active.None? && s.entries == map[] && s.issued == Run(actions).issued
  {
    if more == [] {
      assert actions + more == actions;
      RunOk(actions);
    } else {
      var n := |more| - 1;
      NoLeaseAfterClose(actions, more[..n]);
      assert (actions + more)[..|actions + more| - 1] == actions + more[..n];
      var s := Run(actions + more[..n]);
      RunOk(actions + more[..n]);
      if Enabled(s, more[n]) {
        ClosedForGood(s, more[n]);
      }
    }
  }

  // ---- What a caller is granted ----------------------------------------------------------

  /** The key and fingerprint a step answers for, and the caller it answers. */
  function AskedKey(s: State, a: Action): string
    requires Enabled(s, a) && (a.DoEnter? || a.DoFinish? || a.DoWake?)
  {
    if a.DoEnter? then a.key else s.threads[a.thread].key
  }

  function AskedFingerprint(s: State, a: Action): string
    requires Enabled(s, a) && (a.DoEnter? || a.DoFinish? || a.DoWake?)
  {
    if a.DoEnter? then a.fingerprint else s.threads[a.thread].fingerprint
  }

  function Answered(s: State, a: Action): nat
    requires Enabled(s, a) && (a.DoEnter? || a.DoFinish? || a.DoWake?)
  {
    if a.DoEnter? then |s.threads| else a.thread
  }

  lemma EnterAnswers(s: State, key: string, fingerprint: string)
    ensures var s' := Enter(s, key, fingerprint);
      && |s'.threads| == |s.threads| + 1
      && (s'.threads[|s.threads|].Granted? ==>
            s'.active == Some(s'.threads[|s.threads|].lease) && Matches(s'.active, key, fingerprint))
  {
    var p, t := Prepare(s, key, fingerprint), Target(key, fingerprint, Epoch(s, key));
    assert |p.threads| == |s.threads|;
    if s.closed {
    } else if Serves(s, key, fingerprint) {
    } else if key in p.entries {
    } else if t in p.inflight {
    } else {
    }
  }

  lemma GrantAnswers(s: State, i: nat, key: string, fingerprint: string, build: nat)
    requires i < |s.threads|
    ensures var s' := Grant(s, i, key, fingerprint, build);
      |s'.threads| == |s.threads| && s'.threads[i].Granted? && s'.active == Some(s'.threads[i].lease)
      && Matches(s'.active, key, fingerprint)
  {
    if !Serves(s, key, fingerprint) {
      assert |Issue(s, key, fingerprint, build).threads| == |s.threads|;
    }
  }

  lemma FinishAnswers(s: State, i: nat, built: bool)
    requires Enabled(s, DoFinish(i, built))
    ensures var s' := Finish(s, i, built);
      && |s'.threads| == |s.threads|
      && (s'.threads[i].Granted? ==>
            s'.active == Some(s'.threads[i].lease) && Matches(s'.active, s.threads[i].key, s.threads[i].fingerprint))
  {
    GrantAnswers(Settle(s, i, built), i, s.threads[i].key, s.threads[i].fingerprint, s.threads[i].call);
  }

  lemma Answers(s: State, a: Action)
    requires Enabled(s, a) && (a.DoEnter? || a.DoFinish? || a.DoWake?)
    ensures Answered(s, a) < |Apply(s, a).threads|
    ensures var s', answer := Apply(s, a), Apply(s, a).threads[Answered(s, a)];
      answer.Granted? ==> s'.active == Some(answer.lease) && Matches(s'.active, AskedKey(s, a), AskedFingerprint(s, a))
  {
    match a
    case DoEnter(key, fingerprint) => EnterAnswers(s, key, fingerprint);
    case DoFinish(i, built) => FinishAnswers(s, i, built);
    case DoWake(i) => GrantAnswers(s, i, s.threads[i].key, s.threads[i].fingerprint, s.threads[i].call);
  }

  /** On every path a granted lease is the active one, is for what the caller asked, and carries
      clients of a good build of that key, fingerprint and current epoch; it is live unless the
      cache's own context has ended. */
  lemma GrantedIsCurrent(s: State, a: Action)
    requires Ok(s) && Enabled(s, a) && (a.DoEnter? || a.DoFinish? || a.DoWake?)
    ensures Answered(s, a) < |Apply(s, a).threads|
    ensures var s', answer := Apply(s, a), Apply(s, a).threads[Answered(s, a)];
      answer.Granted? ==>
        && s'.active == Some(answer.lease)
        && answer.lease.key == AskedKey(s, a) && answer.lease.fingerprint == AskedFingerprint(s, a)
        && Current(s'.builds, s'.epochs, answer.lease.key, answer.lease.fingerprint, answer.lease.build)
        && (Live(s', answer.lease) <==> !s'.cancelled)
  {
    Answers(s, a);
    ApplyOk(s, a);
    if Apply(s, a).threads[Answered(s, a)].Granted? {
      ActiveIsCurrent(Apply(s, a));
    }
  }

  lemma ActiveIsCurrent(s: State)
    requires Ok(s) && s.active.Some?
    ensures Current(s.builds, s.epochs, s.active.value.key, s.active.value.fingerprint, s.active.value.build)
    ensures Live(s, s.active.value) <==> !s.cancelled
  {
  }

  /** Either no lease was issued, or one was, and it is the active one, made for the target. */
  ghost predicate Aim(s: State, s': State) {
    s'.issued == s.issued ||
    (&& s'.active.Some? && s'.issued == s.issued + [s'.active.value] && s'.active.value.build < |s'.builds|
     && s'.target == Some(s'.builds[s'.active.value.build].target))
  }

  lemma GrantAims(s: State, i: nat, key: string, fingerprint: string, build: nat)
    requires i < |s.threads| && build < |s.builds| && s.target == Some(s.builds[build].target)
    ensures Aim(s, Grant(s, i, key, fingerprint, build))
  {
    if !Serves(s, key, fingerprint) {
      assert Aim(s, Issue(s, key, fingerprint, build));
    }
  }

  lemma EnterAims(s: State, key: string, fingerprint: string)
    requires Ok(s)
    ensures Aim(s, Enter(s, key, fingerprint))
  {
    var p, t := Prepare(s, key, fingerprint), Target(key, fingerprint, Epoch(s, key));
    PrepareOk(s, key, fingerprint);
    PrepareFrame(s, key, fingerprint);
    assert p.issued == s.issued;
    if s.closed {
    } else if Serves(s, key, fingerprint) {
    } else if key in p.entries {
      assert Stored(key, p.entries[key], p.builds, p.epochs, p.drained, p.inflight);
      assert Aim(p, Issue(p, key, fingerprint, p.entries[key].build));
    } else if t in p.inflight {
    } else {
    }
  }

  lemma FinishAims(s: State, i: nat, built: bool)
    requires Ok(s) && Enabled(s, DoFinish(i, built))
    ensures Aim(s, Finish(s, i, built))
  {
    SupersededExactly(s, i);
    var p := Settle(s, i, built);
    if !s.closed && !Superseded(s, s.threads[i]) && built {
      GrantAims(p, i, s.threads[i].key, s.threads[i].fingerprint, s.threads[i].call);
    }
  }

  lemma WakeAims(s: State, i: nat)
    requires Ok(s) && Enabled(s, DoWake(i))
    ensures Aim(s, Wake(s, i))
  {
    var thread := s.threads[i];
    if thread.activation == s.activationSeq && !s.closed && s.builds[thread.call].progress == Built {
      AwaitedIsCurrent(s, i);
      GrantAims(s, i, thread.key, thread.fingerprint, thread.call);
    }
  }

  /** A new lease is only ever issued for the target requested last. */
  lemma IssuedForTheTarget(s: State, a: Action)
    requires Ok(s) && Enabled(s, a)
    ensures Aim(s, Apply(s, a))
  {
    match a
    case DoEnter(key, fingerprint) => EnterAims(s, key, fingerprint);
    case DoFinish(i, built) => FinishAims(s, i, built);
    case DoWake(i) => WakeAims(s, i);
    case DoInvalidate(key) => assert Invalidate(s, key).issued == s.issued;
    case _ =>
  }

  // ---- Superseded builds -----------------------------------------------------------------

  /** A builder gets a lease exactly when its build is good, the cache is open and no other target
      has been requested since. */
  lemma BuilderIsServed(s: State, i: nat, built: bool)
    requires Ok(s) && Enabled(s, DoFinish(i, built))
    ensures |Finish(s, i, built).threads| == |s.threads|
    ensures Finish(s, i, built).threads[i].Granted? <==>
            built && !s.closed && s.threads[i].activation == s.activationSeq
  {
    SupersededExactly(s, i);
    FinishAnswers(s, i, built);
    GrantAnswers(Settle(s, i, built), i, s.threads[i].key, s.threads[i].fingerprint, s.threads[i].call);
  }

  /** So does a waiter: but its own number decides, not the one of the caller whose build it
      shares. */
  lemma WaiterIsServed(s: State, i: nat)
    requires Ok(s) && Enabled(s, DoWake(i))
    ensures |Wake(s, i).threads| == |s.threads|
    ensures Wake(s, i).threads[i].Granted? <==>
            s.builds[s.threads[i].call].progress == Built && !s.closed && s.threads[i].activation == s.activationSeq
  {
    GrantAnswers(s, i, s.threads[i].key, s.threads[i].fingerprint, s.threads[i].call);
  }

  /** The step issues a lease of a build whose own builder had found itself superseded. */
  ghost predicate IssuesStale(s: State, s': State) {
    |s'.issued| > |s.issued| && s'.issued[|s.issued|].build < |s'.builds|
    && s'.builds[s'.issued[|s.issued|].build].stale
  }

  /** A waiter that wakes up with a good but superseded build, a current number, an open cache and
      no active lease to share. */
  predicate TakesStale(s: State, i: nat)
    requires Enabled(s, DoWake(i))
  {
    var thread := s.threads[i];
    && s.builds[thread.call].progress == Built && s.builds[thread.call].stale
    && thread.activation == s.activationSeq && !s.closed && !Serves(s, thread.key, thread.fingerprint)
  }

  lemma GrantIssues(s: State, i: nat, key: string, fingerprint: string, build: nat)
    requires i < |s.threads|
    ensures var s' := Grant(s, i, key, fingerprint, build);
      && s'.builds == s.builds
      && (if Serves(s, key, fingerprint) then s'.issued == s.issued
          else s'.issued == s.issued + [NextLease(s, key, fingerprint, build)])
  {
    if !Serves(s, key, fingerprint) {
      assert Issue(s, key, fingerprint, build).builds == s.builds;
    }
  }

  lemma WakeIssuesStale(s: State, i: nat)
    requires Ok(s) && Enabled(s, DoWake(i))
    ensures IssuesStale(s, Wake(s, i)) <==> TakesStale(s, i)
    ensures TakesStale(s, i) ==> Wake(s, i).issued[|s.issued|].build == s.threads[i].call
  {
    var thread := s.threads[i];
    if thread.activation != s.activationSeq {
    } else if s.builds[thread.call].progress == BuildFailed {
    } else if s.closed {
    } else {
      GrantIssues(s, i, thread.key, thread.fingerprint, thread.call);
    }
  }

  lemma FinishIssuesFresh(s: State, i: nat, built: bool)
    requires Ok(s) && Enabled(s, DoFinish(i, built))
    ensures !IssuesStale(s, Finish(s, i, built))
  {
    var thread, p := s.threads[i], Settle(s, i, built);
    assert p.issued == s.issued;
    if s.closed || Superseded(s, thread) || !built {
    } else {
      GrantIssues(p, i, thread.key, thread.fingerprint, thread.call);
    }
  }

  lemma EnterIssuesFresh(s: State, key: string, fingerprint: string)
    requires Ok(s)
    ensures !IssuesStale(s, Enter(s, key, fingerprint))
  {
    var p, t := Prepare(s, key, fingerprint), Target(key, fingerprint, Epoch(s, key));
    PrepareOk(s, key, fingerprint);
    assert p.issued == s.issued;
    if s.closed {
    } else if Serves(s, key, fingerprint) {
    } else if key in p.entries {
      assert Stored(key, p.entries[key], p.builds, p.epochs, p.drained, p.inflight);
      assert Issue(p, key, fingerprint, p.entries[key].build).builds == p.builds;
    } else if t in p.inflight {
    } else {
    }
  }

  /** A superseded build comes into use, and so may become the active lease, in exactly one way: a
      waiter that asked for its target last of all wakes up, with nothing active to share. Its new
      lease then carries the clients of the build it waited for; and it asked later than the caller
      that ran the build. */
  lemma SupersededBuildServes(s: State, a: Action)
    requires Ok(s) && Enabled(s, a)
    ensures IssuesStale(s, Apply(s, a)) <==> a.DoWake? && TakesStale(s, a.thread)
    ensures a.DoWake? && TakesStale(s, a.thread) ==>
      var s', thread := Apply(s, a), s.threads[a.thread];
      && s'.issued[|s.issued|].build == thread.call && s'.active == Some(s'.issued[|s.issued|])
      && thread.activation > s.builds[thread.call].number
  {
    match a
    case DoEnter(key, fingerprint) => EnterIssuesFresh(s, key, fingerprint);
    case DoFinish(i, built) => FinishIssuesFresh(s, i, built);
    case DoWake(i) =>
      WakeIssuesStale(s, i);
      WakeAims(s, i);
    case DoInvalidate(key) => assert Invalidate(s, key).issued == s.issued;
    case _ =>
  }

  /** One caller builds for a target, another asks for a second target, a third asks for the first
      again and waits for the build of the first caller. */
  const THREE_ASK: seq<Action> := [DoEnter("first", "f"), DoEnter("second", "g"), DoEnter("first", "f")]

  const ONE_ASKED: State := Enter(INITIAL, "first", "f")
  const TWO_ASKED: State := Enter(ONE_ASKED, "second", "g")
  const ASKED: State := Enter(TWO_ASKED, "first", "f")

  lemma RunStep(actions: seq<Action>, a: Action)
    requires Enabled(Run(actions), a)
    ensures Run(actions + [a]) == Apply(Run(actions), a)
  {
    assert (actions + [a])[..|actions|] == actions;
  }

  lemma ThreeAskRuns()
    ensures Run(THREE_ASK) == ASKED
  {
    RunStep([], DoEnter("first", "f"));
    RunStep([DoEnter("first", "f")], DoEnter("second", "g"));
    RunStep([DoEnter("first", "f"), DoEnter("second", "g")], DoEnter("first", "f"));
    assert [] + [DoEnter("first", "f")] == [DoEnter("first", "f")];
    assert [DoEnter("first", "f")] + [DoEnter("second", "g")] == [DoEnter("first", "f"), DoEnter("second", "g")];
    assert [DoEnter("first", "f"), DoEnter("second", "g")] + [DoEnter("first", "f")] == THREE_ASK;
  }

  lemma OneAsks()
    ensures ONE_ASKED == INITIAL.(
      activationSeq := 1, target := Some(Target("first", "f", 0)), inflight := map[Target("first", "f", 0) := 0],
      builds := [Build(Target("first", "f", 0), 1, 0, Running, false)], threads := [Building("first", "f", 1, 0)])
  {
    assert Prepare(INITIAL, "first", "f") == INITIAL.(activationSeq := 1, target := Some(Target("first", "f", 0)));
  }

  lemma TwoAsk()
    ensures TWO_ASKED == ONE_ASKED.(
      activationSeq := 2, target := Some(Target("second", "g", 0)),
      inflight := map[Target("first", "f", 0) := 0, Target("second", "g", 0) := 1],
      builds := ONE_ASKED.builds + [Build(Target("second", "g", 0), 2, 1, Running, false)],
      threads := ONE_ASKED.threads + [Building("second", "g", 2, 1)])
  {
    OneAsks();
    assert Prepare(ONE_ASKED, "second", "g")
      == ONE_ASKED.(activationSeq := 2, target := Some(Target("second", "g", 0)));
  }

  lemma AskedTwice()
    ensures ASKED == TWO_ASKED.(
      activationSeq := 3, target := Some(Target("first", "f", 0)),
      threads := TWO_ASKED.threads + [Waiting("first", "f", 3, 0)])
    ensures ASKED.threads == [Building("first", "f", 1, 0), Building("second", "g", 2, 1), Waiting("first", "f", 3, 0)]
    ensures ASKED.builds ==
      [Build(Target("first", "f", 0), 1, 0, Running, false), Build(Target("second", "g", 0), 2, 1, Running, false)]
    ensures !ASKED.closed && ASKED.active == None
  {
    OneAsks();
    TwoAsk();
    assert Prepare(TWO_ASKED, "first", "f") == TWO_ASKED.(activationSeq := 3, target := Some(Target("first", "f", 0)));
  }

  /** When the build ends, the first caller is refused and its clients' idle connections are
      closed, yet the third caller is granted a lease of those clients. */
  lemma SupersededBuildBecomesActive()
    ensures Enabled(Run(THREE_ASK), DoFinish(0, true))
    ensures Enabled(Run(THREE_ASK + [DoFinish(0, true)]), DoWake(2))
    ensures var s := Run(THREE_ASK + [DoFinish(0, true)] + [DoWake(2)]);
      && |s.threads| == 3 && s.threads[0] == Refused(GenerationChanged) && s.threads[2].Granted?
      && s.active == Some(s.threads[2].lease) && s.threads[2].lease.build == 0
      && |s.builds| == 2 && s.builds[0].stale && 0 in s.drained
  {
    ThreeAskRuns();
    ThirdIsServed();
    RunStep(THREE_ASK, DoFinish(0, true));
    RunStep(THREE_ASK + [DoFinish(0, true)], DoWake(2));
  }

  lemma ThirdIsServed()
    ensures Enabled(ASKED, DoFinish(0, true)) && Enabled(Finish(ASKED, 0, true), DoWake(2))
    ensures var s := Wake(Finish(ASKED, 0, true), 2);
      && |s.threads| == 3 && s.threads[0] == Refused(GenerationChanged) && s.threads[2].Granted?
      && s.active == Some(s.threads[2].lease) && s.threads[2].lease.build == 0
      && |s.builds| == 2 && s.builds[0].stale && 0 in s.drained
  {
    AskedTwice();
  }

  // ---- Invalidation ----------------------------------------------------------------------

  /** How often a key has been invalidated. */
  function Invalidations(actions: seq<Action>, key: string): nat {
    if actions == [] then 0
    else Invalidations(actions[..|actions| - 1], key) + if actions[|actions| - 1] == DoInvalidate(key) then 1 else 0
  }

  lemma {:induction false} InvalidationsAdd(actions: seq<Action>, n: nat, key: string)
    requires n <= |actions| && Invalidations(actions[..n], key) == Invalidations(actions, key)
    ensures DoInvalidate(key) !in actions[n..]
  {
    if n < |actions| {
      var m := |actions| - 1;
      assert actions[..m][..n] == actions[..n] && actions[n..] == actions[..m][n..] + [actions[m]];
      InvalidationsGrow(actions[..m], n, key);
      InvalidationsAdd(actions[..m], n, key);
    }
  }

  lemma {:induction false} InvalidationsGrow(actions: seq<Action>, n: nat, key: string)
    requires n <= |actions|
    ensures Invalidations(actions[..n], key) <= Invalidations(actions, key)
  {
    if n < |actions| {
      assert actions[..|actions| - 1][..n] == actions[..n];
      InvalidationsGrow(actions[..|actions| - 1], n, key);
    } else {
      assert actions[..n] == actions;
    }
  }

  lemma EpochSteps(s: State, a: Action, key: string)
    requires Enabled(s, a)
    ensures Epoch(Apply(s, a), key) == Epoch(s, key) + if a == DoInvalidate(key) then 1 else 0
  {
    match a
    case DoEnter(k, fingerprint) => EnterKeepsEpochs(s, k, fingerprint);
    case DoFinish(i, built) => assert Settle(s, i, built).epochs == s.epochs;
    case _ =>
  }

  lemma EnterKeepsEpochs(s: State, key: string, fingerprint: string)
    ensures Enter(s, key, fingerprint).epochs == s.epochs
  {
    var p, t := Prepare(s, key, fingerprint), Target(key, fingerprint, Epoch(s, key));
    PrepareFrame(s, key, fingerprint);
    if s.closed {
    } else if Serves(s, key, fingerprint) {
    } else if key in p.entries {
    } else if t in p.inflight {
    } else {
    }
  }

  /** Epochs count invalidations. */
  lemma {:induction false} EpochCounts(actions: seq<Action>, key: string)
    ensures Epoch(Run(actions), key) == Invalidations(actions, key)
  {
    if actions != [] {
      var s, a := Run(actions[..|actions| - 1]), actions[|actions| - 1];
      EpochCounts(actions[..|actions| - 1], key);
      if Enabled(s, a) {
        EpochSteps(s, a, key);
      }
    }
  }

  /** Only entering starts a build, one at a time, under the epoch of that moment. */
  ghost predicate Starts(s: State, s': State) {
    |s'.builds| == |s.builds| ||
    (|s'.builds| == |s.builds| + 1
     && s'.builds[|s.builds|].target.epoch == Epoch(s, s'.builds[|s.builds|].target.key))
  }

  lemma EnterStarts(s: State, key: string, fingerprint: string)
    ensures Starts(s, Enter(s, key, fingerprint))
  {
    var p, t := Prepare(s, key, fingerprint), Target(key, fingerprint, Epoch(s, key));
    PrepareFrame(s, key, fingerprint);
    assert |p.builds| == |s.builds|;
    if s.closed {
    } else if Serves(s, key, fingerprint) {
    } else if key in p.entries {
    } else if t in p.inflight {
    } else {
    }
  }

  lemma OnlyEnterStarts(s: State, a: Action)
    requires Enabled(s, a) && !a.DoEnter?
    ensures |Apply(s, a).builds| == |s.builds|
  {
    match a
    case DoFinish(i, built) => assert |Settle(s, i, built).builds| == |s.builds|;
    case _ =>
  }

  /** After how many steps a build was started. */
  function StartedAt(actions: seq<Action>, build: nat): (n: nat)
    ensures n <= |actions|
  {
    if actions == [] then 0
    else if build < |Run(actions[..|actions| - 1]).builds| then StartedAt(actions[..|actions| - 1], build)
    else |actions|
  }

  lemma {:induction false} BuiltUnderEpoch(actions: seq<Action>, build: nat)
    requires build < |Run(actions).builds|
    ensures var t := Run(actions).builds[build].target;
      t.epoch == Invalidations(actions[..StartedAt(actions, build)], t.key)
  {
    var n := |actions| - 1;
    var s, a := Run(actions[..n]), actions[n];
    if build < |s.builds| {
      BuiltUnderEpoch(actions[..n], build);
      assert actions[..n][..StartedAt(actions, build)] == actions[..StartedAt(actions, build)];
      if Enabled(s, a) {
        HistoryGrows(s, a);
      }
    } else {
      StartedUnderEpoch(s, a, build);
      EpochCounts(actions[..n], Run(actions).builds[build].target.key);
      assert actions[..|actions|] == actions;
    }
  }

  lemma StartedUnderEpoch(s: State, a: Action, build: nat)
    requires Enabled(s, a) && |s.builds| <= build < |Apply(s, a).builds|
    ensures a.DoEnter?
    ensures var t := Apply(s, a).builds[build].target; t.epoch == Epoch(s, t.key)
  {
    if a.DoEnter? {
      EnterStarts(s, a.key, a.fingerprint);
    } else {
      OnlyEnterStarts(s, a);
    }
  }

  /** The clients of the active lease, however they were come by, were built for its key and
      fingerprint in a build that started after the last invalidation of that key. */
  lemma ActiveSinceInvalidation(actions: seq<Action>)
    requires Run(actions).active.Some?
    ensures var s, lease := Run(actions), Run(actions).active.value;
      && Good(s.builds, lease.key, lease.fingerprint, lease.build)
      && DoInvalidate(lease.key) !in actions[StartedAt(actions, lease.build)..]
  {
    RunOk(actions);
    var lease := Run(actions).active.value;
    ActiveIsCurrent(Run(actions));
    BuiltUnderEpoch(actions, lease.build);
    EpochCounts(actions, lease.key);
    InvalidationsAdd(actions, StartedAt(actions, lease.build), lease.key);
  }
}
