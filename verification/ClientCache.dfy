/** The Kubernetes client cache as a machine whose steps are the critical sections of its mutex:
    entering `Activate`, the end of a build, a waiter waking up, invalidation and closing. */
module ClientCache {
  import opened Options

  /** A build key: cache key, fingerprint and epoch. */
  datatype Target = Target(key: string, fingerprint: string, epoch: nat)

  datatype Progress = Running | Built | BuildFailed

  /** One call of the builder. `number` is the activation number and `owner` the thread of the caller
      that runs it; `stale` records that the builder found itself superseded. */
  datatype Build = Build(target: Target, number: nat, owner: nat, progress: Progress, stale: bool)

  /** Clients are named by the build that made them. */
  datatype Lease = Lease(key: string, fingerprint: string, build: nat, generation: nat)

  datatype Entry = Entry(fingerprint: string, build: nat)

  datatype Failure = GenerationChanged | Unavailable | BuilderError | CallerGone

  /** A call of `Activate`, past its fingerprint check. */
  datatype Thread =
    | Building(key: string, fingerprint: string, activation: nat, call: nat)
    | Waiting(key: string, fingerprint: string, activation: nat, call: nat)
    | Granted(lease: Lease)
    | Refused(failure: Failure)

  /** The cache's fields, then what has happened so far: every build, every lease issued, the
      generations cancelled, the builds whose idle connections were closed, and the callers. */
  datatype State = State(
    entries: map<string, Entry>, inflight: map<Target, nat>, epochs: map<string, nat>, active: Option<Lease>,
    activationSeq: nat, target: Option<Target>, generationSeq: nat, closed: bool, cancelled: bool,
    builds: seq<Build>, issued: seq<Lease>, revoked: set<nat>, drained: set<nat>, threads: seq<Thread>)

  const INITIAL := State(map[], map[], map[], None, 0, None, 0, false, false, [], [], {}, {}, [])

  function EpochOf(epochs: map<string, nat>, key: string): nat {
    if key in epochs then epochs[key] else 0
  }

  function Epoch(s: State, key: string): nat {
    EpochOf(s.epochs, key)
  }

  predicate Matches(lease: Option<Lease>, key: string, fingerprint: string) {
    lease.Some? && lease.value.key == key && lease.value.fingerprint == fingerprint
  }

  /** The generation's context has no error. */
  predicate Live(s: State, lease: Lease) {
    lease.generation !in s.revoked && !s.cancelled
  }

  predicate Serves(s: State, key: string, fingerprint: string) {
    Matches(s.active, key, fingerprint) && Live(s, s.active.value)
  }

  // ---- Parts of the critical sections ----------------------------------------------------

  /** Cancel the active lease. */
  function Revoke(s: State): State {
    s.(active := None, revoked := if s.active.Some? then s.revoked + {s.active.value.generation} else s.revoked)
  }

  /** Drop a cached entry and close its idle connections. */
  function Evict(s: State, key: string): State {
    s.(entries := s.entries - {key},
       drained := if key in s.entries then s.drained + {s.entries[key].build} else s.drained)
  }

  /** Make `t` the requested target. */
  function Retarget(s: State, t: Target): State {
    s.(activationSeq := if s.target == Some(t) then s.activationSeq else s.activationSeq + 1, target := Some(t))
  }

  function NextLease(s: State, key: string, fingerprint: string, build: nat): Lease {
    Lease(key, fingerprint, build, s.generationSeq + 1)
  }

  /** `activateLocked`. */
  function Issue(s: State, key: string, fingerprint: string, build: nat): State {
    var lease := NextLease(s, key, fingerprint, build);
    Revoke(s).(generationSeq := s.generationSeq + 1, active := Some(lease), issued := s.issued + [lease])
  }

  function AddThread(s: State, thread: Thread): State {
    s.(threads := s.threads + [thread])
  }

  function SetThread(s: State, i: nat, thread: Thread): State
    requires i < |s.threads|
  {
    s.(threads := s.threads[i := thread])
  }

  function StartBuild(s: State, key: string, fingerprint: string): State {
    var t := Target(key, fingerprint, Epoch(s, key));
    s.(inflight := s.inflight[t := |s.builds|],
       builds := s.builds + [Build(t, s.activationSeq, |s.threads|, Running, false)],
       threads := s.threads + [Building(key, fingerprint, s.activationSeq, |s.builds|)])
  }

  function RevokeOther(s: State, key: string, fingerprint: string): State {
    s.(active := if Matches(s.active, key, fingerprint) then s.active else None,
       revoked := if Matches(s.active, key, fingerprint) then s.revoked else Revoke(s).revoked)
  }

  function EvictOther(s: State, key: string, fingerprint: string): State {
    var other := key in s.entries && s.entries[key].fingerprint != fingerprint;
    s.(entries := if other then s.entries - {key} else s.entries,
       drained := if other then s.drained + {s.entries[key].build} else s.drained)
  }

  // ---- Steps -----------------------------------------------------------------------------

  /** Everything another target leaves behind is gone, and this target is the requested one. */
  function Prepare(s: State, key: string, fingerprint: string): State {
    EvictOther(RevokeOther(Retarget(s, Target(key, fingerprint, Epoch(s, key))), key, fingerprint), key, fingerprint)
  }

  function Enter(s: State, key: string, fingerprint: string): State {
    if s.closed then AddThread(s, Refused(Unavailable))
    else if Serves(s, key, fingerprint) then AddThread(s, Granted(s.active.value))
    else
      var p, t := Prepare(s, key, fingerprint), Target(key, fingerprint, Epoch(s, key));
      if key in p.entries then
        var after := Issue(p, key, fingerprint, p.entries[key].build);
        AddThread(after, Granted(after.active.value))
      else if t in p.inflight then AddThread(p, Waiting(key, fingerprint, p.activationSeq, p.inflight[t]))
      else StartBuild(p, key, fingerprint)
  }

  predicate Superseded(s: State, thread: Thread)
    requires thread.Building? && thread.call < |s.builds|
  {
    var t := s.builds[thread.call].target;
    Epoch(s, thread.key) != t.epoch || thread.activation != s.activationSeq || s.target != Some(t)
  }

  /** The end of a build: what is recorded of it, and its caller's answer if there is no lease. */
  function Settle(s: State, i: nat, built: bool): State
    requires i < |s.threads| && s.threads[i].Building? && s.threads[i].call < |s.builds|
  {
    var thread := s.threads[i];
    var stale, build := Superseded(s, thread), s.builds[thread.call];
    var failure := if s.closed then Unavailable else if stale then GenerationChanged else BuilderError;
    s.(builds := s.builds[thread.call := build.(progress := if built then Built else BuildFailed, stale := stale)],
       inflight := s.inflight - {build.target},
       entries := if built && !s.closed && !stale then s.entries[thread.key := Entry(thread.fingerprint, thread.call)]
                  else s.entries,
       drained := if built && (stale || s.closed) then s.drained + {thread.call} else s.drained,
       threads := s.threads[i := Refused(failure)])
  }

  /** What a caller gets once its build is known good. */
  function Grant(s: State, i: nat, key: string, fingerprint: string, build: nat): State
    requires i < |s.threads|
  {
    if Serves(s, key, fingerprint) then SetThread(s, i, Granted(s.active.value))
    else
      var after := Issue(s, key, fingerprint, build);
      SetThread(after, i, Granted(after.active.value))
  }

  function Finish(s: State, i: nat, built: bool): State
    requires i < |s.threads| && s.threads[i].Building? && s.threads[i].call < |s.builds|
  {
    var thread, p := s.threads[i], Settle(s, i, built);
    if s.closed || Superseded(s, thread) || !built then p
    else Grant(p, i, thread.key, thread.fingerprint, thread.call)
  }

  function Wake(s: State, i: nat): State
    requires i < |s.threads| && s.threads[i].Waiting? && s.threads[i].call < |s.builds|
  {
    var thread := s.threads[i];
    if thread.activation != s.activationSeq then SetThread(s, i, Refused(GenerationChanged))
    else if s.builds[thread.call].progress == BuildFailed then SetThread(s, i, Refused(BuilderError))
    else if s.closed then SetThread(s, i, Refused(Unavailable))
    else Grant(s, i, thread.key, thread.fingerprint, thread.call)
  }

  /** Take a key's entry and lease out of use. */
  function Withdraw(s: State, key: string): State {
    var held := s.active.Some? && s.active.value.key == key;
    Evict(s.(active := if held then None else s.active, revoked := if held then Revoke(s).revoked else s.revoked), key)
  }

  function Raise(s: State, key: string): State {
    s.(epochs := s.epochs[key := Epoch(s, key) + 1])
  }

  /** No target is requested any more. */
  function Untarget(s: State): State {
    s.(activationSeq := s.activationSeq + 1, target := None)
  }

  /** `invalidateKey`. */
  function Invalidate(s: State, key: string): State {
    Raise(Withdraw(Untarget(s), key), key)
  }

  /** The builds behind the cached entries. */
  function Cached(entries: map<string, Entry>): set<nat> {
    set key | key in entries :: entries[key].build
  }

  function Close(s: State): State {
    if s.closed then s
    else Revoke(s).(closed := true, cancelled := true, entries := map[], drained := s.drained + Cached(s.entries))
  }

  /** The cache's parent context ends. */
  function Cancel(s: State): State {
    s.(cancelled := true)
  }

  datatype Action =
    | DoEnter(key: string, fingerprint: string)
    | DoFinish(thread: nat, built: bool)
    | DoWake(thread: nat)
    | DoGiveUp(thread: nat, failure: Failure)
    | DoInvalidate(key: string)
    | DoClose
    | DoCancel

  predicate Enabled(s: State, a: Action) {
    match a
    case DoFinish(i, _) => i < |s.threads| && s.threads[i].Building? && s.threads[i].call < |s.builds|
    case DoWake(i) =>
      i < |s.threads| && s.threads[i].Waiting? && s.threads[i].call < |s.builds|
      && s.builds[s.threads[i].call].progress != Running
    case DoGiveUp(i, failure) =>
      i < |s.threads| && s.threads[i].Waiting?
      && (failure == CallerGone || (failure == Unavailable && s.cancelled))
    case _ => true
  }

  function Apply(s: State, a: Action): State
    requires Enabled(s, a)
  {
    match a
    case DoEnter(key, fingerprint) => Enter(s, key, fingerprint)
    case DoFinish(i, built) => Finish(s, i, built)
    case DoWake(i) => Wake(s, i)
    case DoGiveUp(i, failure) => SetThread(s, i, Refused(failure))
    case DoInvalidate(key) => Invalidate(s, key)
    case DoClose => Close(s)
    case DoCancel => Cancel(s)
  }

  /** Steps that are not enabled do not happen. */
  function Run(actions: seq<Action>): State {
    if actions == [] then INITIAL
    else
      var s := Run(actions[..|actions| - 1]);
      if Enabled(s, actions[|actions| - 1]) then Apply(s, actions[|actions| - 1]) else s
  }

  // ---- The invariant ---------------------------------------------------------------------

  /** Generations are numbered one after the other, and all but the active one are cancelled. */
  ghost predicate Leases(generationSeq: nat, issued: seq<Lease>, active: Option<Lease>, revoked: set<nat>) {
    && generationSeq == |issued|
    && (forall i :: 0 <= i < |issued| ==>
          issued[i].generation == i + 1 && (i + 1 in revoked || active == Some(issued[i])))
    && (forall g :: g in revoked ==> g <= |issued|)
    && (active.Some? ==>
          && 1 <= active.value.generation <= |issued| && issued[active.value.generation - 1] == active.value
          && active.value.generation !in revoked)
  }

  /** The build is a good one for this key and fingerprint. */
  ghost predicate Good(builds: seq<Build>, key: string, fingerprint: string, build: nat) {
    build < |builds| && builds[build].progress == Built
    && builds[build].target.key == key && builds[build].target.fingerprint == fingerprint
  }

  /** Moreover no invalidation of the key came after it was started. */
  ghost predicate Current(builds: seq<Build>, epochs: map<string, nat>, key: string, fingerprint: string, build: nat) {
    Good(builds, key, fingerprint, build) && builds[build].target.epoch == EpochOf(epochs, key)
  }

  ghost predicate Origins(issued: seq<Lease>, builds: seq<Build>) {
    forall i :: 0 <= i < |issued| ==> Good(builds, issued[i].key, issued[i].fingerprint, issued[i].build)
  }

  ghost predicate Aimed(target: Option<Target>, epochs: map<string, nat>) {
    target.Some? ==> target.value.epoch == EpochOf(epochs, target.value.key)
  }

  /** The active lease is current, and has lost its idle connections exactly when its builder had
      found itself superseded. */
  ghost predicate Active(active: Option<Lease>, builds: seq<Build>, epochs: map<string, nat>, drained: set<nat>) {
    active.Some? ==>
      && Current(builds, epochs, active.value.key, active.value.fingerprint, active.value.build)
      && (active.value.build in drained <==> builds[active.value.build].stale)
  }

  /** A cached entry is current, was never superseded or closed, and is not being built again. */
  ghost predicate Stored(key: string, entry: Entry, builds: seq<Build>, epochs: map<string, nat>, drained: set<nat>,
                         inflight: map<Target, nat>) {
    && Current(builds, epochs, key, entry.fingerprint, entry.build)
    && !builds[entry.build].stale && entry.build !in drained && builds[entry.build].target !in inflight
  }

  ghost predicate Entries(entries: map<string, Entry>, builds: seq<Build>, epochs: map<string, nat>, drained: set<nat>,
                          inflight: map<Target, nat>) {
    forall key :: key in entries ==> Stored(key, entries[key], builds, epochs, drained, inflight)
  }

  /** An entry of the active lease's key has the same fingerprint. */
  ghost predicate Agree(entries: map<string, Entry>, active: Option<Lease>) {
    active.Some? && active.value.key in entries ==> active.value.fingerprint == entries[active.value.key].fingerprint
  }

  /** The active lease and the cached entries leave no room for a target other than the requested. */
  ghost predicate Aligned(entries: map<string, Entry>, target: Option<Target>, active: Option<Lease>) {
    target.Some? ==>
      && (active.Some? ==> Matches(active, target.value.key, target.value.fingerprint))
      && (target.value.key in entries ==> target.value.fingerprint == entries[target.value.key].fingerprint)
  }

  /** The running builds are exactly those in flight, one per target. */
  ghost predicate Flights(inflight: map<Target, nat>, builds: seq<Build>) {
    && (forall t :: t in inflight ==>
          inflight[t] < |builds| && builds[inflight[t]].target == t && builds[inflight[t]].progress == Running)
    && (forall c :: 0 <= c < |builds| && builds[c].progress == Running ==>
          builds[c].target in inflight && inflight[builds[c].target] == c)
  }

  ghost predicate Numbers(builds: seq<Build>, activationSeq: nat, drained: set<nat>) {
    && (forall c :: 0 <= c < |builds| ==>
          && builds[c].number <= activationSeq
          && (builds[c].stale ==> builds[c].number < activationSeq)
          && (builds[c].progress == Running ==> c !in drained && !builds[c].stale))
    && (forall c :: c in drained ==> c < |builds|)
  }

  /** A build is known to the caller that waits for it or runs it; the caller's activation number
      is current only while that build's target is the requested one. */
  ghost predicate Joined(key: string, fingerprint: string, activation: nat, call: nat, builds: seq<Build>,
                         activationSeq: nat, target: Option<Target>) {
    && call < |builds| && activation <= activationSeq && builds[call].number <= activation
    && builds[call].target.key == key && builds[call].target.fingerprint == fingerprint
    && (activation == activationSeq ==> target == Some(builds[call].target))
  }

  /** What a current waiter finds when its build has ended well: the cached entry, unless the
      builder found itself superseded and closed the connections. */
  ghost predicate Awaited(key: string, call: nat, build: Build, entries: map<string, Entry>, drained: set<nat>,
                          closed: bool) {
    build.progress == Built && !closed ==>
      if build.stale then call in drained else key in entries && entries[key].build == call
  }

  ghost predicate Caller(thread: Thread, i: nat, builds: seq<Build>, activationSeq: nat, target: Option<Target>,
                         entries: map<string, Entry>, drained: set<nat>, closed: bool, issued: seq<Lease>) {
    match thread
    case Building(key, fingerprint, activation, call) =>
      && Joined(key, fingerprint, activation, call, builds, activationSeq, target)
      && builds[call].progress == Running && builds[call].number == activation && builds[call].owner == i
    case Waiting(key, fingerprint, activation, call) =>
      && Joined(key, fingerprint, activation, call, builds, activationSeq, target)
      && (activation == activationSeq ==> Awaited(key, call, builds[call], entries, drained, closed))
    case Granted(lease) => lease in issued
    case Refused(_) => true
  }

  ghost predicate Callers(s: State) {
    forall i :: 0 <= i < |s.threads| ==>
      Caller(s.threads[i], i, s.builds, s.activationSeq, s.target, s.entries, s.drained, s.closed, s.issued)
  }

  ghost predicate Shut(s: State) {
    s.closed ==> s.cancelled && s.active.None? && s.entries == map[]
  }

  ghost predicate Base(s: State) {
    && Leases(s.generationSeq, s.issued, s.active, s.revoked)
    && Origins(s.issued, s.builds)
    && Aimed(s.target, s.epochs)
    && Active(s.active, s.builds, s.epochs, s.drained)
    && Entries(s.entries, s.builds, s.epochs, s.drained, s.inflight)
    && Agree(s.entries, s.active)
    && Flights(s.inflight, s.builds)
    && Numbers(s.builds, s.activationSeq, s.drained)
    && Callers(s)
    && Shut(s)
  }

  ghost predicate Ok(s: State) {
    Base(s) && Aligned(s.entries, s.target, s.active)
  }

  // ---- Each part of a step keeps the invariant -------------------------------------------

  lemma RevokeOk(s: State)
    requires Base(s)
    ensures Base(Revoke(s)) && Revoke(s).active == None
  {
  }

  /** Evicting is safe once no current caller counts on the entry. */
  lemma EvictOk(s: State, key: string)
    requires Base(s) && !(s.active.Some? && s.active.value.key == key)
    requires s.target.Some? && s.target.value.key == key && key in s.entries ==>
      s.target.value.fingerprint != s.entries[key].fingerprint
    ensures Base(Evict(s, key))
  {
  }

  lemma RetargetOk(s: State, t: Target)
    requires Base(s) && t.epoch == Epoch(s, t.key)
    ensures Base(Retarget(s, t)) && Retarget(s, t).target == Some(t)
  {
    if s.target != Some(t) {
      var s' := Retarget(s, t);
      assert Numbers(s'.builds, s'.activationSeq, s'.drained);
      assert Callers(s');
    }
  }

  lemma RevokeOtherOk(s: State, key: string, fingerprint: string)
    requires Base(s)
    ensures var r := RevokeOther(s, key, fingerprint);
      Base(r) && (r.active.Some? ==> Matches(r.active, key, fingerprint)) && r.target == s.target
  {
    RevokeOk(s);
  }

  lemma EvictOtherOk(s: State, key: string, fingerprint: string)
    requires Base(s) && (s.active.Some? ==> Matches(s.active, key, fingerprint))
    requires s.target.Some? && s.target.value.key == key && s.target.value.fingerprint == fingerprint
    ensures Ok(EvictOther(s, key, fingerprint))
  {
    if key in s.entries && s.entries[key].fingerprint != fingerprint {
      EvictOk(s, key);
    }
  }

  lemma PrepareOk(s: State, key: string, fingerprint: string)
    requires Base(s)
    ensures Ok(Prepare(s, key, fingerprint))
  {
    var t := Target(key, fingerprint, Epoch(s, key));
    RetargetOk(s, t);
    RevokeOtherOk(Retarget(s, t), key, fingerprint);
    EvictOtherOk(RevokeOther(Retarget(s, t), key, fingerprint), key, fingerprint);
  }

  lemma PrepareFrame(s: State, key: string, fingerprint: string)
    ensures var p := Prepare(s, key, fingerprint);
      && p.target == Some(Target(key, fingerprint, Epoch(s, key))) && p.epochs == s.epochs && p.closed == s.closed
      && (key in p.entries ==> p.entries[key].fingerprint == fingerprint)
  {
  }

  lemma IssueOk(s: State, key: string, fingerprint: string, build: nat)
    requires Ok(s) && !s.closed && Current(s.builds, s.epochs, key, fingerprint, build)
    requires s.target == Some(s.builds[build].target)
    requires build in s.drained <==> s.builds[build].stale
    ensures Ok(Issue(s, key, fingerprint, build))
  {
    RevokeOk(s);
  }

  lemma SetThreadOk(s: State, i: nat, thread: Thread)
    requires Ok(s) && i < |s.threads|
    requires thread.Refused? || (thread.Granted? && s.active == Some(thread.lease))
    ensures Ok(SetThread(s, i, thread))
  {
  }

  lemma AddThreadOk(s: State, thread: Thread)
    requires Ok(s)
    requires thread.Refused? || (thread.Granted? && s.active == Some(thread.lease))
    ensures Ok(AddThread(s, thread))
  {
  }

  lemma WaitOk(s: State, t: Target)
    requires Ok(s) && s.target == Some(t) && t in s.inflight && t.epoch == Epoch(s, t.key)
    ensures Ok(AddThread(s, Waiting(t.key, t.fingerprint, s.activationSeq, s.inflight[t])))
  {
  }

  lemma StartBuildOk(s: State, key: string, fingerprint: string)
    requires Ok(s) && key !in s.entries
    requires var t := Target(key, fingerprint, Epoch(s, key)); s.target == Some(t) && t !in s.inflight
    ensures Ok(StartBuild(s, key, fingerprint))
  {
  }

  lemma EnterOk(s: State, key: string, fingerprint: string)
    requires Ok(s)
    ensures Ok(Enter(s, key, fingerprint))
  {
    if s.closed {
      AddThreadOk(s, Refused(Unavailable));
    } else if Serves(s, key, fingerprint) {
      AddThreadOk(s, Granted(s.active.value));
    } else {
      PrepareOk(s, key, fingerprint);
      PrepareFrame(s, key, fingerprint);
      var p, t := Prepare(s, key, fingerprint), Target(key, fingerprint, Epoch(s, key));
      if key in p.entries {
        IssueOk(p, key, fingerprint, p.entries[key].build);
        var after := Issue(p, key, fingerprint, p.entries[key].build);
        AddThreadOk(after, Granted(after.active.value));
      } else if t in p.inflight {
        WaitOk(p, t);
      } else {
        StartBuildOk(p, key, fingerprint);
      }
    }
  }

  /** The three tests a builder makes are one: has another target been requested since. */
  lemma SupersededExactly(s: State, i: nat)
    requires Ok(s) && i < |s.threads| && s.threads[i].Building?
    ensures s.threads[i].call < |s.builds|
    ensures Superseded(s, s.threads[i]) <==> s.threads[i].activation != s.activationSeq
  {
  }

  /** A key's epoch may rise once nothing current belongs to it. */
  lemma RaiseOk(s: State, key: string)
    requires Base(s) && s.target.None? && key !in s.entries && !(s.active.Some? && s.active.value.key == key)
    ensures Ok(Raise(s, key))
  {
  }

  lemma UntargetOk(s: State)
    requires Base(s)
    ensures Base(Untarget(s))
  {
  }

  lemma WithdrawOk(s: State, key: string)
    requires Base(s) && s.target.None?
    ensures Base(Withdraw(s, key)) && Withdraw(s, key).target.None? && key !in Withdraw(s, key).entries
    ensures var active := Withdraw(s, key).active; !(active.Some? && active.value.key == key)
  {
    RevokeOk(s);
    EvictOk(if s.active.Some? && s.active.value.key == key then Revoke(s) else s, key);
  }

  lemma InvalidateOk(s: State, key: string)
    requires Ok(s)
    ensures Ok(Invalidate(s, key))
  {
    UntargetOk(s);
    WithdrawOk(Untarget(s), key);
    RaiseOk(Withdraw(Untarget(s), key), key);
  }

  lemma CancelOk(s: State)
    requires Ok(s)
    ensures Ok(Cancel(s))
  {
  }

  lemma CloseOk(s: State)
    requires Ok(s)
    ensures Ok(Close(s))
  {
    RevokeOk(s);
    ShutOk(Revoke(s));
  }

  lemma ShutOk(s: State)
    requires Ok(s) && s.active.None?
    ensures Ok(s.(closed := true, cancelled := true, entries := map[], drained := s.drained + Cached(s.entries)))
  {
  }

  lemma SettleBuilds(s: State, i: nat, built: bool)
    requires Ok(s) && i < |s.threads| && s.threads[i].Building?
    ensures s.threads[i].call < |s.builds|
    ensures var p := Settle(s, i, built);
      Flights(p.inflight, p.builds) && Numbers(p.builds, p.activationSeq, p.drained) && Origins(p.issued, p.builds)
      && Active(p.active, p.builds, p.epochs, p.drained)
  {
    SupersededExactly(s, i);
  }

  lemma SettleEntries(s: State, i: nat, built: bool)
    requires Ok(s) && i < |s.threads| && s.threads[i].Building?
    ensures s.threads[i].call < |s.builds|
    ensures var p := Settle(s, i, built);
      Entries(p.entries, p.builds, p.epochs, p.drained, p.inflight) && Agree(p.entries, p.active)
      && Aligned(p.entries, p.target, p.active) && Shut(p)
  {
    SupersededExactly(s, i);
  }

  lemma SettleCallers(s: State, i: nat, built: bool)
    requires Ok(s) && i < |s.threads| && s.threads[i].Building?
    ensures s.threads[i].call < |s.builds|
    ensures Callers(Settle(s, i, built))
  {
    SupersededExactly(s, i);
  }

  lemma SettleOk(s: State, i: nat, built: bool)
    requires Ok(s) && i < |s.threads| && s.threads[i].Building?
    ensures s.threads[i].call < |s.builds|
    ensures Ok(Settle(s, i, built))
  {
    SettleBuilds(s, i, built);
    SettleEntries(s, i, built);
    SettleCallers(s, i, built);
  }

  lemma GrantOk(s: State, i: nat, key: string, fingerprint: string, build: nat)
    requires Ok(s) && !s.closed && i < |s.threads| && Current(s.builds, s.epochs, key, fingerprint, build)
    requires s.target == Some(s.builds[build].target)
    requires build in s.drained <==> s.builds[build].stale
    ensures Ok(Grant(s, i, key, fingerprint, build))
  {
    if Serves(s, key, fingerprint) {
      SetThreadOk(s, i, Granted(s.active.value));
    } else {
      IssueOk(s, key, fingerprint, build);
      var after := Issue(s, key, fingerprint, build);
      SetThreadOk(after, i, Granted(after.active.value));
    }
  }

  lemma FinishOk(s: State, i: nat, built: bool)
    requires Ok(s) && i < |s.threads| && s.threads[i].Building?
    ensures s.threads[i].call < |s.builds|
    ensures Ok(Finish(s, i, built))
  {
    SupersededExactly(s, i);
    SettleOk(s, i, built);
    var thread := s.threads[i];
    if !s.closed && !Superseded(s, thread) && built {
      GrantOk(Settle(s, i, built), i, thread.key, thread.fingerprint, thread.call);
    }
  }

  /** A waiter whose number is still current finds a current build, drained exactly if stale. */
  lemma AwaitedIsCurrent(s: State, i: nat)
    requires Ok(s) && i < |s.threads| && s.threads[i].Waiting? && !s.closed
    requires s.threads[i].activation == s.activationSeq
    ensures s.threads[i].call < |s.builds|
    ensures var thread := s.threads[i]; s.builds[thread.call].progress == Built ==>
      && Current(s.builds, s.epochs, thread.key, thread.fingerprint, thread.call)
      && s.target == Some(s.builds[thread.call].target)
      && (thread.call in s.drained <==> s.builds[thread.call].stale)
  {
    var thread := s.threads[i];
    assert Caller(thread, i, s.builds, s.activationSeq, s.target, s.entries, s.drained, s.closed, s.issued);
  }

  lemma WakeOk(s: State, i: nat)
    requires Ok(s) && Enabled(s, DoWake(i))
    ensures Ok(Wake(s, i))
  {
    var thread := s.threads[i];
    if thread.activation != s.activationSeq {
      SetThreadOk(s, i, Refused(GenerationChanged));
    } else if s.builds[thread.call].progress == BuildFailed {
      SetThreadOk(s, i, Refused(BuilderError));
    } else if s.closed {
      SetThreadOk(s, i, Refused(Unavailable));
    } else {
      AwaitedIsCurrent(s, i);
      GrantOk(s, i, thread.key, thread.fingerprint, thread.call);
    }
  }

  lemma ApplyOk(s: State, a: Action)
    requires Ok(s) && Enabled(s, a)
    ensures Ok(Apply(s, a))
  {
    match a
    case DoEnter(key, fingerprint) => EnterOk(s, key, fingerprint);
    case DoFinish(i, built) => FinishOk(s, i, built);
    case DoWake(i) => WakeOk(s, i);
    case DoGiveUp(i, failure) => SetThreadOk(s, i, Refused(failure));
    case DoInvalidate(key) => InvalidateOk(s, key);
    case DoClose => CloseOk(s);
    case DoCancel => CancelOk(s);
  }

  /** Every interleaving of callers, builds, invalidations, closing and cancellation keeps the
      invariant. */
  lemma {:induction false} RunOk(actions: seq<Action>)
    ensures Ok(Run(actions))
  {
    if actions != [] {
      var s, a := Run(actions[..|actions| - 1]), actions[|actions| - 1];
      RunOk(actions[..|actions| - 1]);
      if Enabled(s, a) {
        ApplyOk(s, a);
      }
    }
  }
}
