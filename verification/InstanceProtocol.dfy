/** Processes that share one instance lock and one state file: foreground runs that start, publish,
    shut down or crash, and status or stop requests that may recover stale state. */
module InstanceProtocol {
  import opened Options
  import opened CleanupRegistry

  /** The state file. A state names its process; processes of an earlier time have negative numbers. */
  datatype File = Absent | Valid(owner: int) | Corrupt

  /** What a process returns: the end of a foreground run or of its life, and for a request that an
      instance runs, that none does, or that it cannot tell. */
  datatype Answer = Ended | Running | NotRunning | Unverified

  /** Where a process is. A closing one runs its registered hooks in call order; whether it had
      registered the removal of the state, and whether it has attempted it, is remembered. */
  datatype Process =
    // RunForeground
    | Starting
    | Holding
    | Cleared
    | Published
    | Closing(todo: seq<Hook>, cleared: bool, attempted: bool)
    // Controller.request
    | Asking
    | Contacting(expected: int)
    | Recovering(expected: int)
    | Checking(expected: int)
    | Erasing(expected: int)
    | Unlocking(answer: Answer)
    // returned, killed or crashed
    | Gone(answer: Answer)

  datatype System = System(lock: Option<nat>, file: File, processes: seq<Process>)

  /** The process is inside the part of its code that holds the lock. */
  predicate Critical(p: Process) {
    p.Holding? || p.Cleared? || p.Published? || p.Closing? || p.Checking? || p.Erasing? || p.Unlocking?
  }

  /** How an atomic write of the state ends: an error may come before or after the replacement. */
  datatype WriteResult = Replaced | FailedBefore | FailedAfter

  /** How contacting the instance of a state goes. */
  datatype Reply = Verified | Refused | Unreachable

  datatype Action =
    | Spawn(first: Process)
    | TryLock(process: nat)
    | Clear(process: nat, removed: bool)
    | Publish(process: nat, result: WriteResult, cleanups: seq<NamedCleanup>)
    | GiveUp(process: nat, registered: nat, cleanups: seq<NamedCleanup>)
    | RunHook(process: nat, done: bool)
    | Release(process: nat)
    | Load(process: nat)
    | Contact(process: nat, reply: Reply)
    | TryRecover(process: nat)
    | Check(process: nat)
    | Erase(process: nat, removed: bool)
    | Crash(process: nat)

  predicate Enabled(s: System, a: Action) {
    match a
    case Spawn(first) => first.Starting? || first.Asking?
    case TryLock(p) => p < |s.processes| && s.processes[p].Starting?
    case Clear(p, _) => p < |s.processes| && s.processes[p].Holding?
    case Publish(p, _, _) => p < |s.processes| && s.processes[p].Cleared?
    case GiveUp(p, n, cleanups) =>
      p < |s.processes| && 2 <= n <= |Acquired(cleanups)|
      && (s.processes[p].Cleared? || (s.processes[p].Published? && n == |Acquired(cleanups)|))
    case RunHook(p, _) => p < |s.processes| && s.processes[p].Closing? && s.processes[p].todo != []
    case Release(p) => p < |s.processes| && s.processes[p].Unlocking?
    case Load(p) => p < |s.processes| && s.processes[p].Asking?
    case Contact(p, _) => p < |s.processes| && s.processes[p].Contacting?
    case TryRecover(p) => p < |s.processes| && s.processes[p].Recovering?
    case Check(p) => p < |s.processes| && s.processes[p].Checking?
    case Erase(p, _) => p < |s.processes| && s.processes[p].Erasing?
    case Crash(p) => p < |s.processes| && !s.processes[p].Gone?
  }

  /** The cleanup of everything registered, from its first hook. */
  function Cleanup(registered: seq<Hook>): Process {
    Closing(CallOrder(registered), |registered| > 1, false)
  }

  function AfterHook(process: Process): Process
    requires process.Closing? && process.todo != []
  {
    if |process.todo| == 1 then Gone(Ended)
    else Closing(process.todo[1..], process.cleared, process.attempted || process.todo[0] == InstanceState)
  }

  /** Where a process goes next, given the lock and the file it finds. */
  function NextPlace(s: System, a: Action): Process
    requires Enabled(s, a) && !a.Spawn?
  {
    match a
    case TryLock(p) => if s.lock.None? then Holding else Asking
    case Clear(p, removed) => if s.file.Absent? || (s.file.Valid? && removed) then Cleared else Cleanup([InstanceLock])
    case Publish(p, result, cleanups) => if result == Replaced then Published else Cleanup(Acquired(cleanups))
    case GiveUp(p, n, cleanups) => Cleanup(Acquired(cleanups)[..n])
    case RunHook(p, done) => AfterHook(s.processes[p])
    case Release(p) => Gone(s.processes[p].answer)
    case Load(p) =>
      (match s.file
       case Valid(owner) => Contacting(owner)
       case Absent => Gone(NotRunning)
       case Corrupt => Gone(Unverified))
    case Contact(p, reply) =>
      (match reply
       case Verified => Gone(Running)
       case Refused => Gone(Unverified)
       case Unreachable => Recovering(s.processes[p].expected))
    case TryRecover(p) => if s.lock.None? then Checking(s.processes[p].expected) else Gone(Unverified)
    case Check(p) =>
      if s.file == Valid(s.processes[p].expected) then Erasing(s.processes[p].expected)
      else Unlocking(if s.file.Absent? then NotRunning else Unverified)
    case Erase(p, removed) => Unlocking(if removed then NotRunning else Unverified)
    case Crash(p) => Gone(Ended)
  }

  function NextFile(s: System, a: Action): File
    requires Enabled(s, a)
  {
    match a
    case Clear(p, removed) => if s.file.Valid? && removed then Absent else s.file
    case Publish(p, result, _) => if result == FailedBefore then s.file else Valid(p)
    case RunHook(p, done) => if s.processes[p].todo[0] == InstanceState && done then Absent else s.file
    case Erase(p, removed) => if removed then Absent else s.file
    case _ => s.file
  }

  function NextLock(s: System, a: Action): Option<nat>
    requires Enabled(s, a)
  {
    match a
    case TryLock(p) => if s.lock.None? then Some(p) else s.lock
    case TryRecover(p) => if s.lock.None? then Some(p) else s.lock
    case RunHook(p, _) => if s.processes[p].todo[0] == InstanceLock then None else s.lock
    case Release(p) => None
    case Crash(p) => if s.lock == Some(p) then None else s.lock
    case _ => s.lock
  }

  function Apply(s: System, a: Action): System
    requires Enabled(s, a)
  {
    System(NextLock(s, a), NextFile(s, a),
           if a.Spawn? then s.processes + [a.first] else s.processes[a.process := NextPlace(s, a)])
  }

  function Step(s: System, a: Action): System {
    if Enabled(s, a) then Apply(s, a) else s
  }

  function Run(s: System, actions: seq<Action>): System {
    if actions == [] then s else Step(Run(s, actions[..|actions| - 1]), actions[|actions| - 1])
  }

  // ---- The invariant ---------------------------------------------------------------------

  /** What is left of a cleanup: the lock is its last hook and no other, the state at most the one
      before that. */
  ghost predicate Ending(todo: seq<Hook>) {
    && todo != [] && todo[|todo| - 1] == InstanceLock
    && (forall k :: 0 <= k < |todo| - 1 ==> todo[k] != InstanceLock)
    && (forall k :: 0 <= k < |todo| - 2 ==> todo[k] != InstanceState)
  }

  /** A closing process has the removal before it exactly if it cleared a state and has not
      attempted to remove its own. */
  ghost predicate Orderly(process: Process) {
    process.Closing? ==>
      && Ending(process.todo)
      && (process.cleared && !process.attempted <==>
            |process.todo| > 1 && process.todo[|process.todo| - 2] == InstanceState)
  }

  /** The lock is held by exactly the process that is inside its critical part. */
  ghost predicate Exclusive(s: System) {
    && (s.lock.Some? ==> s.lock.value < |s.processes|)
    && forall p :: 0 <= p < |s.processes| ==>
         Orderly(s.processes[p]) && (Critical(s.processes[p]) <==> s.lock == Some(p))
  }

  /** What a process knows of the file at its place. */
  ghost predicate Knows(process: Process, p: nat, file: File) {
    && (process.Cleared? ==> file == Absent)
    && (process.Published? ==> file == Valid(p))
    && (process.Closing? && process.cleared && !process.attempted ==> file == Absent || file == Valid(p))
    && (process.Erasing? ==> file == Valid(process.expected))
  }

  ghost predicate AllKnow(s: System) {
    forall p :: 0 <= p < |s.processes| ==> Knows(s.processes[p], p, s.file)
  }

  /** A state on disk belongs to a process that published it and still holds the lock, or is gone. */
  ghost predicate Owned(s: System) {
    s.file.Valid? && 0 <= s.file.owner ==>
      && s.file.owner < |s.processes|
      && var owner := s.processes[s.file.owner];
      owner.Published? || owner.Closing? || owner.Gone?
  }

  ghost predicate Ok(s: System) {
    Exclusive(s) && AllKnow(s) && Owned(s)
  }

  /** Nothing runs yet; the file is whatever earlier processes left. */
  ghost predicate Initial(s: System) {
    s.lock == None && s.processes == [] && (s.file.Valid? ==> s.file.owner < 0)
  }

  /** Everything a process can have registered ends with removal and release. */
  lemma CleanupIsOrderly(cleanups: seq<NamedCleanup>, n: nat)
    requires 1 <= n <= |Acquired(cleanups)|
    ensures Orderly(Cleanup(Acquired(cleanups)[..n]))
  {
    LockGoesLast(cleanups, Acquired(cleanups)[..n]);
  }

  lemma HookKeepsOrder(process: Process)
    requires process.Closing? && Orderly(process)
    ensures Orderly(AfterHook(process)) && (process.todo[0] == InstanceLock <==> AfterHook(process).Gone?)
  {
  }

  /** Wherever a step takes a process, its cleanup is in order. */
  lemma NextIsOrderly(s: System, a: Action)
    requires Exclusive(s) && Enabled(s, a) && !a.Spawn?
    ensures Orderly(NextPlace(s, a))
  {
    match a
    case Clear(p, removed) =>
      CleanupIsOrderly([], 1);
      assert Acquired([])[..1] == [InstanceLock];
    case Publish(p, result, cleanups) =>
      CleanupIsOrderly(cleanups, |Acquired(cleanups)|);
      assert Acquired(cleanups)[..|Acquired(cleanups)|] == Acquired(cleanups);
    case GiveUp(p, n, cleanups) => CleanupIsOrderly(cleanups, n);
    case RunHook(p, done) => HookKeepsOrder(s.processes[p]);
    case _ =>
  }

  lemma ExclusiveKept(s: System, a: Action)
    requires Exclusive(s) && Enabled(s, a)
    ensures Exclusive(Apply(s, a))
  {
    if !a.Spawn? {
      NextIsOrderly(s, a);
      if a.RunHook? {
        HookKeepsOrder(s.processes[a.process]);
      }
    }
  }

  /** Only the lock holder changes the file. */
  lemma FileChangesUnderLock(s: System, a: Action)
    requires Exclusive(s) && Enabled(s, a) && Apply(s, a).file != s.file
    ensures !a.Spawn? && s.lock == Some(a.process)
  {
  }

  lemma KnowledgeKept(s: System, a: Action)
    requires Ok(s) && Enabled(s, a)
    ensures AllKnow(Apply(s, a))
  {
    var s' := Apply(s, a);
    forall p | 0 <= p < |s'.processes| ensures Knows(s'.processes[p], p, s'.file) {
      if p < |s.processes| {
        assert Knows(s.processes[p], p, s.file);
        if s'.file != s.file {
          FileChangesUnderLock(s, a);
        }
      }
    }
  }

  lemma OwnershipKept(s: System, a: Action)
    requires Ok(s) && Enabled(s, a)
    ensures Owned(Apply(s, a))
  {
  }

  lemma {:induction false} RunOk(s: System, actions: seq<Action>)
    requires Initial(s)
    ensures Ok(Run(s, actions))
  {
    if actions != [] {
      var n := |actions| - 1;
      RunOk(s, actions[..n]);
      var r := Run(s, actions[..n]);
      if Enabled(r, actions[n]) {
        ExclusiveKept(r, actions[n]);
        KnowledgeKept(r, actions[n]);
        OwnershipKept(r, actions[n]);
      }
    }
  }

  // ---- The promises ----------------------------------------------------------------------

  /** In every run, at every step: the file changes only by the process that holds the lock. */
  lemma ChangesAreTheHolders(s: System, actions: seq<Action>, a: Action)
    requires Initial(s) && Enabled(Run(s, actions), a) && Apply(Run(s, actions), a).file != Run(s, actions).file
    ensures !a.Spawn? && Run(s, actions).lock == Some(a.process)
  {
    RunOk(s, actions);
    FileChangesUnderLock(Run(s, actions), a);
  }

  /** While a process that has published lives, the file is its own state and it is the only one
      that holds the lock. */
  lemma PublishedStateStands(s: System, actions: seq<Action>, p: nat)
    requires Initial(s) && p < |Run(s, actions).processes| && Run(s, actions).processes[p].Published?
    ensures Run(s, actions).file == Valid(p) && Run(s, actions).lock == Some(p)
    ensures forall q :: 0 <= q < |Run(s, actions).processes| && q != p ==> !Critical(Run(s, actions).processes[q])
  {
    RunOk(s, actions);
    assert Knows(Run(s, actions).processes[p], p, Run(s, actions).file);
  }

  /** However often contacting an instance fails, recovery removes a state only when the process
      it belongs to is gone, and only the very state that could not be contacted. */
  lemma RecoveryRemovesOnlyTheDead(s: System, actions: seq<Action>, p: nat, removed: bool)
    requires Initial(s) && Enabled(Run(s, actions), Erase(p, removed))
    ensures var r := Run(s, actions);
      && r.file == Valid(r.processes[p].expected)
      && (0 <= r.file.owner ==> r.file.owner < |r.processes| && r.processes[r.file.owner].Gone?)
      && forall q :: 0 <= q < |r.processes| ==> !r.processes[q].Published?
  {
    RunOk(s, actions);
    assert Knows(Run(s, actions).processes[p], p, Run(s, actions).file);
  }

  /** So does a new start that clears what it finds. */
  lemma StartClearsOnlyTheDead(s: System, actions: seq<Action>, p: nat)
    requires Initial(s) && Enabled(Run(s, actions), Clear(p, true)) && Run(s, actions).file.Valid?
    ensures var r := Run(s, actions);
      0 <= r.file.owner ==> r.file.owner < |r.processes| && r.processes[r.file.owner].Gone?
  {
    RunOk(s, actions);
  }

  /** A corrupt file is never removed or replaced, and nothing is published over it. */
  lemma {:induction false} CorruptStaysCorrupt(s: System, actions: seq<Action>)
    requires Initial(s) && s.file.Corrupt?
    ensures Run(s, actions).file.Corrupt?
    ensures forall p :: 0 <= p < |Run(s, actions).processes| ==> !Run(s, actions).processes[p].Published?
  {
    if actions != [] {
      var n := |actions| - 1;
      CorruptStaysCorrupt(s, actions[..n]);
      RunOk(s, actions[..n]);
    }
    RunOk(s, actions);
    forall p | 0 <= p < |Run(s, actions).processes| ensures !Run(s, actions).processes[p].Published? {
      assert Knows(Run(s, actions).processes[p], p, Run(s, actions).file);
    }
  }

  /** A graceful end releases the lock only after the removal of the state was attempted, if the
      process had come so far as to clear one: whatever else was registered, and wherever the start
      stopped. */
  lemma ReleaseComesAfterRemoval(s: System, actions: seq<Action>, p: nat, done: bool)
    requires Initial(s) && Enabled(Run(s, actions), RunHook(p, done))
    requires Run(s, actions).lock == Some(p) && Apply(Run(s, actions), RunHook(p, done)).lock != Some(p)
    ensures var process := Run(s, actions).processes[p];
      process.todo == [InstanceLock] && (process.cleared ==> process.attempted)
  {
    RunOk(s, actions);
    assert Orderly(Run(s, actions).processes[p]);
  }

  // ---- Answers ---------------------------------------------------------------------------

  /** A step makes up the answer of a request. */
  predicate Answers(before: Process, after: Process, answer: Answer) {
    !before.Unlocking? && (after == Gone(answer) || after == Unlocking(answer))
  }

  /** In every run: whoever answers that nothing runs does so when nobody has published and lives,
      and the file is then gone; that something runs is only answered on a verified reply. */
  lemma AnswersAreTrue(s: System, actions: seq<Action>, a: Action)
    requires Initial(s) && Enabled(Run(s, actions), a) && !a.Spawn?
    ensures var r, r' := Run(s, actions), Apply(Run(s, actions), a);
      && (Answers(r.processes[a.process], r'.processes[a.process], NotRunning) ==>
            r'.file == Absent && forall q :: 0 <= q < |r.processes| ==> !r.processes[q].Published?)
      && (Answers(r.processes[a.process], r'.processes[a.process], Running) <==> a.Contact? && a.reply == Verified)
  {
    var r := Run(s, actions);
    RunOk(s, actions);
    forall q | 0 <= q < |r.processes| && r.processes[q].Published?
      ensures !Answers(r.processes[a.process], Apply(r, a).processes[a.process], NotRunning)
    {
      assert Knows(r.processes[q], q, r.file);
    }
    assert Knows(r.processes[a.process], a.process, r.file);
  }

  // ---- Nothing is in the way -------------------------------------------------------------

  lemma {:induction false} RunFirst(s: System, a: Action, rest: seq<Action>)
    ensures Run(s, [a] + rest) == Run(Step(s, a), rest)
  {
    if rest == [] {
      assert [a] + rest == [a] && [a][..0] == [];
    } else {
      var n := |rest| - 1;
      RunFirst(s, a, rest[..n]);
      assert ([a] + rest)[..|rest|] == [a] + rest[..n];
    }
  }

  lemma ThreeSteps(s: System, a: Action, b: Action, c: Action, rest: seq<Action>)
    ensures Run(s, [a, b, c] + rest) == Run(Step(Step(Step(s, a), b), c), rest)
  {
    assert [a, b, c] + rest == [a] + ([b] + ([c] + rest));
    RunFirst(s, a, [b] + ([c] + rest));
    RunFirst(Step(s, a), b, [c] + rest);
    RunFirst(Step(Step(s, a), b), c, rest);
  }

  /** With the lock free and no corrupt file, a start that meets no error publishes its state,
      whatever stale state there was. */
  lemma StartGoesThrough(s: System, cleanups: seq<NamedCleanup>)
    requires s.lock == None && !s.file.Corrupt?
    ensures var p := |s.processes|;
      Run(s, [Spawn(Starting), TryLock(p), Clear(p, true), Publish(p, Replaced, cleanups)])
      == System(Some(p), Valid(p), s.processes + [Published])
  {
    var p := |s.processes|;
    var s1 := System(None, s.file, s.processes + [Starting]);
    RunFirst(s, Spawn(Starting), [TryLock(p), Clear(p, true), Publish(p, Replaced, cleanups)]);
    StartedPublishes(s1, p, cleanups);
    assert s1.processes[p := Published] == s.processes + [Published];
    assert [Spawn(Starting)] + [TryLock(p), Clear(p, true), Publish(p, Replaced, cleanups)]
        == [Spawn(Starting), TryLock(p), Clear(p, true), Publish(p, Replaced, cleanups)];
  }

  lemma StartedPublishes(s: System, p: nat, cleanups: seq<NamedCleanup>)
    requires p < |s.processes| && s.processes[p].Starting? && s.lock == None && !s.file.Corrupt?
    ensures Run(s, [TryLock(p), Clear(p, true), Publish(p, Replaced, cleanups)])
      == System(Some(p), Valid(p), s.processes[p := Published])
  {
    ThreeSteps(s, TryLock(p), Clear(p, true), Publish(p, Replaced, cleanups), []);
    assert [TryLock(p), Clear(p, true), Publish(p, Replaced, cleanups)] + []
        == [TryLock(p), Clear(p, true), Publish(p, Replaced, cleanups)];
    var s2 := System(Some(p), Absent, s.processes[p := Holding][p := Cleared]);
    assert Step(Step(s, TryLock(p)), Clear(p, true)) == s2;
    assert Step(s2, Publish(p, Replaced, cleanups)) == System(Some(p), Valid(p), s2.processes[p := Published]);
    assert s2.processes[p := Published] == s.processes[p := Published];
  }

  /** A request that cannot reach the instance of a stale state recovers it: the file is gone, the
      lock free again, and the answer is that nothing runs. */
  lemma RecoveryGoesThrough(s: System)
    requires s.lock == None && s.file.Valid?
    ensures var p := |s.processes|;
      Run(s, [Spawn(Asking), Load(p), Contact(p, Unreachable), TryRecover(p), Check(p), Erase(p, true), Release(p)])
      == System(None, Absent, s.processes + [Gone(NotRunning)])
  {
    var p, e := |s.processes|, s.file.owner;
    var later := [Check(p), Erase(p, true), Release(p)];
    var sooner := [Load(p), Contact(p, Unreachable), TryRecover(p)];
    assert [Spawn(Asking), Load(p), Contact(p, Unreachable), TryRecover(p), Check(p), Erase(p, true), Release(p)]
        == [Spawn(Asking)] + (sooner + later);
    RunFirst(s, Spawn(Asking), sooner + later);
    RequestReaches(System(None, s.file, s.processes + [Asking]), p, later);
    assert (s.processes + [Asking])[p := Checking(e)] == s.processes + [Checking(e)];
    RecoveryEnds(System(Some(p), s.file, s.processes + [Checking(e)]), p);
    assert (s.processes + [Checking(e)])[p := Gone(NotRunning)] == s.processes + [Gone(NotRunning)];
  }

  lemma RequestSteps(s: System, p: nat)
    requires p < |s.processes| && s.processes[p].Asking? && s.lock == None && s.file.Valid?
    ensures Step(Step(Step(s, Load(p)), Contact(p, Unreachable)), TryRecover(p))
      == System(Some(p), s.file, s.processes[p := Checking(s.file.owner)])
  {
    var e := s.file.owner;
    var s2 := System(None, s.file, s.processes[p := Contacting(e)][p := Recovering(e)]);
    assert Step(Step(s, Load(p)), Contact(p, Unreachable)) == s2;
    assert s2.processes[p := Checking(e)] == s.processes[p := Checking(e)];
  }

  lemma RequestReaches(s: System, p: nat, later: seq<Action>)
    requires p < |s.processes| && s.processes[p].Asking? && s.lock == None && s.file.Valid?
    ensures Run(s, [Load(p), Contact(p, Unreachable), TryRecover(p)] + later)
      == Run(System(Some(p), s.file, s.processes[p := Checking(s.file.owner)]), later)
  {
    ThreeSteps(s, Load(p), Contact(p, Unreachable), TryRecover(p), later);
    RequestSteps(s, p);
  }

  lemma RecoveryEnds(s: System, p: nat)
    requires p < |s.processes| && s.processes[p].Checking? && s.lock == Some(p)
    requires s.file == Valid(s.processes[p].expected)
    ensures Run(s, [Check(p), Erase(p, true), Release(p)])
      == System(None, Absent, s.processes[p := Gone(NotRunning)])
  {
    ThreeSteps(s, Check(p), Erase(p, true), Release(p), []);
    assert [Check(p), Erase(p, true), Release(p)] + [] == [Check(p), Erase(p, true), Release(p)];
    var e := s.processes[p].expected;
    var s2 := System(Some(p), Absent, s.processes[p := Erasing(e)][p := Unlocking(NotRunning)]);
    assert Step(Step(s, Check(p)), Erase(p, true)) == s2;
    assert Step(s2, Release(p)) == System(None, Absent, s2.processes[p := Gone(NotRunning)]);
    assert s2.processes[p := Gone(NotRunning)] == s.processes[p := Gone(NotRunning)];
  }

  /** The hooks of a closing process, one after the other; whether the removal of the state works
      is given. */
  function Hooks(p: nat, todo: nat, removed: bool): seq<Action> {
    if todo == 0 then [] else [RunHook(p, removed)] + Hooks(p, todo - 1, removed)
  }

  /** A cleanup runs to its end: the lock is free and the process gone, and so is its state, if its
      removal was still to come and works. */
  lemma {:induction false} CleanupGoesThrough(s: System, p: nat, removed: bool)
    requires p < |s.processes| && s.processes[p].Closing? && Orderly(s.processes[p])
    ensures var todo := s.processes[p].todo;
      Run(s, Hooks(p, |todo|, removed))
      == System(None, if removed && InstanceState in todo then Absent else s.file, s.processes[p := Gone(Ended)])
    decreases |s.processes[p].todo|
  {
    var todo := s.processes[p].todo;
    var s' := Apply(s, RunHook(p, removed));
    RunFirst(s, RunHook(p, removed), Hooks(p, |todo| - 1, removed));
    HookKeepsOrder(s.processes[p]);
    if |todo| > 1 {
      CleanupGoesThrough(s', p, removed);
      assert todo == [todo[0]] + todo[1..];
      assert s'.processes[p := Gone(Ended)] == s.processes[p := Gone(Ended)];
    }
  }

  /** An instance that is told to stop, or whose service ends, leaves neither its state nor the
      lock; if the removal fails, the state stays and is stale. */
  lemma ShutdownGoesThrough(s: System, p: nat, cleanups: seq<NamedCleanup>, removed: bool)
    requires p < |s.processes| && s.processes[p].Published?
    ensures var n := |Acquired(cleanups)|;
      Run(s, [GiveUp(p, n, cleanups)] + Hooks(p, n, removed))
      == System(None, if removed then Absent else s.file, s.processes[p := Gone(Ended)])
  {
    var n := |Acquired(cleanups)|;
    RunFirst(s, GiveUp(p, n, cleanups), Hooks(p, n, removed));
    CleanupIsOrderly(cleanups, n);
    var s' := Apply(s, GiveUp(p, n, cleanups));
    CleanupGoesThrough(s', p, removed);
    assert s'.processes[p].todo[n - 2] == InstanceState;
    assert s'.processes[p := Gone(Ended)] == s.processes[p := Gone(Ended)];
  }

  /** After the crash of an instance the next start publishes its own state. */
  lemma CrashIsOvercome(s: System, p: nat, cleanups: seq<NamedCleanup>)
    requires p < |s.processes| && !s.processes[p].Gone? && s.lock == Some(p) && !s.file.Corrupt?
    ensures var q := |s.processes|;
      Run(s, [Crash(p)] + [Spawn(Starting), TryLock(q), Clear(q, true), Publish(q, Replaced, cleanups)])
      == System(Some(q), Valid(q), s.processes[p := Gone(Ended)] + [Published])
  {
    var q := |s.processes|;
    RunFirst(s, Crash(p), [Spawn(Starting), TryLock(q), Clear(q, true), Publish(q, Replaced, cleanups)]);
    StartGoesThrough(Apply(s, Crash(p)), cleanups);
  }
}
