/** The registry of cleanup hooks and the order in which the foreground process fills it. */
module CleanupRegistry {
  import opened Options

  datatype Stage = AfterHttp | BeforeHttp | UnknownStage

  /** What a hook releases. */
  datatype Hook = InstanceLock | InstanceState | Listener | HttpServer | Application(name: string, stage: Stage)

  /** A cleanup returned by the application; `func` is false when its function is nil. */
  datatype NamedCleanup = NamedCleanup(name: string, stage: Stage, func: bool)

  /** The order in which registered hooks are called: the k-th call is of the k-th hook from the
      end. */
  function CallOrder(hooks: seq<Hook>): (order: seq<Hook>)
    ensures |order| == |hooks|
    ensures forall k :: 0 <= k < |hooks| ==> order[k] == hooks[|hooks| - 1 - k]
  {
    seq(|hooks|, k requires 0 <= k < |hooks| => hooks[|hooks| - 1 - k])
  }

  lemma CallOrderOfMore(hooks: seq<Hook>, more: seq<Hook>)
    ensures CallOrder(hooks + more) == CallOrder(more) + CallOrder(hooks)
  {
  }

  /** The errors of the hooks, in the order given; `act` tells what each hook returns. */
  function Failures(hooks: seq<Hook>, act: Hook -> Option<string>): seq<string> {
    if hooks == [] then []
    else
      var n := |hooks| - 1;
      Failures(hooks[..n], act) + if act(hooks[n]).Some? then [act(hooks[n]).value] else []
  }

  /** A hook adds its own error or nothing. */
  lemma FailureOfOne(hook: Hook, act: Hook -> Option<string>)
    ensures Failures([hook], act) == match act(hook) case None => [] case Some(error) => [error]
  {
    assert [hook][..0] == [];
  }

  /** Every failure is reported and nothing else, in order: those of some hooks and then those of
      the others. */
  lemma {:induction false} FailuresExactly(hooks: seq<Hook>, more: seq<Hook>, act: Hook -> Option<string>)
    ensures Failures(hooks + more, act) == Failures(hooks, act) + Failures(more, act)
  {
    if more == [] {
      assert hooks + more == hooks;
    } else {
      var n := |more| - 1;
      FailuresExactly(hooks, more[..n], act);
      assert (hooks + more)[..|hooks| + n] == hooks + more[..n];
      assert (hooks + more)[|hooks| + n] == more[n];
    }
  }

  class Registry {
    var entries: seq<Hook>
    var run: bool
    var err: seq<string>
    /** The hooks that have been called, in order. */
    ghost var called: seq<Hook>

    ghost predicate Valid()
      reads this
    {
      if run then called == CallOrder(entries) else called == [] && err == []
    }

    constructor ()
      ensures Valid() && entries == [] && !run
    {
      entries, run, err, called := [], false, [], [];
    }

    method Add(hook: Hook, func: bool) returns (added: bool)
      requires Valid()
      modifies `entries
      ensures Valid() && added == (func && !run)
      ensures entries == if added then old(entries) + [hook] else old(entries)
    {
      if !func || run {
        return false;
      }
      entries := entries + [hook];
      return true;
    }

    /** Every hook is called once, the last acquired first, whatever the others return; all errors
        are kept. Another run calls nothing and returns the same errors. */
    method Run(act: Hook -> Option<string>) returns (result: seq<string>)
      requires Valid()
      modifies this
      ensures Valid() && run && entries == old(entries) && result == err
      ensures !old(run) ==> result == Failures(CallOrder(entries), act)
      ensures old(run) ==> result == old(err) && called == old(called)
    {
      if run {
        return err;
      }
      run := true;
      result := [];
      var index := |entries|;
      while index > 0
        invariant 0 <= index <= |entries| && run && entries == old(entries)
        invariant |called| == |entries| - index
        invariant forall k :: 0 <= k < |called| ==> called[k] == entries[|entries| - 1 - k]
        invariant result == Failures(called, act)
      {
        index := index - 1;
        var hook := entries[index];
        var error := act(hook);
        if error.Some? {
          result := result + [error.value];
        }
        assert (called + [hook])[..|called|] == called;
        called := called + [hook];
      }
      assert called == CallOrder(entries);
      err := result;
    }
  }

  // ---- Filling the registry --------------------------------------------------------------

  /** The hooks of a stage, in the order of the application's list, up to the first cleanup that
      cannot be registered. */
  function OfStage(cleanups: seq<NamedCleanup>, stage: Stage): seq<Hook> {
    if cleanups == [] || cleanups[0].stage == UnknownStage then []
    else if cleanups[0].stage != stage then OfStage(cleanups[1..], stage)
    else if !cleanups[0].func then []
    else [Application(cleanups[0].name, stage)] + OfStage(cleanups[1..], stage)
  }

  ghost predicate Registrable(cleanups: seq<NamedCleanup>, stage: Stage) {
    forall i :: 0 <= i < |cleanups| ==>
      cleanups[i].stage != UnknownStage && (cleanups[i].stage == stage ==> cleanups[i].func)
  }

  /** When all can be registered, they are exactly the application's cleanups of the stage, in the
      order of its list: those of a list and then of another follow each other. */
  lemma {:induction false} OfStageExactly(cleanups: seq<NamedCleanup>, more: seq<NamedCleanup>, stage: Stage)
    requires Registrable(cleanups, stage)
    ensures OfStage(cleanups + more, stage) == OfStage(cleanups, stage) + OfStage(more, stage)
    ensures forall c: NamedCleanup :: c.stage != UnknownStage && (c.stage == stage ==> c.func) ==>
      OfStage([c], stage) == if c.stage == stage then [Application(c.name, stage)] else []
  {
    if cleanups == [] {
      assert cleanups + more == more;
    } else {
      assert Registrable(cleanups[1..], stage) by {
        assert forall i :: 0 <= i < |cleanups[1..]| ==> cleanups[1..][i] == cleanups[i + 1];
      }
      OfStageExactly(cleanups[1..], more, stage);
      assert (cleanups + more)[1..] == cleanups[1..] + more;
    }
  }

  /** `registerServiceCleanups`. */
  method RegisterServiceCleanups(registry: Registry, cleanups: seq<NamedCleanup>, stage: Stage) returns (ok: bool)
    requires registry.Valid() && !registry.run && stage != UnknownStage
    modifies registry`entries
    ensures registry.Valid() && registry.entries == old(registry.entries) + OfStage(cleanups, stage)
    ensures ok <==> Registrable(cleanups, stage)
  {
    var i := 0;
    while i < |cleanups|
      invariant 0 <= i <= |cleanups| && registry.Valid() && !registry.run
      invariant registry.entries + OfStage(cleanups[i..], stage) == old(registry.entries) + OfStage(cleanups, stage)
      invariant Registrable(cleanups[..i], stage)
    {
      assert cleanups[i..][0] == cleanups[i] && cleanups[i..][1..] == cleanups[i + 1..];
      if cleanups[i].stage == UnknownStage {
        return false;
      }
      if cleanups[i].stage == stage {
        var added := registry.Add(Application(cleanups[i].name, stage), cleanups[i].func);
        if !added {
          return false;
        }
      }
      i := i + 1;
    }
    assert cleanups[..i] == cleanups;
    return true;
  }

  /** All hooks a process registers when nothing goes wrong, in the order of acquisition. */
  function Acquired(cleanups: seq<NamedCleanup>): seq<Hook> {
    [InstanceLock, InstanceState, Listener] + OfStage(cleanups, AfterHttp)
    + [HttpServer] + OfStage(cleanups, BeforeHttp)
  }

  /** How far a start gets before it fails; `Serving` when it does not. */
  datatype Reach = StateUnusable | NoPort | BuildFailed | Serving

  /** The registrations of `RunForeground`, from the lock to the last hook. Wherever it stops, what
      is registered is the beginning of the full list. */
  method Register(cleanups: seq<NamedCleanup>, reach: Reach) returns (registry: Registry)
    ensures fresh(registry) && registry.Valid() && !registry.run
    ensures registry.entries <= Acquired(cleanups) && [InstanceLock] <= registry.entries
    ensures InstanceState in registry.entries <==> reach != StateUnusable
    ensures HttpServer in registry.entries <==> reach == Serving && Registrable(cleanups, AfterHttp)
    ensures reach == Serving && Registrable(cleanups, AfterHttp) ==> registry.entries == Acquired(cleanups)
  {
    registry := new Registry();
    var _ := registry.Add(InstanceLock, true);
    if reach == StateUnusable {
      return;
    }
    var _ := registry.Add(InstanceState, true);
    if reach == NoPort {
      return;
    }
    var _ := registry.Add(Listener, true);
    if reach == BuildFailed {
      return;
    }
    var ok := RegisterServiceCleanups(registry, cleanups, AfterHttp);
    assert registry.entries == [InstanceLock, InstanceState, Listener] + OfStage(cleanups, AfterHttp);
    NoServer(cleanups, AfterHttp);
    if !ok {
      return;
    }
    var _ := registry.Add(HttpServer, true);
    var _ := RegisterServiceCleanups(registry, cleanups, BeforeHttp);
    assert registry.entries == Acquired(cleanups);
    assert registry.entries[1] == InstanceState && registry.entries[3 + |OfStage(cleanups, AfterHttp)|] == HttpServer;
  }

  lemma {:induction false} NoServer(cleanups: seq<NamedCleanup>, stage: Stage)
    ensures forall i :: 0 <= i < |OfStage(cleanups, stage)| ==>
      OfStage(cleanups, stage)[i].Application? && OfStage(cleanups, stage)[i].stage == stage
  {
    if cleanups != [] {
      NoServer(cleanups[1..], stage);
    }
  }

  // ---- The order of a shutdown -----------------------------------------------------------

  /** Wherever a start stopped, its cleanup releases the lock last of all and attempts to remove
      the instance state right before. */
  lemma LockGoesLast(cleanups: seq<NamedCleanup>, registered: seq<Hook>)
    requires registered <= Acquired(cleanups) && registered != []
    ensures var order, last := CallOrder(registered), |registered| - 1;
      && order[last] == InstanceLock && (forall k :: 0 <= k < last ==> order[k] != InstanceLock)
      && (last > 0 ==> order[last - 1] == InstanceState)
      && (forall k :: 0 <= k < last - 1 ==> order[k] != InstanceState)
  {
    NoServer(cleanups, AfterHttp);
    NoServer(cleanups, BeforeHttp);
    assert forall i :: 0 <= i < |registered| ==> registered[i] == Acquired(cleanups)[i];
  }

  /** A full shutdown ends the streams before the server, the server before the storage, and both
      before listener, state and lock. */
  lemma ShutdownOrder(cleanups: seq<NamedCleanup>)
    ensures CallOrder(Acquired(cleanups)) ==
      CallOrder(OfStage(cleanups, BeforeHttp)) + [HttpServer] + CallOrder(OfStage(cleanups, AfterHttp))
      + [Listener, InstanceState, InstanceLock]
  {
    var base, after := [InstanceLock, InstanceState, Listener], OfStage(cleanups, AfterHttp);
    CallOrderOfMore(base + after + [HttpServer], OfStage(cleanups, BeforeHttp));
    CallOrderOfMore(base + after, [HttpServer]);
    CallOrderOfMore(base, after);
    assert CallOrder(base) == [Listener, InstanceState, InstanceLock];
    assert CallOrder([HttpServer]) == [HttpServer];
  }
}
