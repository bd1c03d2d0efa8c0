/** Several callers of the registry at once: one of them runs the hooks, the others wait for it. */
module CleanupRuns {
  import opened Options
  import opened CleanupRegistry

  datatype Caller = Cleaning | Waiting | Returned(errors: seq<string>)

  /** The registry with the hooks called so far, the errors they gave, and every caller of Run. */
  datatype State = State(entries: seq<Hook>, run: bool, done: bool, err: seq<string>, called: seq<Hook>,
                         result: seq<string>, callers: seq<Caller>)

  const INITIAL := State([], false, false, [], [], [], [])

  datatype Action =
    | DoAdd(hook: Hook, func: bool)
    | DoEnter
    | DoCall(caller: nat)
    | DoFinish(caller: nat)
    | DoReturn(caller: nat)

  /** A waiter returns only after the channel is closed, the cleaner only after its last hook. */
  predicate Enabled(s: State, a: Action) {
    match a
    case DoAdd(_, _) => true
    case DoEnter => true
    case DoCall(i) => i < |s.callers| && s.callers[i].Cleaning? && |s.called| < |s.entries|
    case DoFinish(i) => i < |s.callers| && s.callers[i].Cleaning? && |s.called| >= |s.entries|
    case DoReturn(i) => i < |s.callers| && s.callers[i].Waiting? && s.done
  }

  function Reported(result: seq<string>, error: Option<string>): seq<string> {
    if error.Some? then result + [error.value] else result
  }

  function Apply(s: State, a: Action, act: Hook -> Option<string>): State
    requires Enabled(s, a)
  {
    match a
    case DoAdd(hook, func) => s.(entries := if func && !s.run then s.entries + [hook] else s.entries)
    case DoEnter => s.(run := true, callers := s.callers + [if s.run then Waiting else Cleaning])
    case DoCall(i) =>
      var hook := s.entries[|s.entries| - 1 - |s.called|];
      s.(called := s.called + [hook], result := Reported(s.result, act(hook)))
    case DoFinish(i) => s.(err := s.result, done := true, callers := s.callers[i := Returned(s.result)])
    case DoReturn(i) => s.(callers := s.callers[i := Returned(s.err)])
  }

  function Run(actions: seq<Action>, act: Hook -> Option<string>): State {
    if actions == [] then INITIAL
    else
      var s := Run(actions[..|actions| - 1], act);
      if Enabled(s, actions[|actions| - 1]) then Apply(s, actions[|actions| - 1], act) else s
  }

  // ---- The invariant ---------------------------------------------------------------------

  /** The hooks called are the last ones registered, last first. */
  ghost predicate Backwards(entries: seq<Hook>, called: seq<Hook>) {
    |called| <= |entries| && forall k :: 0 <= k < |called| ==> called[k] == entries[|entries| - 1 - k]
  }

  /** Before a run nothing has happened; during it the first caller cleans; after it nobody does. */
  ghost predicate Phases(s: State) {
    && (!s.run ==> s.called == [] && s.callers == [] && s.result == [])
    && (s.run ==> s.callers != [])
    && (s.done ==> s.run && |s.called| == |s.entries| && s.err == s.result)
    && forall i :: 0 <= i < |s.callers| ==>
         && (s.callers[i].Cleaning? ==> i == 0 && !s.done)
         && (i == 0 && !s.done ==> s.callers[i].Cleaning?)
         && (s.callers[i].Returned? ==> s.done && s.callers[i].errors == s.err)
  }

  ghost predicate Ok(s: State, act: Hook -> Option<string>) {
    Backwards(s.entries, s.called) && s.result == Failures(s.called, act) && Phases(s)
  }

  lemma FailuresOfMore(called: seq<Hook>, hook: Hook, act: Hook -> Option<string>)
    ensures Failures(called + [hook], act) == Reported(Failures(called, act), act(hook))
  {
    assert (called + [hook])[..|called|] == called;
  }

  lemma ApplyOk(s: State, a: Action, act: Hook -> Option<string>)
    requires Ok(s, act) && Enabled(s, a)
    ensures Ok(Apply(s, a, act), act)
  {
    if a.DoCall? {
      FailuresOfMore(s.called, s.entries[|s.entries| - 1 - |s.called|], act);
    }
  }

  lemma {:induction false} RunOk(actions: seq<Action>, act: Hook -> Option<string>)
    ensures Ok(Run(actions, act), act)
  {
    if actions != [] {
      RunOk(actions[..|actions| - 1], act);
      if Enabled(Run(actions[..|actions| - 1], act), actions[|actions| - 1]) {
        ApplyOk(Run(actions[..|actions| - 1], act), actions[|actions| - 1], act);
      }
    }
  }

  // ---- The promises ----------------------------------------------------------------------

  /** However many callers there are, the hooks are called one after the other in call order, none
      twice, by one caller. */
  lemma HooksAreCalledOnce(actions: seq<Action>, act: Hook -> Option<string>, i: nat, j: nat)
    ensures Run(actions, act).called <= CallOrder(Run(actions, act).entries)
    ensures var callers := Run(actions, act).callers;
      i < |callers| && j < |callers| && callers[i].Cleaning? && callers[j].Cleaning? ==> i == j
  {
    RunOk(actions, act);
  }

  /** Whoever returns does so after every registered hook has been called, with the errors of all
      of them. */
  lemma EveryCallerWaits(actions: seq<Action>, act: Hook -> Option<string>, i: nat)
    requires i < |Run(actions, act).callers| && Run(actions, act).callers[i].Returned?
    ensures var s := Run(actions, act);
      && s.called == CallOrder(s.entries)
      && s.callers[i].errors == Failures(CallOrder(s.entries), act)
  {
    RunOk(actions, act);
  }

  /** Once a run has begun, no hook is added. */
  lemma {:induction false} NothingIsAdded(actions: seq<Action>, more: seq<Action>, act: Hook -> Option<string>)
    requires Run(actions, act).run
    ensures Run(actions + more, act).run && Run(actions + more, act).entries == Run(actions, act).entries
  {
    if more == [] {
      assert actions + more == actions;
    } else {
      NothingIsAdded(actions, more[..|more| - 1], act);
      assert (actions + more)[..|actions + more| - 1] == actions + more[..|more| - 1];
    }
  }

  // ---- Nobody waits for ever -------------------------------------------------------------

  lemma RunOneMore(actions: seq<Action>, a: Action, act: Hook -> Option<string>)
    requires Enabled(Run(actions, act), a)
    ensures Run(actions + [a], act) == Apply(Run(actions, act), a, act)
  {
    assert (actions + [a])[..|actions|] == actions;
  }

  /** What is still to do before everybody can return. */
  function Ahead(s: State): nat {
    if s.done || |s.called| > |s.entries| then 0 else |s.entries| - |s.called| + 1
  }

  /** The first caller can take a step as long as the run is not over. */
  lemma CleanerGoesOn(actions: seq<Action>, act: Hook -> Option<string>) returns (a: Action)
    requires Run(actions, act).run && !Run(actions, act).done
    ensures Run(actions + [a], act).run && |Run(actions + [a], act).callers| == |Run(actions, act).callers|
    ensures Ahead(Run(actions + [a], act)) < Ahead(Run(actions, act))
  {
    RunOk(actions, act);
    var s := Run(actions, act);
    a := if |s.called| < |s.entries| then DoCall(0) else DoFinish(0);
    RunOneMore(actions, a, act);
  }

  /** In every run, everybody who called can still return, by steps of the first caller and one of
      their own. */
  lemma {:induction false} EverybodyReturns(actions: seq<Action>, act: Hook -> Option<string>, i: nat)
    returns (more: seq<Action>)
    requires i < |Run(actions, act).callers|
    ensures i < |Run(actions + more, act).callers| && Run(actions + more, act).callers[i].Returned?
    decreases Ahead(Run(actions, act))
  {
    RunOk(actions, act);
    var s := Run(actions, act);
    if s.callers[i].Returned? {
      more := [];
      assert actions + more == actions;
    } else if s.done {
      more := [DoReturn(i)];
      RunOneMore(actions, DoReturn(i), act);
    } else {
      var a := CleanerGoesOn(actions, act);
      var rest := EverybodyReturns(actions + [a], act, i);
      more := [a] + rest;
      assert actions + more == actions + [a] + rest;
    }
  }
}
