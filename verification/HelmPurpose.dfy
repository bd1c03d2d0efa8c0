/** What Helm storage calls are for: every write carries the value its caller passed, and a call that
    nobody gets in the way of goes through. */
module HelmPurpose {
  import opened Options
  import opened HelmStorage
  import opened HelmGuarantees

  // ---- What is written -------------------------------------------------------------------

  /** The step that started a call. */
  function Starter(s: System, actions: seq<Action>, i: nat): Option<Action> {
    if actions == [] then None
    else
      var n := |actions| - 1;
      if i < |Run(s, actions[..n]).calls| then Starter(s, actions[..n], i) else Some(actions[n])
  }

  /** The caller asked this driver to create or update this key with this body. */
  predicate Asked(a: Action, d: nat, key: Key, body: string) {
    (a.DoCreate? || a.DoUpdate?) && a.driver == d && a.key == key && a.value.key == key && a.value.body == body
  }

  /** The caller asked for the revision after the guarded one. */
  predicate AskedNext(guards: seq<Option<Guard>>, a: Action, d: nat, body: string) {
    a.DoCreate? && d < |guards| && guards[d].Some? && Asked(a, d, Next(guards[d].value.key), body)
  }

  /** A call does what its caller asked for. */
  ghost predicate Serves(guards: seq<Option<Guard>>, call: Call, a: Action, writes: seq<Write>) {
    match call
    case Listing(d, body) => AskedNext(guards, a, d, body)
    case Reading(d, key, next) => if next.Some? then AskedNext(guards, a, d, next.value) else a == DoGet(d, key)
    case Fetched(d, key, _, next) => if next.Some? then AskedNext(guards, a, d, next.value) else a == DoGet(d, key)
    case Creating(d, body) => AskedNext(guards, a, d, body)
    case Updating(d, key, _, body) => a.DoUpdate? && Asked(a, d, key, body)
    case Saved(d, key, _, write) => write < |writes| && Authored(writes[write], a)
    case Done(outcome) =>
      && (outcome.ReadBack? ==> a.DoGet? && a.key == outcome.key)
      && (outcome.Written? ==> outcome.write < |writes| && Authored(writes[outcome.write], a))
  }

  /** The write is the one asked for. */
  ghost predicate Authored(w: Write, a: Action) {
    Asked(a, w.driver, w.key, w.after.body) && (a.DoCreate? <==> w.before.None?)
  }

  /** A step takes a call on in its purpose. */
  lemma StepServes(s: System, a: Action, i: nat, starter: Action)
    requires Enabled(s, a) && i < |s.calls| && Serves(s.guards, s.calls[i], starter, s.writes)
    ensures i < |Apply(s, a).calls|
    ensures Serves(s.guards, Apply(s, a).calls[i], starter, Apply(s, a).writes)
  {
  }

  lemma StartServes(s: System, a: Action)
    requires Enabled(s, a) && |Apply(s, a).calls| > |s.calls|
    ensures |Apply(s, a).calls| == |s.calls| + 1
    ensures Serves(s.guards, Apply(s, a).calls[|s.calls|], a, Apply(s, a).writes)
  {
  }

  /** A new write is by the call that the step belongs to. */
  lemma NewWriteIsCalled(s: System, a: Action)
    requires Enabled(s, a) && |Apply(s, a).writes| > |s.writes|
    ensures (a.DoServerCreate? || a.DoServerUpdate?) && |Apply(s, a).writes| == |s.writes| + 1
    ensures Apply(s, a).writes[|s.writes|].call == a.call < |s.calls|
    ensures Apply(s, a).calls[a.call].Saved? && Apply(s, a).calls[a.call].write == |s.writes|
  {
  }

  lemma GuardsStay(s: System, a: Action)
    requires Enabled(s, a)
    ensures Apply(s, a).guards == s.guards && s.writes <= Apply(s, a).writes && |s.calls| <= |Apply(s, a).calls|
  {
  }

  lemma {:induction false} CallsServe(s: System, actions: seq<Action>, i: nat)
    requires Initial(s) && i < |Run(s, actions).calls|
    ensures Starter(s, actions, i).Some?
    ensures Serves(s.guards, Run(s, actions).calls[i], Starter(s, actions, i).value, Run(s, actions).writes)
    ensures Run(s, actions).guards == s.guards
  {
    if actions != [] {
      var n := |actions| - 1;
      var r, a := Run(s, actions[..n]), actions[n];
      GuardsNeverChange(s, actions[..n]);
      if i < |r.calls| {
        CallsServe(s, actions[..n], i);
        if Enabled(r, a) {
          StepServes(r, a, i, Starter(s, actions[..n], i).value);
        }
      } else {
        StartServes(r, a);
      }
      GuardsNeverChange(s, actions);
    }
  }

  lemma {:induction false} GuardsNeverChange(s: System, actions: seq<Action>)
    ensures Run(s, actions).guards == s.guards
  {
    if actions != [] {
      GuardsNeverChange(s, actions[..|actions| - 1]);
      if Enabled(Run(s, actions[..|actions| - 1]), actions[|actions| - 1]) {
        GuardsStay(Run(s, actions[..|actions| - 1]), actions[|actions| - 1]);
      }
    }
  }

  /** In every run, every write stores the body that the caller of its call passed, under the key and
      through the driver it was passed to; a create is a create and an update an update. */
  lemma {:induction false} WritesCarryTheValue(s: System, actions: seq<Action>, w: nat)
    requires Initial(s) && w < |Run(s, actions).writes|
    ensures var write := Run(s, actions).writes[w];
      && write.call < |Run(s, actions).calls| && Starter(s, actions, write.call).Some?
      && Authored(write, Starter(s, actions, write.call).value)
  {
    if actions != [] {
      var n := |actions| - 1;
      var r, a := Run(s, actions[..n]), actions[n];
      if Enabled(r, a) {
        GuardsStay(r, a);
      }
      if w < |r.writes| {
        WritesCarryTheValue(s, actions[..n], w);
      } else {
        NewWriteIsCalled(r, a);
        CallsServe(s, actions, a.call);
      }
    }
  }

  // ---- Each decision ---------------------------------------------------------------------

  /** A create is admitted exactly once, for the next revision of the guarded release; an update only
      after it, for a record the driver has seen, up to that revision. */
  lemma AdmittedExactly(s: System, d: nat, key: Key, value: Value)
    requires d < |s.drivers| == |s.guards|
    ensures var guard, driver := s.guards[d], s.drivers[d];
      && Apply(s, DoCreate(d, key, value)).calls[|s.calls|] ==
           (if guard.Some? && !driver.created && value.inNamespace && key == value.key
               && value.key == Key(guard.value.key.name, guard.value.key.revision + 1)
            then Listing(d, value.body) else Done(Failed))
      && Apply(s, DoUpdate(d, key, value)).calls[|s.calls|] ==
           (if guard.Some? && driver.created && key in driver.seen && value.inNamespace && key == value.key
               && value.key.name == guard.value.key.name && value.key.revision <= guard.value.key.revision + 1
            then Updating(d, key, driver.seen[key], value.body) else Done(Failed))
  {
  }

  /** A read is refused exactly when the record is not the planned one, before the create, or not
      the one seen before. */
  lemma AcceptedExactly(s: System, i: nat)
    requires Placed(s, i) && s.calls[i].Fetched?
    ensures Enabled(s, DoAccept(i))
    ensures var call, s' := s.calls[i], Apply(s, DoAccept(i));
      var guard, driver, id := s.guards[call.driver], s.drivers[call.driver], call.record.id;
      if (guard.Some? && call.key == guard.value.key && !driver.created && id != guard.value.id)
         || (call.key in driver.seen && driver.seen[call.key] != id)
      then s' == s.(calls := s.calls[i := Done(Failed)])
      else
        && s'.drivers == s.drivers[call.driver := driver.(seen := driver.seen[call.key := id])]
        && s'.calls == s.calls[i := if call.next.Some? then Creating(call.driver, call.next.value)
                                    else Done(ReadBack(call.key, call.record))]
  {
  }

  /** The server creates exactly what is not there and replaces exactly what has not changed. */
  lemma ServedExactly(s: System, i: nat)
    requires Placed(s, i)
    ensures s.calls[i].Creating? && s.guards[s.calls[i].driver].Some? ==>
      var key := Next(s.guards[s.calls[i].driver].value.key);
      Apply(s, DoServerCreate(i)).records ==
        if key in s.records then s.records
        else s.records[key := Record(Identity(s.clock, s.clock), s.calls[i].body)]
    ensures s.calls[i].Updating? ==>
      var key := s.calls[i].key;
      Apply(s, DoServerUpdate(i)).records ==
        if key in s.records && s.records[key].id == s.calls[i].id
        then s.records[key := Record(Identity(s.records[key].id.uid, s.clock), s.calls[i].body)] else s.records
  {
  }

  // ---- Calls that go through -------------------------------------------------------------

  lemma RunStep(s: System, actions: seq<Action>, a: Action)
    requires Enabled(Run(s, actions), a)
    ensures Run(s, actions + [a]) == Apply(Run(s, actions), a)
  {
    assert (actions + [a])[..|actions|] == actions;
  }

  /** A record that is as planned and as seen is read. */
  lemma ReadGoesThrough(s: System, d: nat, key: Key)
    requires d < |s.drivers| == |s.guards| && key in s.records
    requires s.guards[d].Some? && key == s.guards[d].value.key && !s.drivers[d].created ==>
      s.records[key].id == s.guards[d].value.id
    requires key in s.drivers[d].seen ==> s.drivers[d].seen[key] == s.records[key].id
    ensures var i := |s.calls|;
      Run(s, [DoGet(d, key)] + [DoFetch(i)] + [DoAccept(i)]) ==
        s.(calls := s.calls + [Done(ReadBack(key, s.records[key]))],
           drivers := s.drivers[d := s.drivers[d].(seen := s.drivers[d].seen[key := s.records[key].id])])
  {
    var i := |s.calls|;
    assert [] + [DoGet(d, key)] == [DoGet(d, key)];
    RunStep(s, [], DoGet(d, key));
    RunStep(s, [DoGet(d, key)], DoFetch(i));
    RunStep(s, [DoGet(d, key)] + [DoFetch(i)], DoAccept(i));
  }

  /** The steps of a create that nobody gets in the way of. */
  function CreateSteps(d: nat, key: Key, value: Value, i: nat, latest: int): seq<Action> {
    CheckSteps(d, key, value, i, latest) + [DoServerCreate(i)] + [DoRecord(i)]
  }

  function CheckSteps(d: nat, key: Key, value: Value, i: nat, latest: int): seq<Action> {
    [DoCreate(d, key, value)] + [DoList(i, latest)] + [DoFetch(i)] + [DoAccept(i)]
  }

  /** A driver may create the revision after its guard. */
  ghost predicate Ready(s: System, d: nat) {
    && d < |s.drivers| == |s.guards| && s.guards[d].Some? && !s.drivers[d].created
    && var guard, driver := s.guards[d].value, s.drivers[d];
    && guard.key in s.records && s.records[guard.key].id == guard.id
    && (guard.key in driver.seen ==> driver.seen[guard.key] == guard.id)
    && Next(guard.key) !in s.records
  }

  /** Then the record is stored with the body passed, under a fresh identity, and the driver knows. */
  lemma CreateGoesThrough(s: System, d: nat, body: string)
    requires Ready(s, d)
    ensures var guard := s.guards[d].value;
      var key := Next(guard.key);
      var s' := Run(s, CreateSteps(d, key, Value(key, true, body), |s.calls|, guard.key.revision));
      && s'.records == s.records[key := Record(Identity(s.clock, s.clock), body)]
      && s'.calls == s.calls + [Done(Written(|s.writes|))]
      && |s'.drivers| == |s.drivers| && s'.drivers[d].created && key in s'.drivers[d].seen
      && s'.drivers[d].seen[key] == Identity(s.clock, s.clock)
  {
    var guard, i := s.guards[d].value, |s.calls|;
    var key := Next(guard.key);
    var checks := CheckSteps(d, key, Value(key, true, body), i, guard.key.revision);
    ChecksGoThrough(s, d, body);
    CreateEnds(Run(s, checks), i, d, body);
    RunStep(s, checks, DoServerCreate(i));
    RunStep(s, checks + [DoServerCreate(i)], DoRecord(i));
  }

  /** The first half: the call is admitted, the latest revision is the guarded one, and that is still
      as planned. */
  lemma ChecksGoThrough(s: System, d: nat, body: string)
    requires Ready(s, d)
    ensures var guard := s.guards[d].value;
      var key := Next(guard.key);
      Run(s, CheckSteps(d, key, Value(key, true, body), |s.calls|, guard.key.revision)) ==
        s.(calls := s.calls + [Creating(d, body)],
           drivers := s.drivers[d := s.drivers[d].(seen := s.drivers[d].seen[guard.key := guard.id])])
  {
    var guard, i := s.guards[d].value, |s.calls|;
    var key := Next(guard.key);
    var one := [DoCreate(d, key, Value(key, true, body))];
    var two := one + [DoList(i, guard.key.revision)];
    assert [] + one == one;
    RunStep(s, [], one[0]);
    RunStep(s, one, DoList(i, guard.key.revision));
    RunStep(s, two, DoFetch(i));
    assert Run(s, two + [DoFetch(i)]).calls == s.calls + [Fetched(d, guard.key, s.records[guard.key], Some(body))];
    RunStep(s, two + [DoFetch(i)], DoAccept(i));
  }

  /** The second half of it: the server stores the record and the driver takes its answer down. */
  lemma CreateEnds(s: System, i: nat, d: nat, body: string)
    requires i < |s.calls| && s.calls[i] == Creating(d, body) && d < |s.drivers| == |s.guards|
    requires s.guards[d].Some? && Next(s.guards[d].value.key) !in s.records
    ensures Enabled(s, DoServerCreate(i)) && Enabled(Apply(s, DoServerCreate(i)), DoRecord(i))
    ensures var key, s' := Next(s.guards[d].value.key), Apply(Apply(s, DoServerCreate(i)), DoRecord(i));
      && s'.records == s.records[key := Record(Identity(s.clock, s.clock), body)]
      && s'.calls == s.calls[i := Done(Written(|s.writes|))]
      && |s'.drivers| == |s.drivers| && s'.drivers[d].created && key in s'.drivers[d].seen
      && s'.drivers[d].seen[key] == Identity(s.clock, s.clock)
  {
  }

  /** An update of a record that has not changed since the driver saw it stores the body passed. */
  lemma UpdateGoesThrough(s: System, d: nat, key: Key, body: string)
    requires d < |s.drivers| == |s.guards| && s.guards[d].Some? && s.drivers[d].created
    requires key in s.drivers[d].seen && key in s.records && s.drivers[d].seen[key] == s.records[key].id
    requires key.name == s.guards[d].value.key.name && key.revision <= s.guards[d].value.key.revision + 1
    ensures var i := |s.calls|;
      var s' := Run(s, [DoUpdate(d, key, Value(key, true, body))] + [DoServerUpdate(i)] + [DoRecord(i)]);
      var id := Identity(s.records[key].id.uid, s.clock);
      && s'.records == s.records[key := Record(id, body)] && s'.calls == s.calls + [Done(Written(|s.writes|))]
      && |s'.drivers| == |s.drivers| && key in s'.drivers[d].seen && s'.drivers[d].seen[key] == id
  {
    var i, update := |s.calls|, DoUpdate(d, key, Value(key, true, body));
    assert [] + [update] == [update];
    RunStep(s, [], update);
    var begun := Run(s, [update]);
    assert begun == s.(calls := s.calls + [Updating(d, key, s.drivers[d].seen[key], body)]);
    UpdateEnds(begun, i, d, key, body);
    RunStep(s, [update], DoServerUpdate(i));
    RunStep(s, [update] + [DoServerUpdate(i)], DoRecord(i));
  }

  lemma UpdateEnds(s: System, i: nat, d: nat, key: Key, body: string)
    requires i < |s.calls| && d < |s.drivers| == |s.guards| && key in s.records
    requires s.calls[i] == Updating(d, key, s.records[key].id, body)
    ensures Enabled(s, DoServerUpdate(i)) && Enabled(Apply(s, DoServerUpdate(i)), DoRecord(i))
    ensures var s', id := Apply(Apply(s, DoServerUpdate(i)), DoRecord(i)), Identity(s.records[key].id.uid, s.clock);
      && s'.records == s.records[key := Record(id, body)] && s'.calls == s.calls[i := Done(Written(|s.writes|))]
      && |s'.drivers| == |s.drivers| && key in s'.drivers[d].seen && s'.drivers[d].seen[key] == id
  {
  }
}
