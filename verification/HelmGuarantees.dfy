/** What holds of a release in every run of any number of drivers: no lost update, one create per
    revision, no gaps. */
module HelmGuarantees {
  import opened Options
  import opened HelmStorage

  // ---- Record names ----------------------------------------------------------------------

  /** `helmKey`. */
  function RecordName(key: Key, decimal: int -> string): string {
    "sh.helm.release.v1." + key.name + ".v" + decimal(key.revision)
  }

  /** The last dot decides where the numeral starts. */
  lemma LastDot(a: string, u: string, b: string, w: string)
    requires '.' !in u && '.' !in w && a + "." + u == b + "." + w
    ensures a == b && u == w
  {
    var s, t := a + "." + u, b + "." + w;
    assert s[|a|] == '.' && t[|b|] == '.';
    assert a == s[..|a|] && b == t[..|b|];
    assert u == s[|a| + 1..] && w == t[|b| + 1..];
  }

  /** Records of different releases or revisions have different names. */
  lemma RecordNamesAreDistinct(k: Key, m: Key, decimal: int -> string)
    requires '.' !in decimal(k.revision) && '.' !in decimal(m.revision)
    requires decimal(k.revision) == decimal(m.revision) ==> k.revision == m.revision
    ensures RecordName(k, decimal) == RecordName(m, decimal) <==> k == m
  {
    if RecordName(k, decimal) == RecordName(m, decimal) {
      var p := "sh.helm.release.v1.";
      var u, w := "v" + decimal(k.revision), "v" + decimal(m.revision);
      assert RecordName(k, decimal) == (p + k.name) + "." + u && RecordName(m, decimal) == (p + m.name) + "." + w;
      LastDot(p + k.name, u, p + m.name, w);
      assert k.name == (p + k.name)[|p|..] && m.name == (p + m.name)[|p|..];
      assert decimal(k.revision) == u[1..] && decimal(m.revision) == w[1..];
    }
  }

  // ---- Every run -------------------------------------------------------------------------

  /** Any records without gaps, any number of drivers that have not done anything yet. */
  ghost predicate Initial(s: System) {
    && Server(s.records, s.clock, s.archive) && Newest(s.records, s.archive) && Contiguous(s.records.Keys)
    && |s.guards| == |s.drivers| && (forall d :: 0 <= d < |s.drivers| ==> s.drivers[d] == Driver(false, map[], {}))
    && s.calls == [] && s.writes == [] && s.creator == map[] && s.replaced == map[]
  }

  lemma InitialOk(s: System)
    requires Initial(s)
    ensures Ok(s)
  {
  }

  lemma {:induction false} RunOk(s: System, actions: seq<Action>)
    requires Initial(s)
    ensures Ok(Run(s, actions))
  {
    if actions == [] {
      InitialOk(s);
    } else {
      var n := |actions| - 1;
      RunOk(s, actions[..n]);
      if Enabled(Run(s, actions[..n]), actions[n]) {
        ApplyOk(Run(s, actions[..n]), actions[n]);
      }
    }
  }

  // ---- Revisions only grow ---------------------------------------------------------------

  lemma CreateGrows(s: System, i: nat, key: Key)
    requires Server(s.records, s.clock, s.archive) && Newest(s.records, s.archive)
    requires Replacements(s.records, s.archive, s.replaced) && Creators(s.creator, s.writes, s.records)
    requires Enabled(s, DoServerCreate(i)) && key !in s.records
    ensures Grown(s.records, Create(s, i, key).records, s.archive, Create(s, i, key).archive)
  {
    CreateServerOk(s, i, key);
  }

  lemma ApplyGrows(s: System, a: Action)
    requires Ok(s) && Enabled(s, a)
    ensures Grown(s.records, Apply(s, a).records, s.archive, Apply(s, a).archive) && s.writes <= Apply(s, a).writes
  {
    if a.DoServerCreate? {
      var goal := Goal(s.guards[s.calls[a.call].driver]);
      if goal.Some? && goal.value !in s.records {
        CreateGrows(s, a.call, goal.value);
      }
    } else if a.DoServerUpdate? {
      if s.calls[a.call].key in s.records && s.records[s.calls[a.call].key].id == s.calls[a.call].id {
        ReplaceServerOk(s, a.call);
      }
    }
  }

  /** Records are never removed and never change their UID, versions only rise, and what was
      written stays written. */
  lemma {:induction false} RecordsOnlyGrow(s: System, actions: seq<Action>, n: nat)
    requires Initial(s) && n <= |actions|
    ensures var before, after := Run(s, actions[..n]), Run(s, actions);
      Grown(before.records, after.records, before.archive, after.archive) && before.writes <= after.writes
  {
    if n == |actions| {
      assert actions[..n] == actions;
    } else {
      var m := |actions| - 1;
      RecordsOnlyGrow(s, actions[..m], n);
      assert actions[..m][..n] == actions[..n];
      RunOk(s, actions[..m]);
      if Enabled(Run(s, actions[..m]), actions[m]) {
        ApplyGrows(Run(s, actions[..m]), actions[m]);
      }
    }
  }

  /** At every moment the revisions of a release are a range without gaps. */
  lemma RevisionsStayContiguous(s: System, actions: seq<Action>, a: Key, b: Key, r: int)
    requires Initial(s)
    requires a in Run(s, actions).records && b in Run(s, actions).records && a.name == b.name
      && a.revision <= r <= b.revision
    ensures Key(a.name, r) in Run(s, actions).records
  {
    RunOk(s, actions);
    assert a in Run(s, actions).records.Keys && b in Run(s, actions).records.Keys;
    assert Key(a.name, r) in Run(s, actions).records.Keys;
  }

  // ---- One create per revision -----------------------------------------------------------

  /** The call succeeded in creating the key. */
  ghost predicate Created(s: System, i: nat, key: Key) {
    i < |s.calls| && s.calls[i].Done? && s.calls[i].outcome.Written?
    && s.calls[i].outcome.write < |s.writes|
    && s.writes[s.calls[i].outcome.write].before.None? && s.writes[s.calls[i].outcome.write].key == key
  }

  /** Of all calls of all drivers, at most one ever succeeds in creating a revision, and it is one
      of a driver guarded on the revision before. */
  lemma OneCreatePerRevision(s: System, actions: seq<Action>, i: nat, j: nat, key: Key)
    requires Initial(s) && Created(Run(s, actions), i, key) && Created(Run(s, actions), j, key)
    ensures i == j
    ensures var r := Run(s, actions);
      var w := r.writes[r.calls[i].outcome.write];
      w.driver < |r.guards| && r.guards[w.driver].Some? && key == Next(r.guards[w.driver].value.key)
  {
    RunOk(s, actions);
    var r := Run(s, actions);
    var v, w := r.calls[i].outcome.write, r.calls[j].outcome.write;
    assert WriteOk(r.writes[v], v, r.guards, |r.calls|, r.archive, r.creator, r.replaced);
    assert WriteOk(r.writes[w], w, r.guards, |r.calls|, r.archive, r.creator, r.replaced);
    assert CallOk(r.calls[i], i, r.guards, r.drivers, r.records, r.archive, r.writes);
    assert CallOk(r.calls[j], j, r.guards, r.drivers, r.records, r.archive, r.writes);
  }

  /** A version is overwritten at most once. */
  lemma OneOverwritePerVersion(s: System, actions: seq<Action>, v: nat, w: nat)
    requires Initial(s)
    requires var writes := Run(s, actions).writes;
      v < |writes| && w < |writes| && writes[v].before.Some? && writes[v].before == writes[w].before
    ensures v == w
  {
    RunOk(s, actions);
    var r := Run(s, actions);
    assert WriteOk(r.writes[v], v, r.guards, |r.calls|, r.archive, r.creator, r.replaced);
    assert WriteOk(r.writes[w], w, r.guards, |r.calls|, r.archive, r.creator, r.replaced);
  }

  // ---- No lost updates -------------------------------------------------------------------

  /** What is true of a write at the moment the server carries it out. */
  ghost predicate Justified(s: System, w: Write) {
    && w.driver < |s.drivers| == |s.guards| && s.guards[w.driver].Some?
    && var driver, guard := s.drivers[w.driver], s.guards[w.driver].value;
    if w.before.None? then
      w.key == Next(guard.key) && w.key !in s.records && guard.key in s.records && !driver.created
    else
      && w.key in s.records && w.before == Some(s.records[w.key])
      && w.key in driver.seen && driver.seen[w.key] == s.records[w.key].id
      && driver.created && w.key.name == guard.key.name && w.key.revision <= guard.key.revision + 1
      && (w.key == guard.key && guard.key !in driver.own ==> s.records[w.key].id == guard.id)
  }

  lemma CreateIsJustified(s: System, i: nat)
    requires Ok(s) && Enabled(s, DoServerCreate(i))
    requires var goal := Goal(s.guards[s.calls[i].driver]); goal.Some? && goal.value !in s.records
    ensures Justified(s, Write(i, s.calls[i].driver, Goal(s.guards[s.calls[i].driver]).value, None,
                               Record(Identity(s.clock, s.clock), s.calls[i].body)))
  {
    var d := s.calls[i].driver;
    assert CallOk(s.calls[i], i, s.guards, s.drivers, s.records, s.archive, s.writes);
    assert SeenOk(s.drivers[d].seen, s.records, s.archive);
    NotCreatedYet(s, d);
  }

  lemma UpdateIsJustified(s: System, i: nat)
    requires Ok(s) && Enabled(s, DoServerUpdate(i))
    requires s.calls[i].key in s.records && s.records[s.calls[i].key].id == s.calls[i].id
    ensures var prior := s.records[s.calls[i].key];
      Justified(s, Write(i, s.calls[i].driver, s.calls[i].key, Some(prior),
                         Record(Identity(prior.id.uid, s.clock), s.calls[i].body)))
  {
    UpdateIsOfTheSeen(s, i);
    UpdateIsPermitted(s, i);
    assert Guarded(s.drivers[s.calls[i].driver], s.guards[s.calls[i].driver]);
  }

  /** Only the server's steps touch the records. */
  lemma OthersDoNotWrite(s: System, a: Action)
    requires Enabled(s, a) && !a.DoServerCreate? && !a.DoServerUpdate?
    ensures Apply(s, a).records == s.records && Apply(s, a).writes == s.writes
  {
  }

  /** Nothing changes, or one justified write is carried out. */
  ghost predicate OneWrite(s: System, s': System) {
    || (s'.records == s.records && s'.writes == s.writes)
    || (&& |s'.writes| == |s.writes| + 1
        && var w := s'.writes[|s.writes|];
        s'.records == s.records[w.key := w.after] && Justified(s, w))
  }

  lemma CreateWrites(s: System, i: nat)
    requires Ok(s) && Enabled(s, DoServerCreate(i))
    ensures OneWrite(s, Apply(s, DoServerCreate(i)))
  {
    var goal := Goal(s.guards[s.calls[i].driver]);
    if goal.Some? && goal.value !in s.records {
      CreateIsJustified(s, i);
    }
  }

  lemma UpdateWrites(s: System, i: nat)
    requires Ok(s) && Enabled(s, DoServerUpdate(i))
    ensures OneWrite(s, Apply(s, DoServerUpdate(i)))
  {
    if s.calls[i].key in s.records && s.records[s.calls[i].key].id == s.calls[i].id {
      UpdateIsJustified(s, i);
    }
  }

  /** The records change by one write at a time or not at all. A create adds the revision after
      the guarded one, which exists, for a driver that has created nothing. An overwrite is by a
      driver whose create is done and replaces exactly the record this driver last read or wrote:
      the planned one, when it is the driver's first overwrite of the guarded revision. */
  lemma WritesAreJustified(s: System, a: Action)
    requires Ok(s) && Enabled(s, a)
    ensures OneWrite(s, Apply(s, a))
  {
    if a.DoServerCreate? {
      CreateWrites(s, a.call);
    } else if a.DoServerUpdate? {
      UpdateWrites(s, a.call);
    } else {
      OthersDoNotWrite(s, a);
    }
  }

  // ---- Reads between writes --------------------------------------------------------------

  /** The step tells driver `d` that its own write of the key went through. */
  predicate OwnWrite(s: System, a: Action, d: nat, key: Key) {
    a.DoRecord? && Enabled(s, a) && s.calls[a.call].driver == d && s.calls[a.call].key == key
  }

  /** What a driver has seen of a key changes only by its own writes. */
  lemma SeenIsStable(s: System, a: Action, d: nat, key: Key)
    requires Enabled(s, a) && !OwnWrite(s, a, d, key) && d < |s.drivers| && key in s.drivers[d].seen
    ensures var s' := Apply(s, a);
      d < |s'.drivers| && key in s'.drivers[d].seen && s'.drivers[d].seen[key] == s.drivers[d].seen[key]
  {
  }

  /** None of the steps is an own write of the key. */
  ghost predicate Quiet(s: System, actions: seq<Action>, from: nat, d: nat, key: Key)
    requires from <= |actions|
    decreases |actions|
  {
    from < |actions| ==>
      var m := |actions| - 1;
      Quiet(s, actions[..m], from, d, key) && !OwnWrite(Run(s, actions[..m]), actions[m], d, key)
  }

  lemma {:induction false} SeenStays(s: System, actions: seq<Action>, from: nat, d: nat, key: Key)
    requires from <= |actions| && Quiet(s, actions, from, d, key)
    requires var r := Run(s, actions[..from]); d < |r.drivers| && key in r.drivers[d].seen
    ensures var r, r' := Run(s, actions[..from]), Run(s, actions);
      d < |r'.drivers| && key in r'.drivers[d].seen && r'.drivers[d].seen[key] == r.drivers[d].seen[key]
  {
    if from == |actions| {
      assert actions[..from] == actions;
    } else {
      var m := |actions| - 1;
      assert actions[..m][..from] == actions[..from];
      SeenStays(s, actions[..m], from, d, key);
      if Enabled(Run(s, actions[..m]), actions[m]) {
        SeenIsStable(Run(s, actions[..m]), actions[m], d, key);
      }
    }
  }

  /** The step makes a read of the driver succeed with this record. */
  ghost predicate ReadsAt(s: System, a: Action, d: nat, key: Key, record: Record) {
    a.DoAccept? && Enabled(s, a) && s.calls[a.call].driver == d && s.calls[a.call].key == key
    && s.calls[a.call].record == record && Accepts(s.guards[d], s.drivers[d], key, record.id)
  }

  /** Two successful reads of a key by one driver return the same record, identity and content,
      whatever the other drivers do, unless the driver's own write of the key came between. */
  lemma ReadsAgree(s: System, actions: seq<Action>, m: nat, n: nat, d: nat, key: Key, one: Record, two: Record)
    requires Initial(s) && m < n < |actions|
    requires ReadsAt(Run(s, actions[..m]), actions[m], d, key, one)
      && ReadsAt(Run(s, actions[..n]), actions[n], d, key, two)
    requires Quiet(s, actions[..n], m + 1, d, key)
    ensures one == two
  {
    var r, t := Run(s, actions[..m]), Run(s, actions[..n]);
    assert actions[..m + 1][..m] == actions[..m];
    assert Run(s, actions[..m + 1]) == Accept(r, actions[m].call);
    assert actions[..n][..m + 1] == actions[..m + 1];
    SeenStays(s, actions[..n], m + 1, d, key);
    assert one.id == two.id;
    ReadIsArchived(s, actions[..m], actions[m].call);
    ReadIsArchived(s, actions[..n], actions[n].call);
    RecordsOnlyGrow(s, actions[..n], m);
    assert actions[..n][..m] == actions[..m];
  }

  lemma ReadIsArchived(s: System, actions: seq<Action>, i: nat)
    requires Initial(s) && Enabled(Run(s, actions), DoAccept(i))
    ensures var r := Run(s, actions); Archived(r.archive, r.calls[i].key, r.calls[i].record)
  {
    RunOk(s, actions);
    var r := Run(s, actions);
    assert CallOk(r.calls[i], i, r.guards, r.drivers, r.records, r.archive, r.writes);
  }

  // ---- The create comes first ------------------------------------------------------------

  /** A driver that regards its create as done has, in fact, created the revision after its guard,
      in a call that has returned successfully. */
  lemma CreatedMeansCreated(s: System, actions: seq<Action>, d: nat)
    requires Initial(s) && d < |Run(s, actions).drivers| && Run(s, actions).drivers[d].created
    ensures var r := Run(s, actions);
      && d < |r.guards| && r.guards[d].Some?
      && exists i: nat :: Created(r, i, Next(r.guards[d].value.key)) && r.writes[r.calls[i].outcome.write].driver == d
  {
    RunOk(s, actions);
    var r := Run(s, actions);
    assert Guarded(r.drivers[d], r.guards[d]);
    assert CreateDone(r.drivers[d].created, d, r.guards[d], r.creator, r.writes, r.calls);
    var key := Next(r.guards[d].value.key);
    assert Created(r, r.writes[r.creator[key]].call, key);
  }
}
