/** Any number of Helm storage drivers against one API server. Every call of a driver is split at
    its round trips to the server and at its mutex, and the parts of all calls interleave freely. */
module HelmStorage {
  import opened Options

  /** A release record is named by release and revision. */
  datatype Key = Key(name: string, revision: int)

  /** What the server says a record is: its UID and resource version. */
  datatype Identity = Identity(uid: nat, version: nat)

  datatype Record = Record(id: Identity, body: string)

  /** `HelmRevisionGuard`: the revision an upgrade starts from, as it was when planned. */
  datatype Guard = Guard(key: Key, id: Identity)

  /** A driver's fields; `own` is history: the keys it knows it has written. */
  datatype Driver = Driver(created: bool, seen: map<Key, Identity>, own: set<Key>)

  /** A release value passed to Create or Update. */
  datatype Value = Value(key: Key, inNamespace: bool, body: string)

  /** One call of a driver, between two of its steps. A read may belong to a create, which then
      goes on to write `next`. */
  datatype Call =
    | Listing(driver: nat, body: string)
    | Reading(driver: nat, key: Key, next: Option<string>)
    | Fetched(driver: nat, key: Key, record: Record, next: Option<string>)
    | Creating(driver: nat, body: string)
    | Updating(driver: nat, key: Key, id: Identity, body: string)
    | Saved(driver: nat, key: Key, id: Identity, write: nat)
    | Done(outcome: Outcome)

  datatype Outcome = ReadBack(key: Key, record: Record) | Written(write: nat) | Failed

  /** A write the server has carried out. */
  datatype Write = Write(call: nat, driver: nat, key: Key, before: Option<Record>, after: Record)

  datatype Version = Version(key: Key, record: Record)

  /** The server's records and version counter, the drivers with their guards, and the calls; then
      history: all writes, every version there ever was, which write made a key and which write
      replaced a version. */
  datatype System = System(
    records: map<Key, Record>, clock: nat, guards: seq<Option<Guard>>, drivers: seq<Driver>, calls: seq<Call>,
    writes: seq<Write>, archive: map<nat, Version>, creator: map<Key, nat>, replaced: map<nat, nat>)

  function Next(key: Key): Key {
    Key(key.name, key.revision + 1)
  }

  // ---- Decisions taken under a driver's mutex --------------------------------------------

  /** `read`: the guarded revision must be the planned one until the create is done, and a key
      already seen must not have changed. */
  predicate Accepts(guard: Option<Guard>, driver: Driver, key: Key, id: Identity) {
    && !(guard.Some? && key == guard.value.key && !driver.created && id != guard.value.id)
    && !(key in driver.seen && driver.seen[key] != id)
  }

  predicate MayCreate(guard: Option<Guard>, driver: Driver, key: Key, value: Value) {
    guard.Some? && !driver.created && value.inNamespace && value.key == Next(guard.value.key) && key == value.key
  }

  predicate MayUpdate(guard: Option<Guard>, driver: Driver, key: Key, value: Value) {
    guard.Some? && driver.created && key in driver.seen && value.inNamespace && key == value.key
    && value.key.name == guard.value.key.name && value.key.revision <= guard.value.key.revision + 1
  }

  function Noted(driver: Driver, key: Key, id: Identity): Driver {
    driver.(seen := driver.seen[key := id])
  }

  function Recorded(driver: Driver, key: Key, id: Identity, creates: bool): Driver {
    Driver(driver.created || creates, driver.seen[key := id], driver.own + {key})
  }

  // ---- Steps -----------------------------------------------------------------------------

  datatype Action =
    | DoGet(driver: nat, key: Key)
    | DoCreate(driver: nat, key: Key, value: Value)
    | DoUpdate(driver: nat, key: Key, value: Value)
    | DoList(call: nat, latest: int)
    | DoFetch(call: nat)
    | DoAccept(call: nat)
    | DoServerCreate(call: nat)
    | DoServerUpdate(call: nat)
    | DoRecord(call: nat)
    | DoFail(call: nat)

  /** The call belongs to a driver of the system. */
  predicate Placed(s: System, i: nat) {
    |s.guards| == |s.drivers| && i < |s.calls| && (s.calls[i].Done? || s.calls[i].driver < |s.drivers|)
    && (s.calls[i].Saved? ==> s.calls[i].write < |s.writes|)
  }

  predicate Enabled(s: System, a: Action) {
    match a
    case DoGet(d, _) => d < |s.drivers| == |s.guards|
    case DoCreate(d, _, _) => d < |s.drivers| == |s.guards|
    case DoUpdate(d, _, _) => d < |s.drivers| == |s.guards|
    case DoList(i, _) => Placed(s, i) && s.calls[i].Listing?
    case DoFetch(i) => Placed(s, i) && s.calls[i].Reading?
    case DoAccept(i) => Placed(s, i) && s.calls[i].Fetched?
    case DoServerCreate(i) => Placed(s, i) && s.calls[i].Creating?
    case DoServerUpdate(i) => Placed(s, i) && s.calls[i].Updating?
    case DoRecord(i) => Placed(s, i) && s.calls[i].Saved?
    case DoFail(i) => Placed(s, i) && !s.calls[i].Done?
  }

  function Started(s: System, call: Call): System {
    s.(calls := s.calls + [call])
  }

  function Moved(s: System, i: nat, call: Call): System
    requires i < |s.calls|
  {
    s.(calls := s.calls[i := call])
  }

  function FirstCreate(s: System, d: nat, key: Key, value: Value): Call
    requires d < |s.drivers| && d < |s.guards|
  {
    if MayCreate(s.guards[d], s.drivers[d], key, value) then Listing(d, value.body) else Done(Failed)
  }

  function FirstUpdate(s: System, d: nat, key: Key, value: Value): Call
    requires d < |s.drivers| && d < |s.guards|
  {
    if MayUpdate(s.guards[d], s.drivers[d], key, value) then Updating(d, key, s.drivers[d].seen[key], value.body)
    else Done(Failed)
  }

  /** The revision check before the create; what the listing reports is up to the server. */
  function AfterList(guard: Option<Guard>, call: Call, latest: int): Call
    requires call.Listing?
  {
    if guard.Some? && latest == guard.value.key.revision then Reading(call.driver, guard.value.key, Some(call.body))
    else Done(Failed)
  }

  function AfterFetch(records: map<Key, Record>, call: Call): Call
    requires call.Reading?
  {
    if call.key in records then Fetched(call.driver, call.key, records[call.key], call.next) else Done(Failed)
  }

  function Accept(s: System, i: nat): System
    requires Enabled(s, DoAccept(i))
  {
    var call := s.calls[i];
    var accepted := Accepts(s.guards[call.driver], s.drivers[call.driver], call.key, call.record.id);
    var after :=
      if !accepted then Done(Failed)
      else if call.next.Some? then Creating(call.driver, call.next.value)
      else Done(ReadBack(call.key, call.record));
    s.(drivers := if accepted then s.drivers[call.driver := Noted(s.drivers[call.driver], call.key, call.record.id)]
                  else s.drivers,
       calls := s.calls[i := after])
  }

  /** The server takes a new record in, under a fresh UID and version. */
  function Create(s: System, i: nat, key: Key): System
    requires Enabled(s, DoServerCreate(i))
  {
    var record := Record(Identity(s.clock, s.clock), s.calls[i].body);
    s.(records := s.records[key := record], clock := s.clock + 1,
       calls := s.calls[i := Saved(s.calls[i].driver, key, record.id, |s.writes|)],
       writes := s.writes + [Write(i, s.calls[i].driver, key, None, record)],
       archive := s.archive[s.clock := Version(key, record)], creator := s.creator[key := |s.writes|])
  }

  /** The server replaces a record whose identity matches, under a fresh version. */
  function Replace(s: System, i: nat): System
    requires Enabled(s, DoServerUpdate(i)) && s.calls[i].key in s.records
  {
    var call := s.calls[i];
    var prior := s.records[call.key];
    var record := Record(Identity(prior.id.uid, s.clock), call.body);
    s.(records := s.records[call.key := record], clock := s.clock + 1,
       calls := s.calls[i := Saved(call.driver, call.key, record.id, |s.writes|)],
       writes := s.writes + [Write(i, call.driver, call.key, Some(prior), record)],
       archive := s.archive[s.clock := Version(call.key, record)],
       replaced := s.replaced[prior.id.version := |s.writes|])
  }

  /** The driver takes the server's answer to its write down. */
  function TakeDown(s: System, i: nat): System
    requires Enabled(s, DoRecord(i))
  {
    var call := s.calls[i];
    var creates := s.writes[call.write].before.None?;
    s.(drivers := s.drivers[call.driver := Recorded(s.drivers[call.driver], call.key, call.id, creates)],
       calls := s.calls[i := Done(Written(call.write))])
  }

  /** The key a create goes for. */
  function Goal(guard: Option<Guard>): Option<Key> {
    if guard.Some? then Some(Next(guard.value.key)) else None
  }

  function Apply(s: System, a: Action): System
    requires Enabled(s, a)
  {
    match a
    case DoGet(d, key) => Started(s, Reading(d, key, None))
    case DoCreate(d, key, value) => Started(s, FirstCreate(s, d, key, value))
    case DoUpdate(d, key, value) => Started(s, FirstUpdate(s, d, key, value))
    case DoList(i, latest) => Moved(s, i, AfterList(s.guards[s.calls[i].driver], s.calls[i], latest))
    case DoFetch(i) => Moved(s, i, AfterFetch(s.records, s.calls[i]))
    case DoAccept(i) => Accept(s, i)
    case DoServerCreate(i) =>
      var goal := Goal(s.guards[s.calls[i].driver]);
      if goal.Some? && goal.value !in s.records then Create(s, i, goal.value) else Moved(s, i, Done(Failed))
    case DoServerUpdate(i) =>
      if s.calls[i].key in s.records && s.records[s.calls[i].key].id == s.calls[i].id then Replace(s, i)
      else Moved(s, i, Done(Failed))
    case DoRecord(i) => TakeDown(s, i)
    case DoFail(i) => Moved(s, i, Done(Failed))
  }

  function Run(s: System, actions: seq<Action>): System {
    if actions == [] then s
    else
      var r := Run(s, actions[..|actions| - 1]);
      if Enabled(r, actions[|actions| - 1]) then Apply(r, actions[|actions| - 1]) else r
  }

  // ---- The invariant ---------------------------------------------------------------------

  ghost predicate Archived(archive: map<nat, Version>, key: Key, record: Record) {
    record.id.version in archive && archive[record.id.version] == Version(key, record)
  }

  ghost predicate Known(archive: map<nat, Version>, key: Key, id: Identity) {
    id.version in archive && archive[id.version].key == key && archive[id.version].record.id == id
  }

  /** Every record is an archived version of its key, and no version is from the future. */
  ghost predicate Server(records: map<Key, Record>, clock: nat, archive: map<nat, Version>) {
    && (forall key :: key in records ==> Archived(archive, key, records[key]))
    && (forall v :: v in archive ==> v < clock && archive[v].record.id.version == v)
  }

  ghost predicate Newest(records: map<Key, Record>, archive: map<nat, Version>) {
    forall v :: v in archive ==> archive[v].key in records && v <= records[archive[v].key].id.version
  }

  /** A replaced version is older than the record. */
  ghost predicate Replacements(records: map<Key, Record>, archive: map<nat, Version>, replaced: map<nat, nat>) {
    forall v :: v in replaced ==>
      v in archive && archive[v].key in records && v < records[archive[v].key].id.version
  }

  ghost predicate Creators(creator: map<Key, nat>, writes: seq<Write>, records: map<Key, Record>) {
    forall key :: key in creator ==>
      && key in records && creator[key] < |writes|
      && writes[creator[key]].key == key && writes[creator[key]].before.None?
  }

  /** Whose write it may be: the driver is guarded on this release; it creates only the revision
      after the guarded one and overwrites none beyond that. */
  ghost predicate Permitted(guard: Option<Guard>, key: Key, creates: bool) {
    && guard.Some? && key.name == guard.value.key.name && key.revision <= guard.value.key.revision + 1
    && (creates ==> key == Next(guard.value.key))
  }

  /** A write is the one that made its key, or the one that replaced exactly the version before. */
  ghost predicate WriteOk(w: Write, index: nat, guards: seq<Option<Guard>>, calls: nat, archive: map<nat, Version>,
                          creator: map<Key, nat>, replaced: map<nat, nat>) {
    && w.driver < |guards| && w.call < calls && Permitted(guards[w.driver], w.key, w.before.None?)
    && Archived(archive, w.key, w.after)
    && (w.before.None? ==> w.key in creator && creator[w.key] == index)
    && (w.before.Some? ==>
          && Archived(archive, w.key, w.before.value)
          && w.before.value.id.version in replaced && replaced[w.before.value.id.version] == index
          && w.before.value.id.uid == w.after.id.uid && w.before.value.id.version < w.after.id.version)
  }

  ghost predicate Writes(writes: seq<Write>, guards: seq<Option<Guard>>, calls: nat, archive: map<nat, Version>,
                         creator: map<Key, nat>, replaced: map<nat, nat>) {
    forall w :: 0 <= w < |writes| ==> WriteOk(writes[w], w, guards, calls, archive, creator, replaced)
  }

  /** What a driver has seen of a key is a version of it, not newer than the record. */
  ghost predicate SeenOk(seen: map<Key, Identity>, records: map<Key, Record>, archive: map<nat, Version>) {
    forall key :: key in seen ==>
      && Known(archive, key, seen[key]) && key in records && seen[key].version <= records[key].id.version
  }

  /** The guarded revision is seen as planned until the driver overwrites it itself; nothing is
      written without a guard, and nothing is overwritten before the create is known. */
  ghost predicate Guarded(driver: Driver, guard: Option<Guard>) {
    && (guard.Some? && guard.value.key in driver.seen && guard.value.key !in driver.own ==>
          driver.seen[guard.value.key] == guard.value.id)
    && (driver.created ==> guard.Some? && guard.value.key in driver.seen && Next(guard.value.key) in driver.own)
    && (forall key :: key in driver.own ==> driver.created && key in driver.seen && Permitted(guard, key, false))
  }

  /** A driver that knows its create is done has the call that did it behind it. */
  ghost predicate CreateDone(created: bool, d: nat, guard: Option<Guard>, creator: map<Key, nat>, writes: seq<Write>,
                             calls: seq<Call>) {
    created && guard.Some? ==>
      var key := Next(guard.value.key);
      && key in creator && creator[key] < |writes| && writes[creator[key]].driver == d
      && writes[creator[key]].call < |calls| && calls[writes[creator[key]].call] == Done(Written(creator[key]))
  }

  ghost predicate AllSeen(drivers: seq<Driver>, records: map<Key, Record>, archive: map<nat, Version>) {
    forall d :: 0 <= d < |drivers| ==> SeenOk(drivers[d].seen, records, archive)
  }

  ghost predicate AllGuarded(drivers: seq<Driver>, guards: seq<Option<Guard>>) {
    |guards| == |drivers| && forall d :: 0 <= d < |drivers| ==> Guarded(drivers[d], guards[d])
  }

  ghost predicate CreatesDone(drivers: seq<Driver>, guards: seq<Option<Guard>>, creator: map<Key, nat>,
                              writes: seq<Write>, calls: seq<Call>) {
    |guards| == |drivers| &&
    forall d :: 0 <= d < |drivers| ==> CreateDone(drivers[d].created, d, guards[d], creator, writes, calls)
  }

  /** A read on behalf of a create reads the guarded revision. */
  ghost predicate ForCreate(guard: Option<Guard>, key: Key, next: Option<string>) {
    next.Some? ==> guard.Some? && key == guard.value.key
  }

  /** An update in flight carries what its driver has seen, or something older. */
  ghost predicate Carries(driver: Driver, guard: Option<Guard>, key: Key, id: Identity, archive: map<nat, Version>) {
    && driver.created && key in driver.seen && id.version <= driver.seen[key].version
    && Permitted(guard, key, false) && Known(archive, key, id)
  }

  /** A write whose answer is on its way: a create not yet known to its driver, or an update of
      exactly what its driver still holds for current. */
  ghost predicate OnItsWay(driver: Driver, guard: Option<Guard>, key: Key, id: Identity, write: Write) {
    && write.key == key && write.after.id == id
    && (write.before.None? ==> !driver.created && guard.Some? && guard.value.key in driver.seen)
    && (write.before.Some? ==> driver.created && key in driver.seen && driver.seen[key] == write.before.value.id)
  }

  ghost predicate Pending(call: Call, i: nat, guard: Option<Guard>, driver: Driver, records: map<Key, Record>,
                          archive: map<nat, Version>, writes: seq<Write>)
    requires !call.Done?
  {
    match call
    case Listing(_, _) => guard.Some?
    case Reading(_, key, next) => ForCreate(guard, key, next)
    case Fetched(_, key, record, next) =>
      && ForCreate(guard, key, next) && Archived(archive, key, record)
      && key in records && record.id.version <= records[key].id.version
    case Creating(_, _) => guard.Some? && guard.value.key in driver.seen
    case Updating(_, key, id, _) => Carries(driver, guard, key, id, archive)
    case Saved(d, key, id, write) =>
      && write < |writes| && writes[write].call == i && writes[write].driver == d
      && OnItsWay(driver, guard, key, id, writes[write])
  }

  ghost predicate Finished(outcome: Outcome, i: nat, archive: map<nat, Version>, writes: seq<Write>) {
    && (outcome.Written? ==> outcome.write < |writes| && writes[outcome.write].call == i)
    && (outcome.ReadBack? ==> Archived(archive, outcome.key, outcome.record))
  }

  ghost predicate CallOk(call: Call, i: nat, guards: seq<Option<Guard>>, drivers: seq<Driver>,
                         records: map<Key, Record>, archive: map<nat, Version>, writes: seq<Write>) {
    if call.Done? then Finished(call.outcome, i, archive, writes)
    else
      call.driver < |drivers| == |guards|
      && Pending(call, i, guards[call.driver], drivers[call.driver], records, archive, writes)
  }

  ghost predicate Calls(calls: seq<Call>, guards: seq<Option<Guard>>, drivers: seq<Driver>, records: map<Key, Record>,
                        archive: map<nat, Version>, writes: seq<Write>) {
    forall i :: 0 <= i < |calls| ==> CallOk(calls[i], i, guards, drivers, records, archive, writes)
  }

  /** Revisions of a release have no gaps. */
  ghost predicate Contiguous(keys: set<Key>) {
    forall a, b, r {:trigger a in keys, b in keys, Key(a.name, r)} ::
      a in keys && b in keys && a.name == b.name && a.revision <= r <= b.revision ==> Key(a.name, r) in keys
  }

  ghost predicate Ok(s: System) {
    && Server(s.records, s.clock, s.archive)
    && Newest(s.records, s.archive)
    && Replacements(s.records, s.archive, s.replaced)
    && Creators(s.creator, s.writes, s.records)
    && Writes(s.writes, s.guards, |s.calls|, s.archive, s.creator, s.replaced)
    && AllSeen(s.drivers, s.records, s.archive)
    && AllGuarded(s.drivers, s.guards)
    && CreatesDone(s.drivers, s.guards, s.creator, s.writes, s.calls)
    && Calls(s.calls, s.guards, s.drivers, s.records, s.archive, s.writes)
    && Contiguous(s.records.Keys)
  }

  // ---- Steps that only move a call -------------------------------------------------------

  /** Only finished creates matter to the drivers, and finished calls stay. */
  lemma CallsMayMove(drivers: seq<Driver>, guards: seq<Option<Guard>>, creator: map<Key, nat>, writes: seq<Write>,
                     calls: seq<Call>, calls': seq<Call>)
    requires CreatesDone(drivers, guards, creator, writes, calls)
    requires |calls| <= |calls'| && forall i :: 0 <= i < |calls| && calls[i].Done? ==> calls'[i] == calls[i]
    ensures CreatesDone(drivers, guards, creator, writes, calls')
  {
  }

  lemma StartedOk(s: System, call: Call)
    requires Ok(s) && CallOk(call, |s.calls|, s.guards, s.drivers, s.records, s.archive, s.writes)
    ensures Ok(Started(s, call))
  {
    CallsMayMove(s.drivers, s.guards, s.creator, s.writes, s.calls, s.calls + [call]);
  }

  lemma MovedOk(s: System, i: nat, call: Call)
    requires Ok(s) && i < |s.calls| && !s.calls[i].Done?
    requires CallOk(call, i, s.guards, s.drivers, s.records, s.archive, s.writes)
    ensures Ok(Moved(s, i, call))
  {
    CallsMayMove(s.drivers, s.guards, s.creator, s.writes, s.calls, s.calls[i := call]);
  }

  lemma ListOk(s: System, i: nat, latest: int)
    requires Ok(s) && Enabled(s, DoList(i, latest))
    ensures Ok(Apply(s, DoList(i, latest)))
  {
    MovedOk(s, i, AfterList(s.guards[s.calls[i].driver], s.calls[i], latest));
  }

  lemma FetchOk(s: System, i: nat)
    requires Ok(s) && Enabled(s, DoFetch(i))
    ensures Ok(Apply(s, DoFetch(i)))
  {
    assert CallOk(s.calls[i], i, s.guards, s.drivers, s.records, s.archive, s.writes);
    MovedOk(s, i, AfterFetch(s.records, s.calls[i]));
  }

  lemma FirstCallsOk(s: System, d: nat, key: Key, value: Value)
    requires Ok(s) && d < |s.drivers|
    ensures CallOk(FirstCreate(s, d, key, value), |s.calls|, s.guards, s.drivers, s.records, s.archive, s.writes)
    ensures CallOk(FirstUpdate(s, d, key, value), |s.calls|, s.guards, s.drivers, s.records, s.archive, s.writes)
  {
    assert SeenOk(s.drivers[d].seen, s.records, s.archive);
  }

  // ---- A driver takes note of a read -----------------------------------------------------

  /** The driver has seen at least as much, and nothing differently. */
  ghost predicate Extends(driver: Driver, driver': Driver) {
    && driver'.created == driver.created && driver'.own == driver.own
    && forall key :: key in driver.seen ==> key in driver'.seen && driver'.seen[key] == driver.seen[key]
  }

  lemma NotedOk(driver: Driver, guard: Option<Guard>, key: Key, id: Identity)
    requires Guarded(driver, guard) && Accepts(guard, driver, key, id)
    ensures Guarded(Noted(driver, key, id), guard) && Extends(driver, Noted(driver, key, id))
  {
  }

  lemma ExtendsPending(call: Call, i: nat, guard: Option<Guard>, driver: Driver, driver': Driver,
                       records: map<Key, Record>, archive: map<nat, Version>, writes: seq<Write>)
    requires !call.Done? && Pending(call, i, guard, driver, records, archive, writes) && Extends(driver, driver')
    ensures Pending(call, i, guard, driver', records, archive, writes)
  {
  }

  lemma ExtendsCalls(calls: seq<Call>, guards: seq<Option<Guard>>, drivers: seq<Driver>, d: nat, driver: Driver,
                     records: map<Key, Record>, archive: map<nat, Version>, writes: seq<Write>)
    requires Calls(calls, guards, drivers, records, archive, writes) && d < |drivers| && Extends(drivers[d], driver)
    ensures Calls(calls, guards, drivers[d := driver], records, archive, writes)
  {
    forall i | 0 <= i < |calls| ensures CallOk(calls[i], i, guards, drivers[d := driver], records, archive, writes) {
      assert CallOk(calls[i], i, guards, drivers, records, archive, writes);
      if !calls[i].Done? && calls[i].driver == d {
        ExtendsPending(calls[i], i, guards[d], drivers[d], driver, records, archive, writes);
      }
    }
  }

  lemma ReadNotedOk(s: System, d: nat, key: Key, record: Record)
    requires Ok(s) && d < |s.drivers| && Accepts(s.guards[d], s.drivers[d], key, record.id)
    requires Archived(s.archive, key, record) && key in s.records && record.id.version <= s.records[key].id.version
    ensures Ok(s.(drivers := s.drivers[d := Noted(s.drivers[d], key, record.id)]))
  {
    var driver := Noted(s.drivers[d], key, record.id);
    NotedOk(s.drivers[d], s.guards[d], key, record.id);
    ExtendsCalls(s.calls, s.guards, s.drivers, d, driver, s.records, s.archive, s.writes);
    SeenOne(s.drivers[d].seen, s.records, s.archive, key, record);
  }

  lemma SeenOne(seen: map<Key, Identity>, records: map<Key, Record>, archive: map<nat, Version>, key: Key,
                record: Record)
    requires SeenOk(seen, records, archive)
    requires Archived(archive, key, record) && key in records && record.id.version <= records[key].id.version
    ensures SeenOk(seen[key := record.id], records, archive)
  {
  }

  lemma AcceptOk(s: System, i: nat)
    requires Ok(s) && Enabled(s, DoAccept(i))
    ensures Ok(Accept(s, i))
  {
    var call := s.calls[i];
    assert CallOk(call, i, s.guards, s.drivers, s.records, s.archive, s.writes);
    if Accepts(s.guards[call.driver], s.drivers[call.driver], call.key, call.record.id) {
      ReadNotedOk(s, call.driver, call.key, call.record);
      var noted := s.(drivers := s.drivers[call.driver := Noted(s.drivers[call.driver], call.key, call.record.id)]);
      MovedOk(noted, i, if call.next.Some? then Creating(call.driver, call.next.value)
        else Done(ReadBack(call.key, call.record)));
    } else {
      MovedOk(s, i, Done(Failed));
    }
  }

  // ---- The server carries a write out ----------------------------------------------------

  /** Records are only added or moved to newer versions; versions and writes are only added. */
  ghost predicate Grown(records: map<Key, Record>, records': map<Key, Record>, archive: map<nat, Version>,
                        archive': map<nat, Version>) {
    && (forall key :: key in records ==>
          key in records' && records[key].id.version <= records'[key].id.version
            && records[key].id.uid == records'[key].id.uid)
    && (forall v :: v in archive ==> v in archive' && archive'[v] == archive[v])
  }

  lemma GrownPending(call: Call, i: nat, guard: Option<Guard>, driver: Driver, records: map<Key, Record>,
                     records': map<Key, Record>, archive: map<nat, Version>, archive': map<nat, Version>,
                     writes: seq<Write>, writes': seq<Write>)
    requires Grown(records, records', archive, archive') && writes <= writes'
    requires !call.Done? && Pending(call, i, guard, driver, records, archive, writes)
    ensures Pending(call, i, guard, driver, records', archive', writes')
  {
  }

  lemma GrownCalls(calls: seq<Call>, guards: seq<Option<Guard>>, drivers: seq<Driver>, records: map<Key, Record>,
                   records': map<Key, Record>, archive: map<nat, Version>, archive': map<nat, Version>,
                   writes: seq<Write>, writes': seq<Write>)
    requires Grown(records, records', archive, archive') && writes <= writes'
    requires Calls(calls, guards, drivers, records, archive, writes)
    ensures Calls(calls, guards, drivers, records', archive', writes')
  {
    forall i | 0 <= i < |calls| ensures CallOk(calls[i], i, guards, drivers, records', archive', writes') {
      assert CallOk(calls[i], i, guards, drivers, records, archive, writes);
      if !calls[i].Done? {
        GrownPending(calls[i], i, guards[calls[i].driver], drivers[calls[i].driver], records, records', archive,
          archive', writes, writes');
      }
    }
  }

  lemma GrownSeen(drivers: seq<Driver>, records: map<Key, Record>, records': map<Key, Record>,
                  archive: map<nat, Version>, archive': map<nat, Version>)
    requires Grown(records, records', archive, archive') && AllSeen(drivers, records, archive)
    ensures AllSeen(drivers, records', archive')
  {
    forall d | 0 <= d < |drivers| ensures SeenOk(drivers[d].seen, records', archive') {
      assert SeenOk(drivers[d].seen, records, archive);
    }
  }

  lemma GrownWrites(writes: seq<Write>, guards: seq<Option<Guard>>, calls: nat, archive: map<nat, Version>,
                    archive': map<nat, Version>, creator: map<Key, nat>, creator': map<Key, nat>,
                    replaced: map<nat, nat>, replaced': map<nat, nat>)
    requires Writes(writes, guards, calls, archive, creator, replaced)
    requires forall v :: v in archive ==> v in archive' && archive'[v] == archive[v]
    requires forall key :: key in creator ==> key in creator' && creator'[key] == creator[key]
    requires forall v :: v in replaced ==> v in replaced' && replaced'[v] == replaced[v]
    ensures Writes(writes, guards, calls, archive', creator', replaced')
  {
    forall w | 0 <= w < |writes| ensures WriteOk(writes[w], w, guards, calls, archive', creator', replaced') {
      assert WriteOk(writes[w], w, guards, calls, archive, creator, replaced);
    }
  }

  lemma GrownCreates(drivers: seq<Driver>, guards: seq<Option<Guard>>, creator: map<Key, nat>, creator': map<Key, nat>,
                     writes: seq<Write>, writes': seq<Write>, calls: seq<Call>)
    requires CreatesDone(drivers, guards, creator, writes, calls) && writes <= writes'
    requires forall key :: key in creator ==> key in creator' && creator'[key] == creator[key]
    ensures CreatesDone(drivers, guards, creator', writes', calls)
  {
  }

  /** Adding the revision after an existing one leaves no gap. */
  lemma ContiguousGrows(keys: set<Key>, key: Key)
    requires Contiguous(keys) && key in keys && Next(key) !in keys
    ensures Contiguous(keys + {Next(key)})
  {
    var keys' := keys + {Next(key)};
    forall a, b, r | a in keys' && b in keys' && a.name == b.name && a.revision <= r <= b.revision
      ensures Key(a.name, r) in keys'
    {
      if a.name == key.name {
        assert b in keys ==> b.revision <= key.revision || Key(key.name, key.revision + 1) in keys;
        assert a in keys && r <= key.revision ==> Key(a.name, r) in keys;
      }
    }
  }

  /** A record under a fresh version, new or in the place of an older one. */
  lemma PutOk(records: map<Key, Record>, clock: nat, archive: map<nat, Version>, replaced: map<nat, nat>, key: Key,
              record: Record)
    requires Server(records, clock, archive) && Replacements(records, archive, replaced) && record.id.version == clock
    requires key in records ==> records[key].id.uid == record.id.uid
    ensures var records', archive' := records[key := record], archive[clock := Version(key, record)];
      && Server(records', clock + 1, archive') && Replacements(records', archive', replaced)
      && Grown(records, records', archive, archive')
  {
  }

  lemma OneCall(calls: seq<Call>, i: nat, call: Call, guards: seq<Option<Guard>>, drivers: seq<Driver>,
                records: map<Key, Record>, archive: map<nat, Version>, writes: seq<Write>)
    requires Calls(calls, guards, drivers, records, archive, writes) && i < |calls|
    requires CallOk(call, i, guards, drivers, records, archive, writes)
    ensures Calls(calls[i := call], guards, drivers, records, archive, writes)
  {
  }

  lemma OneWrite(writes: seq<Write>, write: Write, guards: seq<Option<Guard>>, calls: nat, archive: map<nat, Version>,
                 creator: map<Key, nat>, replaced: map<nat, nat>)
    requires Writes(writes, guards, calls, archive, creator, replaced)
    requires WriteOk(write, |writes|, guards, calls, archive, creator, replaced)
    ensures Writes(writes + [write], guards, calls, archive, creator, replaced)
  {
  }

  lemma CreatorAdded(creator: map<Key, nat>, writes: seq<Write>, records: map<Key, Record>, key: Key, write: Write)
    requires Creators(creator, writes, records) && key !in records && write.key == key && write.before.None?
    ensures key !in creator && Creators(creator[key := |writes|], writes + [write], records[key := write.after])
  {
  }

  lemma PutNewest(records: map<Key, Record>, clock: nat, archive: map<nat, Version>, key: Key, record: Record)
    requires Server(records, clock, archive) && Newest(records, archive) && record.id.version == clock
    ensures Newest(records[key := record], archive[clock := Version(key, record)])
  {
  }

  lemma CreateServerOk(s: System, i: nat, key: Key)
    requires Server(s.records, s.clock, s.archive) && Newest(s.records, s.archive)
    requires Replacements(s.records, s.archive, s.replaced) && Creators(s.creator, s.writes, s.records)
    requires Enabled(s, DoServerCreate(i)) && key !in s.records
    ensures var s' := Create(s, i, key);
      && Server(s'.records, s'.clock, s'.archive) && Newest(s'.records, s'.archive)
      && Replacements(s'.records, s'.archive, s'.replaced)
      && Grown(s.records, s'.records, s.archive, s'.archive) && Creators(s'.creator, s'.writes, s'.records)
      && key !in s.creator
  {
    var s' := Create(s, i, key);
    PutOk(s.records, s.clock, s.archive, s.replaced, key, s'.records[key]);
    PutNewest(s.records, s.clock, s.archive, key, s'.records[key]);
    CreatorAdded(s.creator, s.writes, s.records, key, s'.writes[|s.writes|]);
  }

  lemma CreateWritesOk(s: System, i: nat, key: Key)
    requires Writes(s.writes, s.guards, |s.calls|, s.archive, s.creator, s.replaced)
    requires Enabled(s, DoServerCreate(i)) && key !in s.creator && s.clock !in s.archive
    requires Permitted(s.guards[s.calls[i].driver], key, true)
    ensures var s' := Create(s, i, key); Writes(s'.writes, s'.guards, |s'.calls|, s'.archive, s'.creator, s'.replaced)
  {
    var s' := Create(s, i, key);
    GrownWrites(s.writes, s.guards, |s.calls|, s.archive, s'.archive, s.creator, s'.creator, s.replaced, s'.replaced);
    OneWrite(s.writes, s'.writes[|s.writes|], s.guards, |s.calls|, s'.archive, s'.creator, s'.replaced);
  }

  /** A driver has not created yet as long as the revision is not there. */
  lemma NotCreatedYet(s: System, d: nat)
    requires Creators(s.creator, s.writes, s.records) && CreatesDone(s.drivers, s.guards, s.creator, s.writes, s.calls)
    requires d < |s.drivers| && s.guards[d].Some? && Next(s.guards[d].value.key) !in s.records
    ensures !s.drivers[d].created
  {
  }

  lemma CreateDriversOk(s: System, i: nat, key: Key)
    requires AllSeen(s.drivers, s.records, s.archive) && CreatesDone(s.drivers, s.guards, s.creator, s.writes, s.calls)
    requires Enabled(s, DoServerCreate(i)) && key !in s.creator
    requires Grown(s.records, Create(s, i, key).records, s.archive, Create(s, i, key).archive)
    ensures var s' := Create(s, i, key);
      AllSeen(s'.drivers, s'.records, s'.archive) && CreatesDone(s'.drivers, s'.guards, s'.creator, s'.writes, s'.calls)
  {
    var s' := Create(s, i, key);
    GrownSeen(s.drivers, s.records, s'.records, s.archive, s'.archive);
    GrownCreates(s.drivers, s.guards, s.creator, s'.creator, s.writes, s'.writes, s.calls);
    CallsMayMove(s.drivers, s.guards, s'.creator, s'.writes, s.calls, s'.calls);
  }

  lemma CreateCallsOk(s: System, i: nat, key: Key)
    requires Calls(s.calls, s.guards, s.drivers, s.records, s.archive, s.writes)
    requires Enabled(s, DoServerCreate(i)) && !s.drivers[s.calls[i].driver].created
    requires Grown(s.records, Create(s, i, key).records, s.archive, Create(s, i, key).archive)
    ensures var s' := Create(s, i, key); Calls(s'.calls, s'.guards, s'.drivers, s'.records, s'.archive, s'.writes)
  {
    var s' := Create(s, i, key);
    GrownCalls(s.calls, s.guards, s.drivers, s.records, s'.records, s.archive, s'.archive, s.writes, s'.writes);
    assert CallOk(s.calls[i], i, s.guards, s.drivers, s.records, s.archive, s.writes);
    OneCall(s.calls, i, s'.calls[i], s.guards, s.drivers, s'.records, s'.archive, s'.writes);
  }

  lemma CreateContiguous(s: System, i: nat, key: Key)
    requires Calls(s.calls, s.guards, s.drivers, s.records, s.archive, s.writes)
      && AllSeen(s.drivers, s.records, s.archive)
    requires Contiguous(s.records.Keys)
    requires Enabled(s, DoServerCreate(i)) && key !in s.records && Goal(s.guards[s.calls[i].driver]) == Some(key)
    ensures Contiguous(Create(s, i, key).records.Keys)
  {
    var call := s.calls[i];
    assert CallOk(call, i, s.guards, s.drivers, s.records, s.archive, s.writes);
    assert SeenOk(s.drivers[call.driver].seen, s.records, s.archive);
    ContiguousGrows(s.records.Keys, s.guards[call.driver].value.key);
    assert Create(s, i, key).records.Keys == s.records.Keys + {key};
  }

  lemma CreateOk(s: System, i: nat, key: Key)
    requires Ok(s) && Enabled(s, DoServerCreate(i)) && key !in s.records
      && Goal(s.guards[s.calls[i].driver]) == Some(key)
    ensures Ok(Create(s, i, key))
  {
    CreateServerOk(s, i, key);
    CreateWritesOk(s, i, key);
    CreateDriversOk(s, i, key);
    NotCreatedYet(s, s.calls[i].driver);
    CreateCallsOk(s, i, key);
    CreateContiguous(s, i, key);
  }

  /** An update the server accepts replaces exactly what its driver holds for current. */
  lemma UpdateIsOfTheSeen(s: System, i: nat)
    requires Calls(s.calls, s.guards, s.drivers, s.records, s.archive, s.writes)
      && AllSeen(s.drivers, s.records, s.archive)
    requires Enabled(s, DoServerUpdate(i))
    requires s.calls[i].key in s.records && s.records[s.calls[i].key].id == s.calls[i].id
    ensures var driver, key := s.drivers[s.calls[i].driver], s.calls[i].key;
      driver.created && key in driver.seen && driver.seen[key] == s.records[key].id
  {
    var call := s.calls[i];
    assert CallOk(call, i, s.guards, s.drivers, s.records, s.archive, s.writes);
    assert SeenOk(s.drivers[call.driver].seen, s.records, s.archive);
  }

  lemma ReplacedAdded(records: map<Key, Record>, archive: map<nat, Version>, replaced: map<nat, nat>, version: nat,
                      write: nat)
    requires Replacements(records, archive, replaced) && version in archive
    requires archive[version].key in records && version < records[archive[version].key].id.version
    ensures Replacements(records, archive, replaced[version := write])
  {
  }

  lemma CreatorsKept(creator: map<Key, nat>, writes: seq<Write>, records: map<Key, Record>, key: Key, write: Write)
    requires Creators(creator, writes, records) && key in records
    ensures Creators(creator, writes + [write], records[key := write.after])
  {
  }

  lemma ReplaceServerOk(s: System, i: nat)
    requires Server(s.records, s.clock, s.archive) && Newest(s.records, s.archive)
    requires Replacements(s.records, s.archive, s.replaced) && Creators(s.creator, s.writes, s.records)
    requires Enabled(s, DoServerUpdate(i)) && s.calls[i].key in s.records
    ensures var s', version := Replace(s, i), s.records[s.calls[i].key].id.version;
      && Server(s'.records, s'.clock, s'.archive) && Newest(s'.records, s'.archive)
      && Replacements(s'.records, s'.archive, s'.replaced)
      && Grown(s.records, s'.records, s.archive, s'.archive) && Creators(s'.creator, s'.writes, s'.records)
      && version !in s.replaced && version < s.clock
  {
    var s', key := Replace(s, i), s.calls[i].key;
    var prior := s.records[key];
    PutOk(s.records, s.clock, s.archive, s.replaced, key, s'.records[key]);
    PutNewest(s.records, s.clock, s.archive, key, s'.records[key]);
    CreatorsKept(s.creator, s.writes, s.records, key, s'.writes[|s.writes|]);
    assert Archived(s.archive, key, prior);
    ReplacedAdded(s'.records, s'.archive, s.replaced, prior.id.version, |s.writes|);
  }

  lemma ReplaceWritesOk(s: System, i: nat)
    requires Writes(s.writes, s.guards, |s.calls|, s.archive, s.creator, s.replaced)
    requires Enabled(s, DoServerUpdate(i)) && s.calls[i].key in s.records && s.clock !in s.archive
    requires var prior := s.records[s.calls[i].key];
      prior.id.version !in s.replaced && prior.id.version < s.clock && Archived(s.archive, s.calls[i].key, prior)
    requires Permitted(s.guards[s.calls[i].driver], s.calls[i].key, false)
    ensures var s' := Replace(s, i); Writes(s'.writes, s'.guards, |s'.calls|, s'.archive, s'.creator, s'.replaced)
  {
    var s' := Replace(s, i);
    GrownWrites(s.writes, s.guards, |s.calls|, s.archive, s'.archive, s.creator, s'.creator, s.replaced, s'.replaced);
    OneWrite(s.writes, s'.writes[|s.writes|], s.guards, |s.calls|, s'.archive, s'.creator, s'.replaced);
  }

  lemma ReplaceDriversOk(s: System, i: nat)
    requires AllSeen(s.drivers, s.records, s.archive) && CreatesDone(s.drivers, s.guards, s.creator, s.writes, s.calls)
    requires Enabled(s, DoServerUpdate(i)) && s.calls[i].key in s.records
    requires Grown(s.records, Replace(s, i).records, s.archive, Replace(s, i).archive)
    ensures var s' := Replace(s, i);
      AllSeen(s'.drivers, s'.records, s'.archive) && CreatesDone(s'.drivers, s'.guards, s'.creator, s'.writes, s'.calls)
  {
    var s' := Replace(s, i);
    GrownSeen(s.drivers, s.records, s'.records, s.archive, s'.archive);
    GrownCreates(s.drivers, s.guards, s.creator, s'.creator, s.writes, s'.writes, s.calls);
    CallsMayMove(s.drivers, s.guards, s'.creator, s'.writes, s.calls, s'.calls);
  }

  lemma ReplaceCallsOk(s: System, i: nat)
    requires Calls(s.calls, s.guards, s.drivers, s.records, s.archive, s.writes)
      && AllSeen(s.drivers, s.records, s.archive)
    requires Enabled(s, DoServerUpdate(i))
    requires s.calls[i].key in s.records && s.records[s.calls[i].key].id == s.calls[i].id
    requires Grown(s.records, Replace(s, i).records, s.archive, Replace(s, i).archive)
    ensures var s' := Replace(s, i); Calls(s'.calls, s'.guards, s'.drivers, s'.records, s'.archive, s'.writes)
  {
    var s' := Replace(s, i);
    UpdateIsOfTheSeen(s, i);
    GrownCalls(s.calls, s.guards, s.drivers, s.records, s'.records, s.archive, s'.archive, s.writes, s'.writes);
    OneCall(s.calls, i, s'.calls[i], s.guards, s.drivers, s'.records, s'.archive, s'.writes);
  }

  lemma UpdateIsPermitted(s: System, i: nat)
    requires Calls(s.calls, s.guards, s.drivers, s.records, s.archive, s.writes)
      && Server(s.records, s.clock, s.archive)
    requires Enabled(s, DoServerUpdate(i)) && s.calls[i].key in s.records
    ensures Permitted(s.guards[s.calls[i].driver], s.calls[i].key, false)
    ensures Archived(s.archive, s.calls[i].key, s.records[s.calls[i].key]) && s.clock !in s.archive
  {
    assert CallOk(s.calls[i], i, s.guards, s.drivers, s.records, s.archive, s.writes);
  }

  lemma ReplaceKeepsKeys(s: System, i: nat)
    requires Enabled(s, DoServerUpdate(i)) && s.calls[i].key in s.records
    ensures Replace(s, i).records.Keys == s.records.Keys
  {
  }

  lemma ReplaceOk(s: System, i: nat)
    requires Ok(s) && Enabled(s, DoServerUpdate(i))
    requires s.calls[i].key in s.records && s.records[s.calls[i].key].id == s.calls[i].id
    ensures Ok(Replace(s, i))
  {
    UpdateIsPermitted(s, i);
    ReplaceServerOk(s, i);
    ReplaceWritesOk(s, i);
    ReplaceDriversOk(s, i);
    ReplaceCallsOk(s, i);
    ReplaceKeepsKeys(s, i);
  }

  // ---- A driver learns of its write ------------------------------------------------------

  /** A saved call and its write. */
  ghost predicate SavedOk(s: System, i: nat) {
    && Placed(s, i) && s.calls[i].Saved?
    && s.writes[s.calls[i].write].call == i && s.writes[s.calls[i].write].driver == s.calls[i].driver
    && OnItsWay(s.drivers[s.calls[i].driver], s.guards[s.calls[i].driver], s.calls[i].key, s.calls[i].id,
      s.writes[s.calls[i].write])
    && WriteOk(s.writes[s.calls[i].write], s.calls[i].write, s.guards, |s.calls|, s.archive, s.creator, s.replaced)
  }

  lemma SavedIsOk(s: System, i: nat)
    requires Calls(s.calls, s.guards, s.drivers, s.records, s.archive, s.writes)
    requires Writes(s.writes, s.guards, |s.calls|, s.archive, s.creator, s.replaced)
    requires Placed(s, i) && s.calls[i].Saved?
    ensures SavedOk(s, i)
  {
    assert CallOk(s.calls[i], i, s.guards, s.drivers, s.records, s.archive, s.writes);
    assert WriteOk(s.writes[s.calls[i].write], s.calls[i].write, s.guards, |s.calls|, s.archive, s.creator, s.replaced);
  }

  /** No other call of the driver is in the way: there is one create, and one write per version. */
  lemma NoOtherSaved(s: System, i: nat, j: nat)
    requires SavedOk(s, i) && SavedOk(s, j) && i != j && s.calls[i].driver == s.calls[j].driver
    ensures s.writes[s.calls[i].write].before.Some? && s.writes[s.calls[j].write].before.Some?
    ensures s.calls[i].key != s.calls[j].key
  {
  }

  /** The driver of a finished write, as it is afterwards. */
  function Informed(s: System, i: nat): Driver
    requires Enabled(s, DoRecord(i))
  {
    var call := s.calls[i];
    Recorded(s.drivers[call.driver], call.key, call.id, s.writes[call.write].before.None?)
  }

  lemma InformedPending(s: System, i: nat, j: nat)
    requires SavedOk(s, i) && Placed(s, j) && !s.calls[j].Done? && i != j && s.calls[i].driver == s.calls[j].driver
    requires s.calls[j].Saved? ==> SavedOk(s, j)
    requires var d := s.calls[j].driver;
      Pending(s.calls[j], j, s.guards[d], s.drivers[d], s.records, s.archive, s.writes)
    ensures Pending(s.calls[j], j, s.guards[s.calls[j].driver], Informed(s, i), s.records, s.archive, s.writes)
  {
    if s.calls[j].Saved? {
      NoOtherSaved(s, i, j);
    }
  }

  lemma InformedGuarded(s: System, i: nat)
    requires SavedOk(s, i) && Guarded(s.drivers[s.calls[i].driver], s.guards[s.calls[i].driver])
    ensures Guarded(Informed(s, i), s.guards[s.calls[i].driver])
  {
  }

  lemma InformedSeen(s: System, i: nat)
    requires SavedOk(s, i) && SeenOk(s.drivers[s.calls[i].driver].seen, s.records, s.archive)
      && Newest(s.records, s.archive)
    ensures SeenOk(Informed(s, i).seen, s.records, s.archive)
  {
    SeenOne(s.drivers[s.calls[i].driver].seen, s.records, s.archive, s.calls[i].key, s.writes[s.calls[i].write].after);
  }

  lemma InformedCall(s: System, i: nat, j: nat)
    requires Calls(s.calls, s.guards, s.drivers, s.records, s.archive, s.writes) && SavedOk(s, i) && j < |s.calls|
      && j != i
    requires Writes(s.writes, s.guards, |s.calls|, s.archive, s.creator, s.replaced)
    ensures CallOk(s.calls[j], j, s.guards, s.drivers[s.calls[i].driver := Informed(s, i)], s.records, s.archive,
      s.writes)
  {
    assert CallOk(s.calls[j], j, s.guards, s.drivers, s.records, s.archive, s.writes);
    if !s.calls[j].Done? && s.calls[j].driver == s.calls[i].driver {
      if s.calls[j].Saved? {
        SavedIsOk(s, j);
      }
      InformedPending(s, i, j);
    }
  }

  lemma TakeDownCalls(s: System, i: nat)
    requires Calls(s.calls, s.guards, s.drivers, s.records, s.archive, s.writes) && SavedOk(s, i)
    requires Writes(s.writes, s.guards, |s.calls|, s.archive, s.creator, s.replaced)
    ensures var s' := TakeDown(s, i); Calls(s'.calls, s'.guards, s'.drivers, s'.records, s'.archive, s'.writes)
  {
    var s' := TakeDown(s, i);
    forall j | 0 <= j < |s'.calls|
      ensures CallOk(s'.calls[j], j, s'.guards, s'.drivers, s'.records, s'.archive, s'.writes)
    {
      if j != i {
        InformedCall(s, i, j);
      }
    }
  }

  lemma TakeDownCreates(s: System, i: nat)
    requires CreatesDone(s.drivers, s.guards, s.creator, s.writes, s.calls) && SavedOk(s, i)
    ensures var s' := TakeDown(s, i); CreatesDone(s'.drivers, s'.guards, s'.creator, s'.writes, s'.calls)
  {
    var s' := TakeDown(s, i);
    CallsMayMove(s.drivers, s.guards, s.creator, s.writes, s.calls, s'.calls);
  }

  lemma OneDriver(drivers: seq<Driver>, guards: seq<Option<Guard>>, d: nat, driver: Driver, records: map<Key, Record>,
                  archive: map<nat, Version>)
    requires AllSeen(drivers, records, archive) && AllGuarded(drivers, guards)
    requires d < |drivers| && SeenOk(driver.seen, records, archive) && Guarded(driver, guards[d])
    ensures AllSeen(drivers[d := driver], records, archive) && AllGuarded(drivers[d := driver], guards)
  {
  }

  lemma TakeDownOk(s: System, i: nat)
    requires Ok(s) && Enabled(s, DoRecord(i))
    ensures Ok(TakeDown(s, i))
  {
    SavedIsOk(s, i);
    InformedGuarded(s, i);
    InformedSeen(s, i);
    OneDriver(s.drivers, s.guards, s.calls[i].driver, Informed(s, i), s.records, s.archive);
    TakeDownCalls(s, i);
    TakeDownCreates(s, i);
  }

  // ---- Every run -------------------------------------------------------------------------

  lemma ApplyOk(s: System, a: Action)
    requires Ok(s) && Enabled(s, a)
    ensures Ok(Apply(s, a))
  {
    match a
    case DoGet(d, key) => StartedOk(s, Reading(d, key, None));
    case DoCreate(d, key, value) =>
      FirstCallsOk(s, d, key, value);
      StartedOk(s, FirstCreate(s, d, key, value));
    case DoUpdate(d, key, value) =>
      FirstCallsOk(s, d, key, value);
      StartedOk(s, FirstUpdate(s, d, key, value));
    case DoList(i, latest) => ListOk(s, i, latest);
    case DoFetch(i) => FetchOk(s, i);
    case DoAccept(i) => AcceptOk(s, i);
    case DoServerCreate(i) => ServerCreateOk(s, i);
    case DoServerUpdate(i) => ServerUpdateOk(s, i);
    case DoRecord(i) => TakeDownOk(s, i);
    case DoFail(i) => MovedOk(s, i, Done(Failed));
  }

  lemma ServerCreateOk(s: System, i: nat)
    requires Ok(s) && Enabled(s, DoServerCreate(i))
    ensures Ok(Apply(s, DoServerCreate(i)))
  {
    var goal := Goal(s.guards[s.calls[i].driver]);
    if goal.Some? && goal.value !in s.records {
      CreateOk(s, i, goal.value);
    } else {
      MovedOk(s, i, Done(Failed));
    }
  }

  lemma ServerUpdateOk(s: System, i: nat)
    requires Ok(s) && Enabled(s, DoServerUpdate(i))
    ensures Ok(Apply(s, DoServerUpdate(i)))
  {
    if s.calls[i].key in s.records && s.records[s.calls[i].key].id == s.calls[i].id {
      ReplaceOk(s, i);
    } else {
      MovedOk(s, i, Done(Failed));
    }
  }
}
