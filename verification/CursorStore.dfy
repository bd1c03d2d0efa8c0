/** The process local store of parked cursor states: a map with least recently used eviction
    that has to behave like a plain list of entries in order of use. */
module CursorStore {
  import opened Options

  type Byte = b: int | 0 <= b < 256

  const TTL_NANOS: int := 300_000_000_000
  const MAX_ENTRIES: nat := 1024
  const MAX_BYTES: nat := 33_554_432
  const MAX_ENTRY_BYTES: nat := 1_048_576

  datatype Entry = Entry(payload: seq<Byte>, expiresAt: int, usedAt: nat)
  datatype Slot = Slot(reference: string, entry: Entry)

  datatype Lookup = Gone | Found(payload: seq<Byte>)

  // The recency list: least recently used slot first.

  function Bytes(list: seq<Slot>): nat {
    if list == [] then 0 else Bytes(list[..|list| - 1]) + |list[|list| - 1].entry.payload|
  }

  function Unexpired(list: seq<Slot>, now: int): seq<Slot> {
    if list == [] then []
    else
      var slot, rest := list[|list| - 1], Unexpired(list[..|list| - 1], now);
      if now < slot.entry.expiresAt then rest + [slot] else rest
  }

  function Without(list: seq<Slot>, reference: string): seq<Slot> {
    if list == [] then []
    else
      var slot, rest := list[|list| - 1], Without(list[..|list| - 1], reference);
      if slot.reference == reference then rest else rest + [slot]
  }

  predicate FitsBeside(list: seq<Slot>, incoming: nat) {
    |list| + 1 <= MAX_ENTRIES && Bytes(list) + incoming <= MAX_BYTES
  }

  /** What is left after dropping least recently used slots until the newcomer fits. */
  function Survivors(list: seq<Slot>, incoming: nat): seq<Slot> {
    if list == [] || FitsBeside(list, incoming) then list else Survivors(list[1..], incoming)
  }

  /** The entry a reference stands for. */
  function Held(list: seq<Slot>, reference: string): Option<Entry> {
    if list == [] then None
    else if list[|list| - 1].reference == reference then Some(list[|list| - 1].entry)
    else Held(list[..|list| - 1], reference)
  }

  /** The store as its callers see it: the recency list and the use clock. */
  datatype Store = Store(recency: seq<Slot>, clock: nat)

  datatype Operation =
    | DoPut(reference: string, payload: seq<Byte>, sweepNow: int, stampNow: int)
    | DoGet(reference: string, now: int)
    | DoDelete(reference: string)
    | DoPurge(now: int)

  predicate Live(list: seq<Slot>, reference: string, now: int) {
    Held(list, reference).Some? && now < Held(list, reference).value.expiresAt
  }

  /** What is left of the list when a payload makes its way in. */
  function MadeRoom(list: seq<Slot>, payload: seq<Byte>, now: int): seq<Slot> {
    Survivors(Unexpired(list, now), |payload|)
  }

  function Step(s: Store, op: Operation): Store {
    match op
    case DoPut(reference, payload, sweepNow, stampNow) =>
      if |payload| > MAX_ENTRY_BYTES then s
      else
        var entry := Entry(payload, stampNow + TTL_NANOS, s.clock + 1);
        Store(MadeRoom(s.recency, payload, sweepNow) + [Slot(reference, entry)], s.clock + 1)
    case DoGet(reference, now) =>
      if Live(s.recency, reference, now) then
        var used := Held(s.recency, reference).value.(usedAt := s.clock + 1);
        Store(Without(s.recency, reference) + [Slot(reference, used)], s.clock + 1)
      else Store(Without(s.recency, reference), s.clock)
    case DoDelete(reference) => Store(Without(s.recency, reference), s.clock)
    case DoPurge(now) => Store(Unexpired(s.recency, now), s.clock)
  }

  /** The map holds exactly the listed slots, each once, and use stamps grow strictly along the
      list without getting ahead of the clock. */
  ghost predicate Lists(list: seq<Slot>, entries: map<string, Entry>, clock: int) {
    if list == [] then entries == map[]
    else
      var slot := list[|list| - 1];
      && slot.reference in entries && entries[slot.reference] == slot.entry
      && slot.entry.usedAt <= clock
      && Lists(list[..|list| - 1], entries - {slot.reference}, slot.entry.usedAt - 1)
  }

  /** The survivors are the longest most recently used run that fits beside the newcomer. */
  lemma {:induction false} SurvivorsAreLongestRun(list: seq<Slot>, incoming: nat)
    requires incoming <= MAX_ENTRY_BYTES
    ensures exists k: nat :: k <= |list| && Survivors(list, incoming) == list[k..]
    ensures |Survivors(list, incoming)| + 1 <= 1024 && Bytes(Survivors(list, incoming)) + incoming <= 33_554_432
    ensures forall k: nat :: k <= |list| && |list| - k + 1 <= 1024 && Bytes(list[k..]) + incoming <= 33_554_432 ==>
      |list| - k <= |Survivors(list, incoming)|
  {
    assert list[0..] == list;
    if list == [] || FitsBeside(list, incoming) {
      assert Survivors(list, incoming) == list[0..];
    } else {
      SurvivorsAreLongestRun(list[1..], incoming);
      var k: nat :| k <= |list[1..]| && Survivors(list[1..], incoming) == list[1..][k..];
      assert Survivors(list, incoming) == list[k + 1..];
      forall k: nat | k <= |list| && |list| - k + 1 <= 1024 && Bytes(list[k..]) + incoming <= 33_554_432
        ensures |list| - k <= |Survivors(list, incoming)|
      {
        assert k > 0;
        assert list[1..][k - 1..] == list[k..];
      }
    }
  }

  lemma {:induction false} SizesAgree(list: seq<Slot>, entries: map<string, Entry>, clock: int)
    requires Lists(list, entries, clock)
    ensures |entries| == |list|
  {
    if list != [] {
      var slot := list[|list| - 1];
      SizesAgree(list[..|list| - 1], entries - {slot.reference}, slot.entry.usedAt - 1);
      assert entries.Keys == (entries - {slot.reference}).Keys + {slot.reference};
      assert |entries| == |entries.Keys|;
    }
  }

  lemma {:induction false} HeldIsEntry(list: seq<Slot>, entries: map<string, Entry>, clock: int, reference: string)
    requires Lists(list, entries, clock)
    ensures Held(list, reference) == if reference in entries then Some(entries[reference]) else None
  {
    if list != [] {
      var slot := list[|list| - 1];
      HeldIsEntry(list[..|list| - 1], entries - {slot.reference}, slot.entry.usedAt - 1, reference);
    }
  }

  lemma LaterClock(list: seq<Slot>, entries: map<string, Entry>, clock: int, later: int)
    requires Lists(list, entries, clock) && clock <= later
    ensures Lists(list, entries, later)
  {
  }

  /** The first slot is in the map, and its stamp is the smallest there. */
  lemma {:induction false} FirstIsOldest(list: seq<Slot>, entries: map<string, Entry>, clock: int)
    requires Lists(list, entries, clock) && list != []
    ensures list[0].reference in entries && entries[list[0].reference] == list[0].entry
    ensures list[0].entry.usedAt <= clock
    ensures forall r :: r in entries && r != list[0].reference ==> list[0].entry.usedAt < entries[r].usedAt
  {
    var n := |list| - 1;
    var before := entries - {list[n].reference};
    if n > 0 {
      FirstIsOldest(list[..n], before, list[n].entry.usedAt - 1);
      assert list[..n][0] == list[0];
      assert forall r :: r in entries && r != list[n].reference ==> r in before && before[r] == entries[r];
    } else {
      assert before == map[];
      assert forall r :: r in entries ==> r == list[0].reference || r in before;
    }
  }

  lemma {:induction false} WithoutAbsent(list: seq<Slot>, entries: map<string, Entry>, clock: int, reference: string)
    requires Lists(list, entries, clock) && reference !in entries
    ensures Without(list, reference) == list
  {
    if list != [] {
      var n := |list| - 1;
      WithoutAbsent(list[..n], entries - {list[n].reference}, list[n].entry.usedAt - 1, reference);
      assert list == list[..n] + [list[n]];
    }
  }

  /** Removing a reference removes one slot and the bytes of its payload. */
  lemma {:induction false} RemovedBytes(list: seq<Slot>, entries: map<string, Entry>, clock: int, reference: string)
    requires Lists(list, entries, clock) && reference in entries
    ensures Bytes(list) == Bytes(Without(list, reference)) + |entries[reference].payload|
    ensures |Without(list, reference)| == |list| - 1
  {
    var n := |list| - 1;
    var before := entries - {list[n].reference};
    if list[n].reference == reference {
      WithoutAbsent(list[..n], before, list[n].entry.usedAt - 1, reference);
    } else {
      RemovedBytes(list[..n], before, list[n].entry.usedAt - 1, reference);
      assert (Without(list[..n], reference) + [list[n]])[..n - 1] == Without(list[..n], reference);
    }
  }

  /** A slot at the end of a list, seen from the list before it. */
  lemma ListsMore(list: seq<Slot>, last: Slot, entries: map<string, Entry>, clock: int)
    requires Lists(list, entries, last.entry.usedAt - 1) && last.reference !in entries && last.entry.usedAt <= clock
    ensures Lists(list + [last], entries[last.reference := last.entry], clock)
  {
    assert (list + [last])[..|list|] == list;
    assert entries[last.reference := last.entry] - {last.reference} == entries;
  }

  /** Deleting one reference from the map is deleting it from the list. */
  lemma {:induction false} RemoveOne(list: seq<Slot>, entries: map<string, Entry>, clock: int, reference: string)
    requires Lists(list, entries, clock) && reference in entries
    ensures Lists(Without(list, reference), entries - {reference}, clock)
  {
    var n := |list| - 1;
    var last := list[n];
    var before := entries - {last.reference};
    if last.reference == reference {
      WithoutAbsent(list[..n], before, last.entry.usedAt - 1, reference);
      LaterClock(list[..n], before, last.entry.usedAt - 1, clock);
    } else {
      RemoveOne(list[..n], before, last.entry.usedAt - 1, reference);
      ListsMore(Without(list[..n], reference), last, before - {reference}, clock);
      assert (before - {reference})[last.reference := last.entry] == entries - {reference};
    }
  }

  lemma {:induction false} WithoutFirst(list: seq<Slot>, entries: map<string, Entry>, clock: int)
    requires Lists(list, entries, clock) && list != []
    ensures Without(list, list[0].reference) == list[1..]
  {
    var n := |list| - 1;
    var before := entries - {list[n].reference};
    if n > 0 {
      WithoutFirst(list[..n], before, list[n].entry.usedAt - 1);
      FirstIsOldest(list[..n], before, list[n].entry.usedAt - 1);
      assert list[1..] == list[..n][1..] + [list[n]];
    } else {
      assert list[..0] == [] && list[1..] == [];
    }
  }

  lemma {:induction false} ExpiredAreNotMissed(list: seq<Slot>, entries: map<string, Entry>, clock: int, now: int,
                                               reference: string)
    requires Lists(list, entries, clock)
    requires reference in entries ==> entries[reference].expiresAt <= now
    ensures Unexpired(Without(list, reference), now) == Unexpired(list, now)
  {
    if list != [] {
      var n := |list| - 1;
      ExpiredAreNotMissed(list[..n], entries - {list[n].reference}, list[n].entry.usedAt - 1, now, reference);
      if list[n].reference != reference {
        var rest := Without(list[..n], reference);
        var kept := rest + [list[n]];
        assert kept[..|kept| - 1] == rest;
      }
    }
  }

  lemma {:induction false} AllUnexpired(list: seq<Slot>, entries: map<string, Entry>, clock: int, now: int)
    requires Lists(list, entries, clock)
    requires forall r :: r in entries ==> now < entries[r].expiresAt
    ensures Unexpired(list, now) == list
  {
    if list != [] {
      var n := |list| - 1;
      AllUnexpired(list[..n], entries - {list[n].reference}, list[n].entry.usedAt - 1, now);
      assert list == list[..n] + [list[n]];
    }
  }

  lemma AppendNewest(list: seq<Slot>, entries: map<string, Entry>, clock: nat, slot: Slot)
    requires Lists(list, entries, clock) && slot.reference !in entries && slot.entry.usedAt == clock + 1
    ensures Lists(list + [slot], entries[slot.reference := slot.entry], clock + 1)
    ensures Bytes(list + [slot]) == Bytes(list) + |slot.entry.payload|
  {
    var longer := list + [slot];
    assert longer[..|longer| - 1] == list;
    assert entries[slot.reference := slot.entry] - {slot.reference} == entries;
  }

  /** Giving a listed reference a new stamp moves it to the end of the list. */
  lemma Touch(list: seq<Slot>, entries: map<string, Entry>, clock: nat, reference: string)
    requires Lists(list, entries, clock) && reference in entries
    ensures var used := entries[reference].(usedAt := clock + 1);
      && Lists(Without(list, reference) + [Slot(reference, used)], entries[reference := used], clock + 1)
      && Bytes(Without(list, reference) + [Slot(reference, used)]) == Bytes(list)
  {
    var used := entries[reference].(usedAt := clock + 1);
    RemoveOne(list, entries, clock, reference);
    RemovedBytes(list, entries, clock, reference);
    AppendNewest(Without(list, reference), entries - {reference}, clock, Slot(reference, used));
    assert (entries - {reference})[reference := used] == entries[reference := used];
  }

  lemma RoomIsMade(list: seq<Slot>, incoming: nat)
    requires incoming <= MAX_ENTRY_BYTES
    ensures FitsBeside(Survivors(list, incoming), incoming)
  {
    SurvivorsAreLongestRun(list, incoming);
  }

  class CursorStore {
    var entries: map<string, Entry>
    var bytes: int
    var clock: nat
    /** The list the map stands for, least recently used first. */
    ghost var recency: seq<Slot>

    ghost function View(): Store
      reads this
    {
      Store(recency, clock)
    }

    /** Byte accounting is exact, stamps are distinct and no stamp is ahead of the clock. */
    ghost predicate Valid()
      reads this
    {
      Lists(recency, entries, clock) && bytes == Bytes(recency) && "" !in entries
    }

    constructor ()
      ensures Valid() && recency == [] && clock == 0
    {
      entries, bytes, clock, recency := map[], 0, 0, [];
    }

    method Purge(now: int) returns (removed: nat)
      requires Valid()
      modifies `entries, `bytes, `recency
      ensures Valid() && entries.Keys <= old(entries.Keys)
      ensures View() == Step(old(View()), DoPurge(now))
      ensures removed == |old(recency)| - |recency|
    {
      removed := 0;
      var pending := entries.Keys;
      while pending != {}
        invariant Valid()
        invariant pending <= entries.Keys <= old(entries.Keys)
        invariant forall r :: r in entries && r !in pending ==> now < entries[r].expiresAt
        invariant Unexpired(recency, now) == Unexpired(old(recency), now)
        invariant removed == |old(recency)| - |recency|
        decreases pending
      {
        var reference :| reference in pending;
        pending := pending - {reference};
        if !(now < entries[reference].expiresAt) {
          RemoveOne(recency, entries, clock, reference);
          RemovedBytes(recency, entries, clock, reference);
          ExpiredAreNotMissed(recency, entries, clock, now, reference);
          bytes := bytes - |entries[reference].payload|;
          entries := entries - {reference};
          recency := Without(recency, reference);
          removed := removed + 1;
        }
      }
      AllUnexpired(recency, entries, clock, now);
    }

    /** The victim is the least recently used reference whatever order the map is walked in. */
    method Oldest() returns (victim: string)
      requires Valid() && entries != map[]
      ensures recency != [] && victim == recency[0].reference && victim in entries
    {
      victim := "";
      var oldest := 0;
      var pending := entries.Keys;
      while pending != {}
        invariant pending <= entries.Keys
        invariant victim == "" ==> pending == entries.Keys
        invariant victim != "" ==> victim in entries && oldest == entries[victim].usedAt
        invariant victim != "" ==> forall r :: r in entries && r !in pending ==> oldest <= entries[r].usedAt
        decreases pending
      {
        var reference :| reference in pending;
        pending := pending - {reference};
        if victim == "" || entries[reference].usedAt < oldest {
          victim, oldest := reference, entries[reference].usedAt;
        }
      }
      SizesAgree(recency, entries, clock);
      FirstIsOldest(recency, entries, clock);
    }

    method Evict(incoming: nat)
      requires Valid()
      modifies `entries, `bytes, `recency
      ensures Valid() && entries.Keys <= old(entries.Keys)
      ensures recency == Survivors(old(recency), incoming)
    {
      while |entries| > 0 && (|entries| + 1 > MAX_ENTRIES || bytes + incoming > MAX_BYTES)
        invariant Valid()
        invariant entries.Keys <= old(entries.Keys)
        invariant Survivors(recency, incoming) == Survivors(old(recency), incoming)
        decreases |entries|
      {
        SizesAgree(recency, entries, clock);
        var victim := Oldest();
        RemoveOne(recency, entries, clock, victim);
        RemovedBytes(recency, entries, clock, victim);
        WithoutFirst(recency, entries, clock);
        bytes := bytes - |entries[victim].payload|;
        entries := entries - {victim};
        recency := recency[1..];
      }
      SizesAgree(recency, entries, clock);
    }

    /** The part of `Put` under the lock: sweep, make room, insert. */
    method Park(reference: string, payload: seq<Byte>, sweepNow: int, stampNow: int)
      requires Valid() && |payload| <= MAX_ENTRY_BYTES
      requires reference != "" && reference !in entries
      modifies this
      ensures Valid() && clock == old(clock) + 1
      ensures recency == MadeRoom(old(recency), payload, sweepNow)
                         + [Slot(reference, Entry(payload, stampNow + TTL_NANOS, clock))]
      ensures |entries| <= MAX_ENTRIES && bytes <= MAX_BYTES
    {
      var swept := Purge(sweepNow);
      Evict(|payload|);
      RoomIsMade(Unexpired(old(recency), sweepNow), |payload|);
      SizesAgree(recency, entries, clock);
      clock := clock + 1;
      var entry := Entry(payload, stampNow + TTL_NANOS, clock);
      AppendNewest(recency, entries, clock - 1, Slot(reference, entry));
      entries := entries[reference := entry];
      bytes := bytes + |payload|;
      recency := recency + [Slot(reference, entry)];
    }

    /** Parks a payload under a fresh reference. The clock is read once for the sweep and once
        for the expiry. */
    method Put(reference: string, payload: seq<Byte>, sweepNow: int, stampNow: int) returns (stored: bool)
      requires Valid()
      requires reference != "" && reference !in entries
      modifies this
      ensures Valid()
      ensures stored <==> |payload| <= MAX_ENTRY_BYTES
      ensures View() == Step(old(View()), DoPut(reference, payload, sweepNow, stampNow))
      ensures stored ==> |entries| <= MAX_ENTRIES && bytes <= MAX_BYTES
    {
      stored := |payload| <= MAX_ENTRY_BYTES;
      if stored {
        Park(reference, payload, sweepNow, stampNow);
      }
    }

    method Remove(reference: string)
      requires Valid() && reference in entries
      modifies `entries, `bytes, `recency
      ensures Valid() && recency == Without(old(recency), reference)
    {
      RemoveOne(recency, entries, clock, reference);
      RemovedBytes(recency, entries, clock, reference);
      bytes := bytes - |entries[reference].payload|;
      entries := entries - {reference};
      recency := Without(recency, reference);
    }

    /** Gives a reference the newest stamp. */
    method Refresh(reference: string)
      requires Valid() && reference in entries
      modifies `entries, `clock, `recency
      ensures Valid() && clock == old(clock) + 1
      ensures recency == Without(old(recency), reference)
                         + [Slot(reference, old(entries)[reference].(usedAt := clock))]
    {
      Touch(recency, entries, clock, reference);
      clock := clock + 1;
      recency := Without(recency, reference) + [Slot(reference, entries[reference].(usedAt := clock))];
      entries := entries[reference := entries[reference].(usedAt := clock)];
    }

    method Get(reference: string, now: int) returns (result: Lookup)
      requires Valid()
      modifies this
      ensures Valid()
      ensures View() == Step(old(View()), DoGet(reference, now))
      ensures result == if Live(old(recency), reference, now)
                        then Found(Held(old(recency), reference).value.payload) else Gone
    {
      HeldIsEntry(recency, entries, clock, reference);
      if reference == "" || reference !in entries {
        WithoutAbsent(recency, entries, clock, reference);
        return Gone;
      }
      var entry := entries[reference];
      if !(now < entry.expiresAt) {
        Remove(reference);
        return Gone;
      }
      Refresh(reference);
      result := Found(entry.payload);
    }

    method Delete(reference: string)
      requires Valid()
      modifies `entries, `bytes, `recency
      ensures Valid()
      ensures View() == Step(old(View()), DoDelete(reference))
    {
      if reference != "" && reference in entries {
        Remove(reference);
      } else {
        WithoutAbsent(recency, entries, clock, reference);
      }
    }
  }
}
