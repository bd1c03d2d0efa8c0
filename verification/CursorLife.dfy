/** A parked state and the token that refers to it: when the one still finds the other, over every
    sequence of operations on the store. */
module CursorLife {
  import opened Options
  import opened CursorStore
  import CursorCodec
  import Text

  function Run(s: Store, ops: seq<Operation>): Store
    decreases |ops|
  {
    if ops == [] then s else Run(Step(s, ops[0]), ops[1..])
  }

  /** References are fresh: no other state is parked under this one. */
  ghost predicate Others(ops: seq<Operation>, reference: string) {
    forall i :: 0 <= i < |ops| && ops[i].DoPut? ==> ops[i].reference != reference
  }

  /** The operation leaves the reference where it is, or moves it to the end: it is not deleted,
      not looked at when expired, and there is room for it beside a newcomer. */
  predicate Keeps(s: Store, op: Operation, reference: string, expiry: int) {
    match op
    case DoPut(_, payload, sweepNow, _) =>
      |payload| <= MAX_ENTRY_BYTES ==>
        sweepNow < expiry && Held(MadeRoom(s.recency, payload, sweepNow), reference).Some?
    case DoGet(other, now) => other == reference ==> now < expiry
    case DoDelete(other) => other != reference
    case DoPurge(now) => now < expiry
  }

  predicate KeepsAll(s: Store, ops: seq<Operation>, reference: string, expiry: int)
    decreases |ops|
  {
    ops != [] ==> Keeps(s, ops[0], reference, expiry) && KeepsAll(Step(s, ops[0]), ops[1..], reference, expiry)
  }

  // ---- One reference in the recency list -------------------------------------------------

  /** The reference occurs at most once. */
  ghost predicate Once(list: seq<Slot>, reference: string) {
    list != [] ==>
      var n := |list| - 1;
      if list[n].reference == reference then Held(list[..n], reference).None? else Once(list[..n], reference)
  }

  lemma AppendedHolds(list: seq<Slot>, slot: Slot, reference: string)
    ensures Held(list + [slot], reference) ==
      if slot.reference == reference then Some(slot.entry) else Held(list, reference)
    ensures slot.reference != reference && Once(list, reference) ==> Once(list + [slot], reference)
    ensures Held(list, reference).None? ==> Once(list + [slot], reference)
  {
    assert (list + [slot])[..|list|] == list;
    if Held(list, reference).None? {
      AbsentIsOnce(list, reference);
    }
  }

  lemma {:induction false} AbsentIsOnce(list: seq<Slot>, reference: string)
    requires Held(list, reference).None?
    ensures Once(list, reference)
  {
    if list != [] {
      AbsentIsOnce(list[..|list| - 1], reference);
    }
  }

  lemma {:induction false} WithoutHolds(list: seq<Slot>, other: string, reference: string)
    requires Once(list, reference)
    ensures Held(Without(list, other), reference) == if other == reference then None else Held(list, reference)
    ensures Once(Without(list, other), reference)
  {
    if list != [] {
      var n := |list| - 1;
      if list[n].reference == reference {
        AbsentIsOnce(list[..n], reference);
      }
      WithoutHolds(list[..n], other, reference);
      if list[n].reference != other {
        AppendedHolds(Without(list[..n], other), list[n], reference);
      }
    }
  }

  lemma {:induction false} UnexpiredHolds(list: seq<Slot>, now: int, reference: string)
    requires Once(list, reference)
    ensures Held(Unexpired(list, now), reference) == if Live(list, reference, now) then Held(list, reference) else None
    ensures Once(Unexpired(list, now), reference)
  {
    if list != [] {
      var n := |list| - 1;
      if list[n].reference == reference {
        AbsentIsOnce(list[..n], reference);
      }
      UnexpiredHolds(list[..n], now, reference);
      AppendedHolds(Unexpired(list[..n], now), list[n], reference);
    }
  }

  lemma {:induction false} FirstIsHeld(list: seq<Slot>)
    requires list != []
    ensures Held(list, list[0].reference).Some?
  {
    if |list| > 1 {
      FirstIsHeld(list[..|list| - 1]);
    }
  }

  lemma {:induction false} DroppedHolds(list: seq<Slot>, reference: string)
    requires list != [] && Once(list, reference)
    ensures Held(list[1..], reference) == if list[0].reference == reference then None else Held(list, reference)
    ensures Once(list[1..], reference)
  {
    var n := |list| - 1;
    if n > 0 {
      if list[n].reference == reference {
        AbsentIsOnce(list[..n], reference);
      }
      FirstIsHeld(list[..n]);
      DroppedHolds(list[..n], reference);
      assert list[1..] == list[..n][1..] + [list[n]];
      AppendedHolds(list[..n][1..], list[n], reference);
    } else {
      assert list[1..] == [];
    }
  }

  /** Room is made from the front: the reference is kept as it was or dropped. */
  lemma {:induction false} SurvivorsHold(list: seq<Slot>, incoming: nat, reference: string)
    requires Once(list, reference)
    ensures Held(Survivors(list, incoming), reference).Some? ==>
      Held(Survivors(list, incoming), reference) == Held(list, reference)
    ensures Once(Survivors(list, incoming), reference)
  {
    if list != [] && !FitsBeside(list, incoming) {
      DroppedHolds(list, reference);
      SurvivorsHold(list[1..], incoming, reference);
    }
  }

  /** The part of the list from the reference on: itself and everything used more recently. */
  function From(list: seq<Slot>, reference: string): seq<Slot> {
    if list == [] || list[0].reference == reference then list else From(list[1..], reference)
  }

  /** A newcomer spares a reference exactly when it fits beside the reference and everything used
      more recently. */
  lemma {:induction false} SparedExactly(list: seq<Slot>, incoming: nat, reference: string)
    requires Once(list, reference) && Held(list, reference).Some?
    ensures Held(Survivors(list, incoming), reference).Some? <==>
      |From(list, reference)| + 1 <= 1024 && Bytes(From(list, reference)) + incoming <= 33_554_432
  {
    DroppedHolds(list, reference);
    if FitsBeside(list, incoming) {
      FromFits(list, incoming, reference);
    } else if list[0].reference == reference {
      SurvivorsHold(list[1..], incoming, reference);
    } else {
      SparedExactly(list[1..], incoming, reference);
    }
  }

  lemma {:induction false} FromFits(list: seq<Slot>, incoming: nat, reference: string)
    requires FitsBeside(list, incoming)
    ensures FitsBeside(From(list, reference), incoming)
  {
    if list != [] && list[0].reference != reference {
      BytesDropped(list);
      FromFits(list[1..], incoming, reference);
    }
  }

  lemma {:induction false} BytesDropped(list: seq<Slot>)
    requires list != []
    ensures Bytes(list) == |list[0].entry.payload| + Bytes(list[1..])
  {
    var n := |list| - 1;
    if n > 0 {
      BytesDropped(list[..n]);
      assert list[1..][..n - 1] == list[..n][1..];
    } else {
      assert list[..0] == [] && list[1..] == [];
    }
  }

  // ---- The life of a parked state --------------------------------------------------------

  /** The reference is held, once, with this payload until this moment. */
  ghost predicate Parked(s: Store, reference: string, payload: seq<Byte>, expiry: int) {
    && Once(s.recency, reference) && Held(s.recency, reference).Some?
    && Held(s.recency, reference).value.payload == payload && Held(s.recency, reference).value.expiresAt == expiry
  }

  /** One operation keeps the state parked, or the reference is gone. */
  lemma StepKeeps(s: Store, op: Operation, reference: string, payload: seq<Byte>, expiry: int)
    requires Parked(s, reference, payload, expiry) && (op.DoPut? ==> op.reference != reference)
    ensures if Keeps(s, op, reference, expiry) then Parked(Step(s, op), reference, payload, expiry)
            else Held(Step(s, op).recency, reference).None?
  {
    match op
    case DoPut(other, more, sweepNow, stampNow) =>
      if |more| <= MAX_ENTRY_BYTES {
        UnexpiredHolds(s.recency, sweepNow, reference);
        SurvivorsHold(Unexpired(s.recency, sweepNow), |more|, reference);
        var entry := Entry(more, stampNow + TTL_NANOS, s.clock + 1);
        AppendedHolds(MadeRoom(s.recency, more, sweepNow), Slot(other, entry), reference);
      }
    case DoGet(other, now) => GetKeeps(s, other, now, reference);
    case DoDelete(other) => WithoutHolds(s.recency, other, reference);
    case DoPurge(now) => UnexpiredHolds(s.recency, now, reference);
  }

  lemma GetKeeps(s: Store, other: string, now: int, reference: string)
    requires Once(s.recency, reference)
    ensures var list := Step(s, DoGet(other, now)).recency;
      && Once(list, reference)
      && (other != reference ==> Held(list, reference) == Held(s.recency, reference))
      && (other == reference ==>
            if Live(s.recency, reference, now)
            then Held(list, reference) == Some(Held(s.recency, reference).value.(usedAt := s.clock + 1))
            else Held(list, reference).None?)
  {
    WithoutHolds(s.recency, other, reference);
    var list, rest := Step(s, DoGet(other, now)).recency, Without(s.recency, other);
    if Live(s.recency, other, now) {
      var slot := Slot(other, Held(s.recency, other).value.(usedAt := s.clock + 1));
      assert list == rest + [slot];
      AppendedHolds(rest, slot, reference);
    } else {
      assert list == rest;
    }
  }

  /** A reference that is gone never comes back. */
  lemma GoneStays(s: Store, op: Operation, reference: string)
    requires Held(s.recency, reference).None? && (op.DoPut? ==> op.reference != reference)
    ensures Held(Step(s, op).recency, reference).None?
  {
    AbsentIsOnce(s.recency, reference);
    match op
    case DoPut(other, more, sweepNow, stampNow) =>
      UnexpiredHolds(s.recency, sweepNow, reference);
      SurvivorsHold(Unexpired(s.recency, sweepNow), |more|, reference);
      var entry := Entry(more, stampNow + TTL_NANOS, s.clock + 1);
      AppendedHolds(MadeRoom(s.recency, more, sweepNow), Slot(other, entry), reference);
    case DoGet(other, now) => GetKeeps(s, other, now, reference);
    case DoDelete(other) => WithoutHolds(s.recency, other, reference);
    case DoPurge(now) => UnexpiredHolds(s.recency, now, reference);
  }

  lemma {:induction false} GoneForGood(s: Store, ops: seq<Operation>, reference: string)
    requires Held(s.recency, reference).None? && Others(ops, reference)
    ensures Held(Run(s, ops).recency, reference).None?
    decreases |ops|
  {
    if ops != [] {
      GoneStays(s, ops[0], reference);
      GoneForGood(Step(s, ops[0]), ops[1..], reference);
    }
  }

  /** After any operations a parked state is found exactly when it has not expired and every one
      of the operations kept it; and then it is found unchanged. */
  lemma {:induction false} FoundExactly(s: Store, ops: seq<Operation>, reference: string, payload: seq<Byte>,
                                        expiry: int, now: int)
    requires Parked(s, reference, payload, expiry) && Others(ops, reference)
    ensures Live(Run(s, ops).recency, reference, now) <==> now < expiry && KeepsAll(s, ops, reference, expiry)
    ensures KeepsAll(s, ops, reference, expiry) ==> Parked(Run(s, ops), reference, payload, expiry)
    decreases |ops|
  {
    if ops != [] {
      StepKeeps(s, ops[0], reference, payload, expiry);
      if Keeps(s, ops[0], reference, expiry) {
        FoundExactly(Step(s, ops[0]), ops[1..], reference, payload, expiry, now);
      } else {
        GoneForGood(Step(s, ops[0]), ops[1..], reference);
      }
    }
  }

  lemma PutParks(s: Store, reference: string, payload: seq<Byte>, sweepNow: int, parked: int)
    requires Held(s.recency, reference).None? && |payload| <= MAX_ENTRY_BYTES
    ensures Parked(Step(s, DoPut(reference, payload, sweepNow, parked)), reference, payload, parked + TTL_NANOS)
  {
    AbsentIsOnce(s.recency, reference);
    UnexpiredHolds(s.recency, sweepNow, reference);
    SurvivorsHold(Unexpired(s.recency, sweepNow), |payload|, reference);
    var entry := Entry(payload, parked + TTL_NANOS, s.clock + 1);
    AppendedHolds(MadeRoom(s.recency, payload, sweepNow), Slot(reference, entry), reference);
  }

  // ---- Tokens ----------------------------------------------------------------------------

  /** The clock of every operation is read no later than this. */
  predicate InTime(ops: seq<Operation>, now: int) {
    forall i :: 0 <= i < |ops| ==>
      match ops[i]
      case DoPut(_, _, sweepNow, _) => sweepNow <= now
      case DoGet(_, at) => at <= now
      case DoDelete(_) => true
      case DoPurge(at) => at <= now
  }

  /** The reference is never deleted, and every newcomer leaves room for it. */
  predicate Spared(s: Store, ops: seq<Operation>, reference: string)
    decreases |ops|
  {
    ops != [] ==>
      && (ops[0].DoDelete? ==> ops[0].reference != reference)
      && (ops[0].DoPut? && |ops[0].payload| <= MAX_ENTRY_BYTES ==>
            Held(MadeRoom(s.recency, ops[0].payload, ops[0].sweepNow), reference).Some?)
      && Spared(Step(s, ops[0]), ops[1..], reference)
  }

  /** Before the expiry only deletion and eviction can end a parked state. */
  lemma {:induction false} SparedIsKept(s: Store, ops: seq<Operation>, reference: string, expiry: int, now: int)
    requires InTime(ops, now) && now < expiry
    ensures KeepsAll(s, ops, reference, expiry) <==> Spared(s, ops, reference)
    decreases |ops|
  {
    if ops != [] {
      SparedIsKept(Step(s, ops[0]), ops[1..], reference, expiry, now);
    }
  }

  /** At a moment after all operations the state is found exactly when it has not expired, was not
      deleted and was never crowded out. */
  lemma FoundWhenSpared(s: Store, ops: seq<Operation>, reference: string, payload: seq<Byte>, parked: int, now: int)
    requires Parked(s, reference, payload, parked + TTL_NANOS) && Others(ops, reference) && InTime(ops, now)
    ensures Live(Run(s, ops).recency, reference, now) <==>
            CursorCodec.StateParked(parked, now) && Spared(s, ops, reference)
  {
    FoundExactly(s, ops, reference, payload, parked + TTL_NANOS, now);
    if now < parked + TTL_NANOS {
      SparedIsKept(s, ops, reference, parked + TTL_NANOS, now);
    }
  }

  /** A token is live after the operations. That it finds its state from then on as long as it
      lives holds exactly when the state was neither deleted nor crowded out and the token, its
      expiry rounded down, does not end after the state. */
  lemma LiveTokenFindsItsState(s: Store, ops: seq<Operation>, reference: string, payload: seq<Byte>, parked: int,
                               signed: int, after: int)
    requires Parked(s, reference, payload, parked + TTL_NANOS) && Others(ops, reference)
    requires InTime(ops, after) && CursorCodec.TokenLive(signed, after)
    ensures (forall now :: after <= now && CursorCodec.TokenLive(signed, now) ==>
      Live(Run(s, ops).recency, reference, now))
       <==> Spared(s, ops, reference) && signed - signed % CursorCodec.NANOS_PER_MILLI <= parked
  {
    var found := Run(s, ops).recency;
    CursorCodec.TokenOutlivesParkedState(parked, signed);
    forall now | after <= now
      ensures Live(found, reference, now) <==> CursorCodec.StateParked(parked, now) && Spared(s, ops, reference)
    {
      FoundWhenSpared(s, ops, reference, payload, parked, now);
    }
    if !(signed - signed % CursorCodec.NANOS_PER_MILLI <= parked) {
      var late := if after <= parked + TTL_NANOS then parked + TTL_NANOS else after;
      ExpiryIsLater(parked, signed);
      assert CursorCodec.TokenLive(signed, late) && !CursorCodec.StateParked(parked, late);
    }
  }

  lemma ExpiryIsLater(parked: int, signed: int)
    requires parked < signed - signed % CursorCodec.NANOS_PER_MILLI
    ensures CursorCodec.TokenLive(signed, parked + TTL_NANOS)
  {
  }

  // ---- Both ways to fail -----------------------------------------------------------------

  /** Signed a millisecond after parking: at the end of the state's time the token still lives. */
  lemma TokenSignedLate()
    ensures var now := TTL_NANOS;
      CursorCodec.TokenLive(CursorCodec.NANOS_PER_MILLI, now) && !CursorCodec.StateParked(0, now)
  {
  }

  const MINE := "."

  /** So many others are parked after the first, each a byte, all at the moment of parking. */
  function Crowd(n: nat): seq<Operation> {
    if n == 0 then [] else Crowd(n - 1) + [DoPut(Text.Format36(n), [0], 0, 0)]
  }

  const ALONE: Store := Step(Store([], 0), DoPut(MINE, [0], 0, 0))

  lemma {:induction false} RunOneMore(s: Store, ops: seq<Operation>, op: Operation)
    ensures Run(s, ops + [op]) == Step(Run(s, ops), op)
    decreases |ops|
  {
    if ops == [] {
      assert (ops + [op])[1..] == [];
    } else {
      assert (ops + [op])[1..] == ops[1..] + [op];
      RunOneMore(Step(s, ops[0]), ops[1..], op);
    }
  }

  /** Every slot is a byte that has not expired. */
  ghost predicate Small(list: seq<Slot>) {
    forall i :: 0 <= i < |list| ==> |list[i].entry.payload| == 1 && list[i].entry.expiresAt > 0
  }

  lemma {:induction false} SmallBytes(list: seq<Slot>)
    requires Small(list)
    ensures Bytes(list) == |list| && Unexpired(list, 0) == list
  {
    if list != [] {
      SmallBytes(list[..|list| - 1]);
    }
  }

  /** As long as there is room, newcomers line up behind the first. */
  lemma {:induction false} CrowdLinesUp(n: nat)
    requires n < MAX_ENTRIES
    ensures var list := Run(ALONE, Crowd(n)).recency;
      Small(list) && |list| == n + 1 && list[0].reference == MINE
  {
    if n == 0 {
      assert ALONE.recency == [Slot(MINE, Entry([0], TTL_NANOS, 1))];
    } else {
      CrowdLinesUp(n - 1);
      RunOneMore(ALONE, Crowd(n - 1), DoPut(Text.Format36(n), [0], 0, 0));
      SmallBytes(Run(ALONE, Crowd(n - 1)).recency);
    }
  }

  lemma {:induction false} CrowdIsOthers(n: nat)
    ensures Others(Crowd(n), MINE)
  {
    if n > 0 {
      CrowdIsOthers(n - 1);
      Text.Parse36Format36(n);
    }
  }

  /** One more than fit: at the very moment of parking and signing, both expiries far off, the token
      finds nothing. */
  lemma CrowdedOut()
    ensures Others(Crowd(MAX_ENTRIES), MINE)
    ensures CursorCodec.TokenLive(0, 0) && CursorCodec.StateParked(0, 0)
    ensures !Live(Run(ALONE, Crowd(MAX_ENTRIES)).recency, MINE, 0)
  {
    CrowdIsOthers(MAX_ENTRIES);
    var n := MAX_ENTRIES - 1;
    CrowdLinesUp(n);
    var before := Run(ALONE, Crowd(n));
    var op := DoPut(Text.Format36(MAX_ENTRIES), [0], 0, 0);
    RunOneMore(ALONE, Crowd(n), op);
    SmallBytes(before.recency);
    CrowdParked(n);
    StepKeeps(before, op, MINE, [0], TTL_NANOS);
    SparedExactly(before.recency, 1, MINE);
  }

  /** Until then the state stays parked. */
  lemma {:induction false} CrowdParked(n: nat)
    requires n < MAX_ENTRIES
    ensures Parked(Run(ALONE, Crowd(n)), MINE, [0], TTL_NANOS)
  {
    if n == 0 {
      PutParks(Store([], 0), MINE, [0], 0, 0);
    } else {
      CrowdParked(n - 1);
      CrowdLinesUp(n - 1);
      Text.Parse36Format36(n);
      var before := Run(ALONE, Crowd(n - 1));
      var op := DoPut(Text.Format36(n), [0], 0, 0);
      RunOneMore(ALONE, Crowd(n - 1), op);
      SmallBytes(before.recency);
      SparedExactly(before.recency, 1, MINE);
      StepKeeps(before, op, MINE, [0], TTL_NANOS);
    }
  }
}
