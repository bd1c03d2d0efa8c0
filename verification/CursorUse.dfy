/** The store evicts by last use: over every sequence of operations its list is in the order in
    which the references were last parked or found. */
module CursorUse {
  import opened Options
  import opened CursorStore
  import opened CursorLife

  // ---- Lists in the order of use ---------------------------------------------------------

  /** Every reference of the list was used, each later than the ones before it; `use` tells when. */
  ghost predicate Ranked(list: seq<Slot>, use: string -> nat, bound: int) {
    list != [] ==>
      var last := use(list[|list| - 1].reference);
      0 < last <= bound && Ranked(list[..|list| - 1], use, last - 1)
  }

  lemma RankedMore(list: seq<Slot>, slot: Slot, use: string -> nat, bound: int)
    requires Ranked(list, use, use(slot.reference) - 1) && 0 < use(slot.reference) <= bound
    ensures Ranked(list + [slot], use, bound)
  {
    assert (list + [slot])[..|list|] == list;
  }

  lemma RankedLater(list: seq<Slot>, use: string -> nat, bound: int, later: int)
    requires Ranked(list, use, bound) && bound <= later
    ensures Ranked(list, use, later)
  {
  }

  lemma {:induction false} RankedWithout(list: seq<Slot>, use: string -> nat, bound: int, reference: string)
    requires Ranked(list, use, bound)
    ensures Ranked(Without(list, reference), use, bound) && Held(Without(list, reference), reference).None?
  {
    if list != [] {
      var n := |list| - 1;
      var last := use(list[n].reference);
      RankedWithout(list[..n], use, last - 1, reference);
      if list[n].reference == reference {
        RankedLater(Without(list[..n], reference), use, last - 1, bound);
      } else {
        RankedMore(Without(list[..n], reference), list[n], use, bound);
        AppendedHolds(Without(list[..n], reference), list[n], reference);
      }
    }
  }

  lemma {:induction false} RankedUnexpired(list: seq<Slot>, use: string -> nat, bound: int, now: int)
    requires Ranked(list, use, bound)
    ensures Ranked(Unexpired(list, now), use, bound)
  {
    if list != [] {
      var n := |list| - 1;
      var last := use(list[n].reference);
      RankedUnexpired(list[..n], use, last - 1, now);
      if now < list[n].entry.expiresAt {
        RankedMore(Unexpired(list[..n], now), list[n], use, bound);
      } else {
        RankedLater(Unexpired(list[..n], now), use, last - 1, bound);
      }
    }
  }

  lemma {:induction false} RankedDropped(list: seq<Slot>, use: string -> nat, bound: int)
    requires list != [] && Ranked(list, use, bound)
    ensures Ranked(list[1..], use, bound)
  {
    var n := |list| - 1;
    if n > 0 {
      RankedDropped(list[..n], use, use(list[n].reference) - 1);
      assert list[1..] == list[..n][1..] + [list[n]];
      RankedMore(list[..n][1..], list[n], use, bound);
    } else {
      assert list[1..] == [];
    }
  }

  lemma {:induction false} RankedSurvivors(list: seq<Slot>, use: string -> nat, bound: int, incoming: nat)
    requires Ranked(list, use, bound)
    ensures Ranked(Survivors(list, incoming), use, bound)
  {
    if list != [] && !FitsBeside(list, incoming) {
      RankedDropped(list, use, bound);
      RankedSurvivors(list[1..], use, bound, incoming);
    }
  }

  /** What happens to a reference that is not in the list does not change the list's order. */
  lemma {:induction false} RankedStill(list: seq<Slot>, use: string -> nat, now: string -> nat, bound: int,
                                       reference: string)
    requires Ranked(list, use, bound) && Held(list, reference).None?
    requires forall other :: other != reference ==> now(other) == use(other)
    ensures Ranked(list, now, bound)
  {
    if list != [] {
      RankedStill(list[..|list| - 1], use, now, use(list[|list| - 1].reference) - 1, reference);
    }
  }

  lemma {:induction false} RankedPairs(list: seq<Slot>, use: string -> nat, bound: int, i: nat, j: nat)
    requires Ranked(list, use, bound) && i <= j < |list|
    ensures 0 < use(list[i].reference) <= use(list[j].reference) <= bound
    ensures i < j ==> use(list[i].reference) < use(list[j].reference)
  {
    var n := |list| - 1;
    if i < n {
      RankedPairs(list[..n], use, use(list[n].reference) - 1, i, if j < n then j else i);
    }
  }

  /** No reference is twice in a ranked list. */
  lemma {:induction false} RankedIsOnce(list: seq<Slot>, use: string -> nat, bound: int, reference: string)
    requires Ranked(list, use, bound)
    ensures Once(list, reference)
    ensures use(reference) > bound ==> Held(list, reference).None?
  {
    if list != [] {
      RankedIsOnce(list[..|list| - 1], use, use(list[|list| - 1].reference) - 1, reference);
    }
  }

  // ---- The order of last use -------------------------------------------------------------

  const NOTHING := Store([], 0)

  /** The reference that an operation uses: the one it parks or finds. */
  function Uses(s: Store, op: Operation): Option<string> {
    match op
    case DoPut(reference, payload, _, _) => if |payload| <= MAX_ENTRY_BYTES then Some(reference) else None
    case DoGet(reference, now) => if Live(s.recency, reference, now) then Some(reference) else None
    case _ => None
  }

  /** The number of the last operation that used the reference, counted from one; zero for none. */
  function LastUse(ops: seq<Operation>, reference: string): nat {
    if ops == [] then 0
    else
      var n := |ops| - 1;
      if Uses(Run(NOTHING, ops[..n]), ops[n]) == Some(reference) then n + 1 else LastUse(ops[..n], reference)
  }

  function LastUses(ops: seq<Operation>): string -> nat {
    reference => LastUse(ops, reference)
  }

  /** No two states are parked under the same reference. */
  ghost predicate Fresh(ops: seq<Operation>) {
    forall i, j :: 0 <= i < j < |ops| && ops[i].DoPut? && ops[j].DoPut? ==> ops[i].reference != ops[j].reference
  }

  /** How an operation, the next after n, changes the last uses. */
  ghost predicate Updates(s: Store, op: Operation, use: string -> nat, now: string -> nat, n: nat) {
    forall r :: now(r) == if Uses(s, op) == Some(r) then n + 1 else use(r)
  }

  /** What is used comes last. */
  lemma RankedUse(list: seq<Slot>, use: string -> nat, now: string -> nat, n: nat, slot: Slot)
    requires Ranked(list, use, n) && Held(list, slot.reference).None? && now(slot.reference) == n + 1
    requires forall other :: other != slot.reference ==> now(other) == use(other)
    ensures Ranked(list + [slot], now, n + 1)
  {
    RankedStill(list, use, now, n, slot.reference);
    RankedMore(list, slot, now, n + 1);
  }

  lemma {:induction false} RankedUnused(list: seq<Slot>, use: string -> nat, now: string -> nat, n: int, later: int)
    requires Ranked(list, use, n) && n <= later && forall r :: now(r) == use(r)
    ensures Ranked(list, now, later)
  {
    if list != [] {
      var last := use(list[|list| - 1].reference);
      RankedUnused(list[..|list| - 1], use, now, last - 1, last - 1);
    }
  }

  lemma RankedRoom(list: seq<Slot>, use: string -> nat, n: nat, payload: seq<Byte>, now: int, reference: string)
    requires Ranked(list, use, n) && Held(list, reference).None?
    ensures Ranked(MadeRoom(list, payload, now), use, n) && Held(MadeRoom(list, payload, now), reference).None?
  {
    AbsentIsOnce(list, reference);
    UnexpiredHolds(list, now, reference);
    SurvivorsHold(Unexpired(list, now), |payload|, reference);
    RankedUnexpired(list, use, n, now);
    RankedSurvivors(Unexpired(list, now), use, n, |payload|);
  }

  lemma RankedPut(s: Store, op: Operation, use: string -> nat, now: string -> nat, n: nat)
    requires op.DoPut? && Ranked(s.recency, use, n) && Updates(s, op, use, now, n)
    requires Held(s.recency, op.reference).None?
    ensures Ranked(Step(s, op).recency, now, n + 1)
  {
    if |op.payload| <= MAX_ENTRY_BYTES {
      RankedRoom(s.recency, use, n, op.payload, op.sweepNow, op.reference);
      var slot := Slot(op.reference, Entry(op.payload, op.stampNow + TTL_NANOS, s.clock + 1));
      RankedUse(MadeRoom(s.recency, op.payload, op.sweepNow), use, now, n, slot);
    } else {
      RankedUnused(s.recency, use, now, n, n + 1);
    }
  }

  lemma RankedMoved(list: seq<Slot>, use: string -> nat, now: string -> nat, n: nat, slot: Slot)
    requires Ranked(list, use, n) && now(slot.reference) == n + 1
    requires forall other :: other != slot.reference ==> now(other) == use(other)
    ensures Ranked(Without(list, slot.reference) + [slot], now, n + 1)
  {
    RankedWithout(list, use, n, slot.reference);
    RankedUse(Without(list, slot.reference), use, now, n, slot);
  }

  lemma RankedRemoved(list: seq<Slot>, use: string -> nat, now: string -> nat, n: nat, reference: string)
    requires Ranked(list, use, n) && forall r :: now(r) == use(r)
    ensures Ranked(Without(list, reference), now, n + 1)
  {
    RankedWithout(list, use, n, reference);
    RankedUnused(Without(list, reference), use, now, n, n + 1);
  }

  lemma RankedGet(s: Store, op: Operation, use: string -> nat, now: string -> nat, n: nat)
    requires op.DoGet? && Ranked(s.recency, use, n) && Updates(s, op, use, now, n)
    ensures Ranked(Step(s, op).recency, now, n + 1)
  {
    if Live(s.recency, op.reference, op.now) {
      var slot := Slot(op.reference, Held(s.recency, op.reference).value.(usedAt := s.clock + 1));
      RankedMoved(s.recency, use, now, n, slot);
    } else {
      RankedRemoved(s.recency, use, now, n, op.reference);
    }
  }

  lemma RankedStep(s: Store, op: Operation, use: string -> nat, now: string -> nat, n: nat)
    requires Ranked(s.recency, use, n) && Updates(s, op, use, now, n)
    requires op.DoPut? ==> Held(s.recency, op.reference).None?
    ensures Ranked(Step(s, op).recency, now, n + 1)
  {
    match op
    case DoPut(_, _, _, _) => RankedPut(s, op, use, now, n);
    case DoGet(_, _) => RankedGet(s, op, use, now, n);
    case DoDelete(reference) =>
      RankedRemoved(s.recency, use, now, n, reference);
    case DoPurge(at) =>
      RankedUnexpired(s.recency, use, n, at);
      RankedUnused(Unexpired(s.recency, at), use, now, n, n + 1);
  }

  lemma FreshIsAbsent(ops: seq<Operation>, op: Operation)
    requires Fresh(ops + [op]) && op.DoPut?
    ensures Held(Run(NOTHING, ops).recency, op.reference).None?
  {
    assert (ops + [op])[|ops|] == op;
    forall i | 0 <= i < |ops| && ops[i].DoPut? ensures ops[i].reference != op.reference {
      assert (ops + [op])[i] == ops[i];
    }
    GoneForGood(NOTHING, ops, op.reference);
  }

  lemma LastUsesUpdate(ops: seq<Operation>, op: Operation)
    ensures Updates(Run(NOTHING, ops), op, LastUses(ops), LastUses(ops + [op]), |ops|)
  {
    assert (ops + [op])[..|ops|] == ops;
  }

  lemma {:induction false} RunIsRanked(ops: seq<Operation>)
    requires Fresh(ops)
    ensures Ranked(Run(NOTHING, ops).recency, LastUses(ops), |ops|)
  {
    if ops != [] {
      var before, op := ops[..|ops| - 1], ops[|ops| - 1];
      assert ops == before + [op];
      RunIsRanked(before);
      LastUsesUpdate(before, op);
      if op.DoPut? {
        FreshIsAbsent(before, op);
      }
      RankedStep(Run(NOTHING, before), op, LastUses(before), LastUses(ops), |before|);
      RunOneMore(NOTHING, before, op);
    }
  }

  // ---- The promises ----------------------------------------------------------------------

  /** After any operations the list is in the order of last use. */
  lemma OrderIsLastUse(ops: seq<Operation>, i: nat, j: nat)
    requires Fresh(ops) && i < j < |Run(NOTHING, ops).recency|
    ensures var list := Run(NOTHING, ops).recency;
      0 < LastUse(ops, list[i].reference) < LastUse(ops, list[j].reference)
  {
    RunIsRanked(ops);
    RankedPairs(Run(NOTHING, ops).recency, LastUses(ops), |ops|, i, j);
  }

  lemma {:induction false} HeldAt(list: seq<Slot>, reference: string)
    ensures Held(list, reference).Some? <==> exists i :: 0 <= i < |list| && list[i].reference == reference
  {
    if list != [] {
      var n := |list| - 1;
      HeldAt(list[..n], reference);
      if i :| 0 <= i < |list[..n]| && list[..n][i].reference == reference {
        assert list[i].reference == reference;
      }
      if i :| 0 <= i < |list| && list[i].reference == reference {
        assert i < n ==> list[..n][i].reference == reference;
      }
    }
  }

  /** Who is used later than one in a later part of the list is in that part. */
  lemma LaterStays(list: seq<Slot>, use: string -> nat, bound: int, k: nat, a: string, b: string)
    requires Ranked(list, use, bound) && use(a) < use(b) && k <= |list|
    requires Held(list, b).Some? && Held(list[k..], a).Some?
    ensures Held(list[k..], b).Some?
  {
    HeldAt(list, b);
    HeldAt(list[k..], a);
    var j :| 0 <= j < |list| && list[j].reference == b;
    var i :| 0 <= i < |list[k..]| && list[k..][i].reference == a;
    assert list[k + i].reference == a;
    assert k + i < j by {
      if j <= k + i {
        RankedPairs(list, use, bound, j, k + i);
      }
    }
    assert list[k..][j - k].reference == b;
    HeldAt(list[k..], b);
  }

  /** In every run, when room is made for a newcomer, the least recently used go first: a state that
      has not expired and was used later than one that stays, stays. */
  lemma LeastRecentlyUsedGoFirst(ops: seq<Operation>, payload: seq<Byte>, now: int, a: string, b: string)
    requires Fresh(ops) && |payload| <= MAX_ENTRY_BYTES && LastUse(ops, a) < LastUse(ops, b)
    requires Live(Run(NOTHING, ops).recency, b, now)
    requires Held(MadeRoom(Run(NOTHING, ops).recency, payload, now), a).Some?
    ensures Held(MadeRoom(Run(NOTHING, ops).recency, payload, now), b).Some?
  {
    RunIsRanked(ops);
    RoomForTheLater(Run(NOTHING, ops).recency, LastUses(ops), |ops|, payload, now, a, b);
  }

  lemma RoomForTheLater(list: seq<Slot>, use: string -> nat, bound: int, payload: seq<Byte>, now: int, a: string,
                        b: string)
    requires Ranked(list, use, bound) && |payload| <= MAX_ENTRY_BYTES && use(a) < use(b) && Live(list, b, now)
    requires Held(MadeRoom(list, payload, now), a).Some?
    ensures Held(MadeRoom(list, payload, now), b).Some?
  {
    var left := Unexpired(list, now);
    RankedUnexpired(list, use, bound, now);
    RankedIsOnce(list, use, bound, b);
    UnexpiredHolds(list, now, b);
    SurvivorsAreLongestRun(left, |payload|);
    var k: nat :| k <= |left| && Survivors(left, |payload|) == left[k..];
    LaterStays(left, use, bound, k, a, b);
  }
}
