/** Applying an ordered set of migrations: database and history stay those of an exact prefix of the
    set, whatever fails on the way. */
module Migrations {
  import opened Options
  import opened MigrationHistory

  /** Executing migrations one after the other, each exactly once. */
  function Executed<S>(exec: (S, string) -> Option<S>, start: S, done: seq<Migration>): Option<S> {
    if done == [] then Some(start)
    else
      match Executed(exec, start, done[..|done| - 1])
      case None => None
      case Some(s) => exec(s, done[|done| - 1].sql)
  }

  /** Executing some and then the rest is executing all. */
  lemma {:induction false} ExecutedConcat<S>(exec: (S, string) -> Option<S>, start: S, a: seq<Migration>,
                                             b: seq<Migration>)
    requires Executed(exec, start, a).Some?
    ensures Executed(exec, start, a + b) == Executed(exec, Executed(exec, start, a).value, b)
  {
    if b == [] {
      assert a + b == a;
    } else {
      var n := |b| - 1;
      ExecutedConcat(exec, start, a, b[..n]);
      assert (a + b)[..|a + b| - 1] == a + b[..n];
    }
  }

  /** With the first `n` migrations done at the start, the first `k` are done now: the history says
      so and the database is what the others, executed once and in order, make of it. */
  ghost predicate Reached<S>(exec: (S, string) -> Option<S>, start: S, ordered: seq<Migration>, n: nat, k: nat, db: S,
                             history: History) {
    n <= k <= |ordered| && history == HistoryOf(ordered[..k]) && Executed(exec, start, ordered[n..k]) == Some(db)
  }

  /** How a transaction goes: a commit may report an error although it took effect. */
  datatype Transaction = Fine | FailsBeforeCommit | CommitErrorKept | CommitErrorLost

  /** What else fails around one migration. */
  datatype Faults = Faults(backup: bool, transaction: Transaction, restore: bool, removal: bool)

  datatype Outcome = Success | Rejected | Failed | RestoreFailed

  /** The migration is applied and reported so. */
  predicate Succeeds<S>(exec: (S, string) -> Option<S>, db: S, m: Migration, faults: Faults) {
    && exec(db, m.sql).Some? && faults.transaction == Fine
    && (m.destructive ==> !faults.backup && !faults.removal)
  }

  /** Its effect stays, reported or not: the commit took place, and no restore undid it. */
  predicate TakesEffect<S>(exec: (S, string) -> Option<S>, db: S, m: Migration, faults: Faults) {
    exec(db, m.sql).Some? &&
    if m.destructive then !faults.backup && faults.transaction == Fine
    else faults.transaction == Fine || faults.transaction == CommitErrorKept
  }

  /** It failed, and so did the restore. */
  predicate Ruins<S>(exec: (S, string) -> Option<S>, db: S, m: Migration, faults: Faults) {
    m.destructive && !faults.backup && faults.restore && !(exec(db, m.sql).Some? && faults.transaction == Fine)
  }

  /** The migration works on what the pending ones before it have made. */
  predicate Works<S>(exec: (S, string) -> Option<S>, start: S, ordered: seq<Migration>, n: nat,
                     faults: int -> Faults, i: nat)
    requires n <= i < |ordered|
  {
    var before := Executed(exec, start, ordered[n..i]);
    before.Some? && Succeeds(exec, before.value, ordered[i], faults(i))
  }

  predicate AllWork<S>(exec: (S, string) -> Option<S>, start: S, ordered: seq<Migration>, n: nat,
                       faults: int -> Faults, k: nat)
    requires n <= k <= |ordered|
  {
    forall i :: n <= i < k ==> Works(exec, start, ordered, n, faults, i)
  }

  /** How a run ends that stops at migration `i`: with the first `i` done, or one more if its effect
      stayed; only a failed restore breaks this, and then the backup still holds such a database. */
  ghost predicate Stopped<S>(exec: (S, string) -> Option<S>, start: S, ordered: seq<Migration>, n: nat,
                             faults: int -> Faults, i: nat, outcome: Outcome, db: S, history: History,
                             backup: Option<Snapshot<S>>)
    requires n <= i < |ordered|
  {
    var before := Executed(exec, start, ordered[n..i]);
    before.Some? &&
    if Ruins(exec, before.value, ordered[i], faults(i)) then
      && outcome == RestoreFailed && backup.Some?
      && Reached(exec, start, ordered, n, i, backup.value.db, backup.value.history)
    else
      var k := if TakesEffect(exec, before.value, ordered[i], faults(i)) then i + 1 else i;
      outcome == Failed && Reached(exec, start, ordered, n, k, db, history)
  }

  /** How a run ends: successfully with all migrations done, exactly when all that were pending
      work, and otherwise at the first that does not. */
  ghost predicate Ended<S>(exec: (S, string) -> Option<S>, start: S, ordered: seq<Migration>, n: nat,
                           faults: int -> Faults, at: nat, outcome: Outcome, db: S, history: History,
                           backup: Option<Snapshot<S>>) {
    && n <= at <= |ordered| && AllWork(exec, start, ordered, n, faults, at)
    && if at == |ordered| then outcome == Success && Reached(exec, start, ordered, n, at, db, history)
       else !Works(exec, start, ordered, n, faults, at) && Stopped(exec, start, ordered, n, faults, at, outcome, db,
                                                                  history, backup)
  }

  datatype Snapshot<S> = Snapshot(db: S, history: History)

  class Store<S> {
    var db: S
    var history: History
    /** The backup file, if one exists. */
    var backup: Option<Snapshot<S>>

    constructor (db: S, history: History)
      ensures this.db == db && this.history == history && backup == None
    {
      this.db, this.history, backup := db, history, None;
    }

    /** `applyOne`: the migration and its row take effect together or not at all; `kept` tells. */
    method ApplyOne(exec: (S, string) -> Option<S>, m: Migration, transaction: Transaction)
      returns (ok: bool, ghost kept: bool)
      modifies `db, `history
      ensures ok <==> exec(old(db), m.sql).Some? && transaction == Fine
      ensures kept <==> exec(old(db), m.sql).Some? && (transaction == Fine || transaction == CommitErrorKept)
      ensures if kept then exec(old(db), m.sql) == Some(db) && history == old(history)[m.version := Row(m)]
              else db == old(db) && history == old(history)
    {
      if transaction == FailsBeforeCommit {
        return false, false;
      }
      var executed := exec(db, m.sql);
      if executed.None? || transaction == CommitErrorLost {
        return false, false;
      }
      db := executed.value;
      history := history[m.version := Row(m)];
      return transaction == Fine, true;
    }

    /** One migration with its backup and, if it fails, its restore; a failed restore leaves the
        database in an unknown state `ruined`. */
    method Migrate(exec: (S, string) -> Option<S>, m: Migration, faults: Faults, ruined: Snapshot<S>)
      returns (outcome: Outcome)
      modifies this
      ensures outcome == Success <==> Succeeds(exec, old(db), m, faults)
      ensures outcome == RestoreFailed <==> Ruins(exec, old(db), m, faults)
      ensures outcome == Success || outcome == RestoreFailed || outcome == Failed
      ensures outcome == RestoreFailed ==> backup == Some(Snapshot(old(db), old(history)))
      ensures outcome == Success ==> backup == if m.destructive then None else old(backup)
      ensures outcome == Failed ==>
        backup == if !m.destructive || faults.backup then old(backup)
                  else if faults.removal then Some(Snapshot(old(db), old(history)))
                  else None
      ensures outcome != RestoreFailed ==>
        if TakesEffect(exec, old(db), m, faults)
        then exec(old(db), m.sql) == Some(db) && history == old(history)[m.version := Row(m)]
        else db == old(db) && history == old(history)
    {
      if m.destructive {
        if faults.backup {
          return Failed;
        }
        backup := Some(Snapshot(db, history));
      }
      var ok, _ := ApplyOne(exec, m, faults.transaction);
      if ok {
        if m.destructive {
          if faults.removal {
            return Failed;
          }
          backup := None;
        }
        return Success;
      }
      if !m.destructive {
        return Failed;
      }
      if faults.restore {
        db, history := ruined.db, ruined.history;
        return RestoreFailed;
      }
      db, history := backup.value.db, backup.value.history;
      if !faults.removal {
        backup := None;
      }
      return Failed;
    }

    /** The next pending migration: it is done afterwards, or nothing is. */
    method MigrateNext(ordered: seq<Migration>, exec: (S, string) -> Option<S>, ghost start: S, ghost n: nat, i: nat,
                       faults: int -> Faults, ruined: Snapshot<S>) returns (outcome: Outcome)
      requires i < |ordered| && Reached(exec, start, ordered, n, i, db, history)
      modifies this
      ensures outcome == Success <==> Works(exec, start, ordered, n, faults, i)
      ensures outcome == Success ==> Reached(exec, start, ordered, n, i + 1, db, history)
      ensures outcome != Success ==> Stopped(exec, start, ordered, n, faults, i, outcome, db, history, backup)
    {
      if exec(db, ordered[i].sql).Some? {
        OneMore(exec, start, ordered, n, i, db, history, exec(db, ordered[i].sql).value);
      }
      outcome := Migrate(exec, ordered[i], faults(i), ruined);
    }

    /** The loop of `applyMigrationsLocked`, once the set and the history have been checked. */
    method ApplyPending(ordered: seq<Migration>, exec: (S, string) -> Option<S>, faults: int -> Faults,
                        ruined: Snapshot<S>)
      returns (outcome: Outcome, ghost at: nat)
      requires Increasing(ordered) && |history| <= |ordered| && history == HistoryOf(ordered[..|history|])
      modifies this
      ensures Ended(exec, old(db), ordered, |old(history)|, faults, at, outcome, db, history, backup)
    {
      var applied := history;
      ghost var n, start := |applied|, db;
      assert ordered[n..n] == [];
      var i := 0;
      at := n;
      while i < |ordered|
        invariant 0 <= i <= |ordered| && at == (if i < n then n else i)
        invariant Reached(exec, start, ordered, n, at, db, history)
        invariant AllWork(exec, start, ordered, n, faults, at)
      {
        AppliedExactly(ordered, n, i);
        if ordered[i].version !in applied {
          outcome := MigrateNext(ordered, exec, start, n, i, faults, ruined);
          if outcome != Success {
            return;
          }
          at := i + 1;
        }
        i := i + 1;
      }
      outcome := Success;
    }

    /** `applyMigrationsLocked`. A set that is not well formed or does not extend the history is
        refused and nothing changes. Otherwise the pending migrations are executed, each once and in
        order, up to the first that does not work, which is undone, kept, or ruins the database as
        its faults say; it succeeds exactly when all of them work. */
    method ApplyMigrations(ordered: seq<Migration>, digest: string -> string, exec: (S, string) -> Option<S>,
                           faults: int -> Faults, ruined: Snapshot<S>)
      returns (outcome: Outcome, ghost at: nat)
      modifies this
      ensures outcome == Rejected <==> !ValidSet(ordered, digest) || !Checks(ordered, old(history))
      ensures outcome == Rejected ==> db == old(db) && history == old(history) && backup == old(backup)
      ensures outcome != Rejected ==>
        && |old(history)| <= |ordered| && old(history) == HistoryOf(ordered[..|old(history)|])
        && Ended(exec, old(db), ordered, |old(history)|, faults, at, outcome, db, history, backup)
        && (outcome == Success <==> AllWork(exec, old(db), ordered, |old(history)|, faults, |ordered|))
    {
      at := 0;
      var valid := ValidateMigrationSet(ordered, digest);
      if !valid {
        return Rejected, 0;
      }
      var checked := CheckHistory(ordered, history);
      if !checked {
        return Rejected, 0;
      }
      ChecksMeanPrefix(ordered, history);
      outcome, at := ApplyPending(ordered, exec, faults, ruined);
    }
  }

  lemma OneMore<S>(exec: (S, string) -> Option<S>, start: S, ordered: seq<Migration>, n: nat, i: nat, db: S,
                   history: History, db': S)
    requires n <= i < |ordered| && Reached(exec, start, ordered, n, i, db, history)
    requires exec(db, ordered[i].sql) == Some(db')
    ensures Reached(exec, start, ordered, n, i + 1, db', history[ordered[i].version := Row(ordered[i])])
  {
    assert ordered[..i + 1][..i] == ordered[..i];
    assert ordered[n..i + 1][..i - n] == ordered[n..i];
  }

  /** A database that the first `n` migrations made becomes the one that the first `k` make. */
  lemma FromTheStart<S>(exec: (S, string) -> Option<S>, empty: S, ordered: seq<Migration>, n: nat, k: nat, before: S,
                        after: S)
    requires n <= k <= |ordered|
    requires Executed(exec, empty, ordered[..n]) == Some(before) && Executed(exec, before, ordered[n..k]) == Some(after)
    ensures Executed(exec, empty, ordered[..k]) == Some(after)
  {
    ExecutedConcat(exec, empty, ordered[..n], ordered[n..k]);
    assert ordered[..n] + ordered[n..k] == ordered[..k];
  }
}
