/** The set of migrations and the recorded history, which must be an exact prefix of it. */
module MigrationHistory {

  datatype Migration = Migration(version: int, name: string, sql: string, checksum: string, destructive: bool)

  /** A row of `schema_migrations`, keyed by version. */
  datatype Applied = Applied(name: string, checksum: string)

  type History = map<int, Applied>

  // ---- The set ---------------------------------------------------------------------------

  /** Names are made of lower case letters, digits and underscores. */
  predicate ValidName(name: string) {
    name != "" && forall i :: 0 <= i < |name| ==> 'a' <= name[i] <= 'z' || '0' <= name[i] <= '9' || name[i] == '_'
  }

  predicate ValidMigration(m: Migration, digest: string -> string) {
    m.version > 0 && ValidName(m.name) && m.sql != "" && m.checksum == digest(m.sql)
  }

  predicate Increasing(ordered: seq<Migration>) {
    forall i :: 0 < i < |ordered| ==> ordered[i - 1].version < ordered[i].version
  }

  predicate ValidSet(ordered: seq<Migration>, digest: string -> string) {
    (forall i :: 0 <= i < |ordered| ==> ValidMigration(ordered[i], digest)) && Increasing(ordered)
  }

  lemma {:induction false} IncreasingPairs(ordered: seq<Migration>, i: nat, j: nat)
    requires Increasing(ordered) && i < j < |ordered|
    ensures ordered[i].version < ordered[j].version
  {
    if i + 1 < j {
      IncreasingPairs(ordered, i, j - 1);
    }
  }

  /** `validateMigrationSet`. */
  method ValidateMigrationSet(ordered: seq<Migration>, digest: string -> string) returns (ok: bool)
    ensures ok <==>
      && (forall i :: 0 <= i < |ordered| ==>
            && ordered[i].version > 0 && ordered[i].sql != "" && ordered[i].checksum == digest(ordered[i].sql)
            && ordered[i].name != ""
            && forall k :: 0 <= k < |ordered[i].name| ==>
                 var c := ordered[i].name[k]; 'a' <= c <= 'z' || '0' <= c <= '9' || c == '_')
      && (forall i :: 0 < i < |ordered| ==> ordered[i - 1].version < ordered[i].version)
    ensures ok <==> ValidSet(ordered, digest)
  {
    var i := 0;
    while i < |ordered|
      invariant 0 <= i <= |ordered|
      invariant forall k :: 0 <= k < i ==> ValidMigration(ordered[k], digest)
      invariant forall k :: 0 < k < i ==> ordered[k - 1].version < ordered[k].version
    {
      if !ValidMigration(ordered[i], digest) {
        return false;
      }
      if i > 0 && ordered[i].version <= ordered[i - 1].version {
        return false;
      }
      i := i + 1;
    }
    return true;
  }

  // ---- The history is a prefix -----------------------------------------------------------

  function Row(m: Migration): Applied {
    Applied(m.name, m.checksum)
  }

  /** The history after exactly these migrations. */
  function HistoryOf(done: seq<Migration>): History {
    if done == [] then map[]
    else HistoryOf(done[..|done| - 1])[done[|done| - 1].version := Row(done[|done| - 1])]
  }

  predicate KnownRow(ordered: seq<Migration>, version: int, row: Applied) {
    exists i :: 0 <= i < |ordered| && ordered[i].version == version && row == Row(ordered[i])
  }

  /** The checks of the loaded history: every row is of a known migration with the same name and
      checksum, and the first so many migrations are all there. */
  predicate Checks(ordered: seq<Migration>, applied: History) {
    && (forall version :: version in applied ==> KnownRow(ordered, version, applied[version]))
    && |applied| <= |ordered| && (forall i :: 0 <= i < |applied| ==> ordered[i].version in applied)
  }

  function Versions(done: seq<Migration>): set<int> {
    if done == [] then {} else Versions(done[..|done| - 1]) + {done[|done| - 1].version}
  }

  lemma {:induction false} VersionIn(done: seq<Migration>, version: int)
    ensures version in Versions(done) <==> exists i :: 0 <= i < |done| && done[i].version == version
  {
    if done != [] {
      var n := |done| - 1;
      VersionIn(done[..n], version);
      if version in Versions(done[..n]) {
        var i :| 0 <= i < n && done[..n][i].version == version;
        assert done[i].version == version;
      } else {
        forall i | 0 <= i < n ensures done[i].version != version {
          assert done[..n][i].version == done[i].version;
        }
        assert version in Versions(done) ==> done[n].version == version;
      }
    }
  }

  /** Distinct versions are counted by their migrations. */
  lemma {:induction false} VersionsCount(ordered: seq<Migration>, n: nat)
    requires Increasing(ordered) && n <= |ordered|
    ensures |Versions(ordered[..n])| == n
  {
    if n > 0 {
      VersionsCount(ordered, n - 1);
      assert ordered[..n][..n - 1] == ordered[..n - 1];
      VersionIn(ordered[..n - 1], ordered[n - 1].version);
      forall i | 0 <= i < n - 1 ensures ordered[i].version != ordered[n - 1].version {
        IncreasingPairs(ordered, i, n - 1);
      }
    }
  }

  lemma {:induction false} HistoryRows(ordered: seq<Migration>, n: nat)
    requires Increasing(ordered) && n <= |ordered|
    ensures HistoryOf(ordered[..n]).Keys == Versions(ordered[..n])
    ensures forall i :: 0 <= i < n ==>
      ordered[i].version in HistoryOf(ordered[..n]) && HistoryOf(ordered[..n])[ordered[i].version] == Row(ordered[i])
  {
    if n > 0 {
      HistoryRows(ordered, n - 1);
      assert ordered[..n][..n - 1] == ordered[..n - 1];
      forall i | 0 <= i < n
        ensures ordered[i].version in HistoryOf(ordered[..n])
          && HistoryOf(ordered[..n])[ordered[i].version] == Row(ordered[i])
      {
        if i < n - 1 {
          IncreasingPairs(ordered, i, n - 1);
        }
      }
    }
  }

  lemma SubsetOfSameSize<T>(a: set<T>, b: set<T>)
    requires a <= b && |a| == |b|
    ensures a == b
  {
    assert b == a + (b - a);
    assert |b| == |a| + |b - a|;
  }

  lemma {:induction false} VersionsWithin(ordered: seq<Migration>, n: nat, keys: set<int>)
    requires n <= |ordered| && forall i :: 0 <= i < n ==> ordered[i].version in keys
    ensures Versions(ordered[..n]) <= keys
  {
    if n > 0 {
      VersionsWithin(ordered, n - 1, keys);
      assert ordered[..n][..n - 1] == ordered[..n - 1];
    }
  }

  /** A row of a known migration is the row of the migration with that version. */
  lemma KnownRowIs(ordered: seq<Migration>, i: nat, row: Applied)
    requires Increasing(ordered) && i < |ordered| && KnownRow(ordered, ordered[i].version, row)
    ensures row == Row(ordered[i])
  {
    var j :| 0 <= j < |ordered| && ordered[j].version == ordered[i].version && row == Row(ordered[j]);
    if j < i {
      IncreasingPairs(ordered, j, i);
    } else if i < j {
      IncreasingPairs(ordered, i, j);
    }
  }

  /** The name and checksum check together with the count and prefix check say precisely that the
      history is that of the first so many migrations. */
  lemma ChecksMeanPrefix(ordered: seq<Migration>, applied: History)
    requires Increasing(ordered)
    ensures Checks(ordered, applied) <==> |applied| <= |ordered| && applied == HistoryOf(ordered[..|applied|])
  {
    var n := |applied|;
    if Checks(ordered, applied) {
      VersionsWithin(ordered, n, applied.Keys);
      VersionsCount(ordered, n);
      SubsetOfSameSize(Versions(ordered[..n]), applied.Keys);
      HistoryRows(ordered, n);
      forall version | version in applied ensures applied[version] == HistoryOf(ordered[..n])[version] {
        VersionIn(ordered[..n], version);
        var i :| 0 <= i < n && ordered[..n][i].version == version;
        KnownRowIs(ordered, i, applied[version]);
      }
      assert applied == HistoryOf(ordered[..n]);
    } else if n <= |ordered| && applied == HistoryOf(ordered[..n]) {
      HistoryRows(ordered, n);
      forall version | version in applied ensures KnownRow(ordered, version, applied[version]) {
        VersionIn(ordered[..n], version);
        var i :| 0 <= i < n && ordered[..n][i].version == version;
        assert ordered[i].version == version && applied[version] == Row(ordered[i]);
      }
    }
  }

  /** The checks as the code makes them: over the rows in any order, then over the prefix. */
  method CheckHistory(ordered: seq<Migration>, applied: History) returns (ok: bool)
    ensures ok <==> Checks(ordered, applied)
  {
    var rest := applied.Items;
    while rest != {}
      invariant rest <= applied.Items
      invariant forall version :: version in applied && (version, applied[version]) !in rest ==>
        KnownRow(ordered, version, applied[version])
      decreases |rest|
    {
      var item :| item in rest;
      if !KnownRow(ordered, item.0, item.1) {
        return false;
      }
      rest := rest - {item};
    }
    if |applied| > |ordered| {
      return false;
    }
    var index := 0;
    while index < |applied|
      invariant 0 <= index <= |applied| && forall i :: 0 <= i < index ==> ordered[i].version in applied
    {
      if ordered[index].version !in applied {
        return false;
      }
      index := index + 1;
    }
    return true;
  }

  /** Of a prefix history, exactly the first migrations are applied. */
  lemma AppliedExactly(ordered: seq<Migration>, n: nat, i: nat)
    requires Increasing(ordered) && n <= |ordered| && i < |ordered|
    ensures ordered[i].version in HistoryOf(ordered[..n]) <==> i < n
  {
    HistoryRows(ordered, n);
    VersionIn(ordered[..n], ordered[i].version);
    if j :| 0 <= j < n <= i && ordered[..n][j].version == ordered[i].version {
      IncreasingPairs(ordered, j, i);
    }
  }
}
