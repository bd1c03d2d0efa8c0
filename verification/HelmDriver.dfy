/** One driver as an object: the paged metadata listing and the decisions it takes under its mutex. */
module HelmDriver {
  import opened Options
  import opened HelmStorage

  const MAX_RECORDS: nat := 10000

  /** One page of metadata and the token that continues it. */
  datatype Page<R> = Page(items: seq<R>, next: string)

  datatype ListError = CallFailed | LimitExceeded | InvalidStorage

  datatype Listed<R> = Ok(records: seq<R>) | Err(error: ListError)

  // ---- The listing, as the server's answers determine it ---------------------------------

  /** The token sent in a round, when the server answers as `serve` says. */
  function Token<R>(serve: (nat, string) -> Option<Page<R>>, round: nat): string {
    if round == 0 then ""
    else
      var prior := serve(round - 1, Token(serve, round - 1));
      if prior.Some? then prior.value.next else ""
  }

  function Answer<R>(serve: (nat, string) -> Option<Page<R>>, round: nat): Option<Page<R>> {
    serve(round, Token(serve, round))
  }

  /** Everything the first rounds returned, in order. */
  function Gathered<R>(serve: (nat, string) -> Option<Page<R>>, rounds: nat): seq<R> {
    if rounds == 0 then []
    else
      var answer := Answer(serve, rounds - 1);
      Gathered(serve, rounds - 1) + if answer.Some? then answer.value.items else []
  }

  /** The tokens sent so far. */
  function Sent<R>(serve: (nat, string) -> Option<Page<R>>, round: nat): set<string> {
    if round == 0 then {} else Sent(serve, round - 1) + {Token(serve, round)}
  }

  /** The round was answered and what it adds fits. */
  predicate Fits<R>(serve: (nat, string) -> Option<Page<R>>, round: nat) {
    Answer(serve, round).Some? && |Gathered(serve, round + 1)| <= MAX_RECORDS
  }

  /** Every one of the first rounds fits and continues with a token not sent before. */
  ghost predicate Continued<R>(serve: (nat, string) -> Option<Page<R>>, rounds: nat) {
    rounds > 0 ==>
      && Continued(serve, rounds - 1) && Fits(serve, rounds - 1)
      && Token(serve, rounds) != "" && Token(serve, rounds) !in Sent(serve, rounds - 1)
  }

  /** `metadataRecords`. It stops for every server, after at most one round more than there may be
      tokens. All rounds before the last continued; the last one decides: it fits and asks for no
      other, and the pages of all rounds are returned; or it is the first that fails, exceeds the
      limit, or repeats a token. */
  method MetadataRecords<R>(serve: (nat, string) -> Option<Page<R>>) returns (listed: Listed<R>, rounds: nat)
    ensures 1 <= rounds <= MAX_RECORDS + 1 && Continued(serve, rounds - 1)
    ensures listed.Ok? <==> Fits(serve, rounds - 1) && Token(serve, rounds) == ""
    ensures listed.Ok? ==> listed.records == Gathered(serve, rounds)
    ensures listed == Err(CallFailed) <==> Answer(serve, rounds - 1).None?
    ensures listed == Err(LimitExceeded) <==> Answer(serve, rounds - 1).Some? && !Fits(serve, rounds - 1)
    ensures listed == Err(InvalidStorage) ==>
      Token(serve, rounds) in Sent(serve, rounds - 1) || rounds == MAX_RECORDS + 1
  {
    var records: seq<R>, token, seen := [], "", {};
    rounds := 0;
    while true
      invariant token == Token(serve, rounds) && (rounds > 0 ==> token in seen)
      invariant records == Gathered(serve, rounds) && |records| <= MAX_RECORDS
      invariant seen == Sent(serve, rounds) && |seen| == rounds <= MAX_RECORDS
      invariant Continued(serve, rounds)
      decreases MAX_RECORDS - |seen|
    {
      var page := serve(rounds, token);
      rounds := rounds + 1;
      assert page == Answer(serve, rounds - 1);
      if page.None? {
        return Err(CallFailed), rounds;
      }
      if |records| + |page.value.items| > MAX_RECORDS {
        return Err(LimitExceeded), rounds;
      }
      records := records + page.value.items;
      if page.value.next == "" {
        return Ok(records), rounds;
      }
      if page.value.next == token || page.value.next in seen || |seen| >= MAX_RECORDS {
        return Err(InvalidStorage), rounds;
      }
      seen := seen + {page.value.next};
      token := page.value.next;
    }
  }

  /** The newest revision among the listed ones; none when a label is not a number. */
  method Latest(versions: seq<Option<int>>) returns (latest: Option<int>)
    ensures latest.None? <==> None in versions
    ensures latest.Some? ==> latest.value >= 0 && (latest.value == 0 || Some(latest.value) in versions)
    ensures latest.Some? ==> forall v :: Some(v) in versions ==> v <= latest.value
  {
    var newest, i := 0, 0;
    while i < |versions|
      invariant 0 <= i <= |versions| && newest >= 0
      invariant None !in versions[..i] && (newest == 0 || Some(newest) in versions[..i])
      invariant forall v :: Some(v) in versions[..i] ==> v <= newest
    {
      if versions[i].None? {
        return None;
      }
      assert versions[..i + 1] == versions[..i] + [versions[i]];
      if versions[i].value > newest {
        newest := versions[i].value;
      }
      i := i + 1;
    }
    assert versions[..i] == versions;
    return Some(newest);
  }

  // ---- Queries ---------------------------------------------------------------------------

  const MAX_QUERY_BYTES: nat := 67108864

  /** What reading one listed record yields: the release and its decoded size, or nothing. */
  datatype Loaded<V> = Loaded(release: V, size: nat)

  datatype QueryError = NotFound | ReadOnly | BadLabel | Conflict | ReadFailed | TooMuch

  datatype Queried<V> = Found(releases: seq<V>) | NoAnswer(error: QueryError)

  /** Decoded bytes of the first so many records. */
  function SizeOf<V>(loads: seq<Option<Loaded<V>>>): nat {
    if loads == [] then 0
    else
      var last := loads[|loads| - 1];
      SizeOf(loads[..|loads| - 1]) + if last.Some? then last.value.size else 0
  }

  predicate AllRead<V>(loads: seq<Option<Loaded<V>>>) {
    forall i :: 0 <= i < |loads| ==> loads[i].Some?
  }

  lemma {:induction false} SizesGrow<V>(loads: seq<Option<Loaded<V>>>, i: nat)
    requires i <= |loads|
    ensures SizeOf(loads[..i]) <= SizeOf(loads)
  {
    if i < |loads| {
      SizesGrow(loads[..|loads| - 1], i);
      assert loads[..|loads| - 1][..i] == loads[..i];
    } else {
      assert loads[..i] == loads;
    }
  }

  /** The loop over the listed records: all of them in order, or the first reason to stop. */
  method ReadAll<V>(loads: seq<Option<Loaded<V>>>) returns (result: Queried<V>)
    ensures result.Found? <==> AllRead(loads) && SizeOf(loads) <= MAX_QUERY_BYTES
    ensures result.Found? ==>
      |result.releases| == |loads| && forall i :: 0 <= i < |loads| ==> result.releases[i] == loads[i].value.release
    ensures result == NoAnswer(ReadFailed) || result == NoAnswer(TooMuch) || result.Found?
  {
    var releases: seq<V>, total, i := [], 0, 0;
    while i < |loads|
      invariant 0 <= i <= |loads| && AllRead(loads[..i]) && total == SizeOf(loads[..i]) <= MAX_QUERY_BYTES
      invariant |releases| == i && forall k :: 0 <= k < i ==> loads[k].Some? && releases[k] == loads[k].value.release
    {
      if loads[i].None? {
        return NoAnswer(ReadFailed);
      }
      assert loads[..i + 1][..i] == loads[..i];
      total := total + loads[i].value.size;
      SizesGrow(loads, i + 1);
      if total > MAX_QUERY_BYTES {
        return NoAnswer(TooMuch);
      }
      releases := releases + [loads[i].value.release];
      i := i + 1;
    }
    assert loads[..i] == loads;
    return Found(releases);
  }

  /** The newest listed revision, counted from zero, is this one. */
  ghost predicate NewestIs(versions: seq<Option<int>>, revision: int) {
    && revision >= 0 && (revision == 0 || Some(revision) in versions)
    && forall v :: Some(v) in versions ==> v <= revision
  }

  /** The listing is consistent with the guard: it is of the guarded release and, unless a status was
      asked for, ends with the guarded revision or the one the driver has created. */
  ghost predicate Consistent(guard: Option<Guard>, created: bool, name: string, anyStatus: bool,
                             versions: seq<Option<int>>) {
    guard.Some? ==>
      && name == guard.value.key.name
      && (anyStatus ==> NewestIs(versions, guard.value.key.revision + if created then 1 else 0))
  }

  /** `Query`. */
  method Query<V>(guard: Option<Guard>, created: bool, name: string, anyStatus: bool, versions: seq<Option<int>>,
                  loads: seq<Option<Loaded<V>>>) returns (result: Queried<V>)
    requires |versions| == |loads|
    ensures result == NoAnswer(NotFound) <==> versions == []
    ensures result == NoAnswer(ReadOnly) <==> versions != [] && guard.Some? && name != guard.value.key.name
    ensures result == NoAnswer(BadLabel) <==>
      versions != [] && guard.Some? && name == guard.value.key.name && anyStatus && None in versions
    ensures result == NoAnswer(Conflict) <==>
      && versions != [] && guard.Some? && name == guard.value.key.name && anyStatus && None !in versions
      && !Consistent(guard, created, name, anyStatus, versions)
    ensures result.Found? <==>
      && versions != [] && Consistent(guard, created, name, anyStatus, versions)
      && (guard.Some? && anyStatus ==> None !in versions)
      && AllRead(loads) && SizeOf(loads) <= MAX_QUERY_BYTES
    ensures result.Found? ==>
      |result.releases| == |loads| && forall i :: 0 <= i < |loads| ==> result.releases[i] == loads[i].value.release
  {
    if |versions| == 0 {
      return NoAnswer(NotFound);
    }
    if guard.Some? && name != guard.value.key.name {
      return NoAnswer(ReadOnly);
    }
    if guard.Some? && anyStatus {
      var latest := Latest(versions);
      if latest.None? {
        return NoAnswer(BadLabel);
      }
      var expected := guard.value.key.revision + if created then 1 else 0;
      NewestIsOne(versions, latest.value, expected);
      if latest.value != expected {
        return NoAnswer(Conflict);
      }
    }
    result := ReadAll(loads);
  }

  lemma NewestIsOne(versions: seq<Option<int>>, a: int, b: int)
    requires NewestIs(versions, a)
    ensures NewestIs(versions, b) <==> a == b
  {
  }

  // ---- The driver's own state ------------------------------------------------------------

  class HelmDriver {
    const guard: Option<Guard>
    var created: bool
    var seen: map<Key, Identity>
    ghost var own: set<Key>

    ghost function View(): Driver
      reads this
    {
      Driver(created, seen, own)
    }

    constructor (guard: Option<Guard>)
      ensures this.guard == guard && View() == Driver(false, map[], {})
    {
      this.guard := guard;
      created, seen, own := false, map[], {};
    }

    /** The end of `read`: refuse a changed record, remember what was read otherwise. */
    method NoteRead(key: Key, id: Identity) returns (accepted: bool)
      modifies `seen
      ensures accepted <==>
        && !(guard.Some? && key == guard.value.key && !created && id != guard.value.id)
        && !(key in old(seen) && old(seen)[key] != id)
      ensures seen == (if accepted then old(seen)[key := id] else old(seen))
      ensures accepted <==> Accepts(guard, old(View()), key, id)
      ensures View() == if accepted then Noted(old(View()), key, id) else old(View())
    {
      if guard.Some? && key == guard.value.key && !created && id != guard.value.id {
        return false;
      }
      if key in seen && seen[key] != id {
        return false;
      }
      seen := seen[key := id];
      return true;
    }

    /** The start of `Create`. */
    method BeginCreate(key: Key, value: Value) returns (allowed: bool)
      ensures allowed <==>
        && guard.Some? && !created && value.inNamespace && key == value.key
        && value.key.name == guard.value.key.name && value.key.revision == guard.value.key.revision + 1
      ensures allowed <==> MayCreate(guard, View(), key, value)
    {
      if guard.None? || created || !value.inNamespace {
        return false;
      }
      return value.key.name == guard.value.key.name && value.key.revision == guard.value.key.revision + 1
        && key == value.key;
    }

    /** The start of `Update`: what the server will be asked to compare. */
    method BeginUpdate(key: Key, value: Value) returns (basis: Option<Identity>)
      ensures basis.Some? <==>
        && guard.Some? && created && key in seen && value.inNamespace && key == value.key
        && value.key.name == guard.value.key.name && value.key.revision <= guard.value.key.revision + 1
      ensures basis.Some? <==> MayUpdate(guard, View(), key, value)
      ensures basis.Some? ==> basis.value == seen[key]
    {
      if guard.None? || !created || key !in seen || value.key.name != guard.value.key.name || key != value.key
         || !value.inNamespace || value.key.revision > guard.value.key.revision + 1 {
        return None;
      }
      return Some(seen[key]);
    }

    /** The end of `Create` and `Update`: the server has saved the record. */
    method NoteWrite(key: Key, id: Identity, creates: bool)
      modifies this
      ensures created == (old(created) || creates) && seen == old(seen)[key := id]
      ensures View() == Recorded(old(View()), key, id, creates)
    {
      created := created || creates;
      seen := seen[key := id];
      own := own + {key};
    }
  }
}
