/** Dashboard lists: anchor pagination over an already sorted block, and the row comparators. */
module DashboardPaging {
  import opened Options
  import opened Text

  // ---- Anchor pagination -----------------------------------------------------------------

  datatype Paged<+T> = Rows(rows: seq<T>, next: Option<string>) | CursorInvalid | CursorMismatch

  /** Position of the first row with the given identity; the length when there is none. */
  function FirstIndex<T>(list: seq<T>, id: T -> string, anchor: string): (i: nat)
    ensures i <= |list|
    ensures i < |list| ==> id(list[i]) == anchor
    ensures forall j :: 0 <= j < i ==> id(list[j]) != anchor
  {
    if list == [] || id(list[0]) == anchor then 0 else 1 + FirstIndex(list[1..], id, anchor)
  }

  function Cut<T>(list: seq<T>, id: T -> string, limit: nat, start: nat): Paged<T>
    requires start <= |list|
  {
    var end := if start + limit < |list| then start + limit else |list|;
    Rows(list[start..end], if 0 < end < |list| then Some(id(list[end - 1])) else None)
  }

  /** One request: the rows after the anchor row, which must still be in the list. */
  function PageAfter<T>(list: seq<T>, id: T -> string, limit: nat, anchor: Option<string>): Paged<T> {
    match anchor
    case None => Cut(list, id, limit, 0)
    case Some(a) =>
      if a == "" then CursorInvalid
      else
        var i := FirstIndex(list, id, a);
        if i == |list| then CursorMismatch else Cut(list, id, limit, i + 1)
  }

  /** The loop that looks for the anchor row. */
  method Find<T>(list: seq<T>, id: T -> string, anchor: string) returns (position: nat)
    ensures position == FirstIndex(list, id, anchor)
  {
    position := 0;
    while position < |list| && id(list[position]) != anchor
      invariant position <= |list|
      invariant FirstIndex(list, id, anchor) == position + FirstIndex(list[position..], id, anchor)
    {
      assert list[position..][0] == list[position] && list[position..][1..] == list[position + 1..];
      position := position + 1;
    }
  }

  /** The block that `paginateDashboardBlock` overwrites. */
  class Block<T> {
    var value: seq<T>
    var complete: bool
    var truncated: bool

    constructor (value: seq<T>, complete: bool, truncated: bool)
      ensures this.value == value && this.complete == complete && this.truncated == truncated
    {
      this.value, this.complete, this.truncated := value, complete, truncated;
    }

    /** Replaces the list by one page of it. The page reports itself complete exactly when the
        collection was and no page follows; the block is marked partial as soon as there is
        more than one page. */
    method Paginate(id: T -> string, limit: nat, anchor: Option<string>)
      returns (page: Paged<T>, pageComplete: bool, pageTruncated: bool)
      requires limit >= 1
      modifies this
      ensures page == PageAfter(old(value), id, limit, anchor)
      ensures page.Rows? ==>
        && value == page.rows
        && (pageComplete <==> old(complete) && page.next.None?)
        && (pageTruncated <==> old(truncated) || anchor.Some? || page.next.Some?)
        && (complete <==> old(complete) && anchor.None? && page.next.None?)
        && (truncated <==> pageTruncated)
      ensures !page.Rows? ==> value == old(value) && complete == old(complete) && truncated == old(truncated)
    {
      pageComplete, pageTruncated := false, false;
      var start := 0;
      if anchor.Some? {
        if anchor.value == "" {
          page := CursorInvalid;
          return;
        }
        var position := Find(value, id, anchor.value);
        if position == |value| {
          page := CursorMismatch;
          return;
        }
        start := position + 1;
      }
      var end := start + limit;
      if end > |value| {
        end := |value|;
      }
      var next := if end < |value| then Some(id(value[end - 1])) else None;
      page := Rows(value[start..end], next);
      value := value[start..end];
      pageTruncated := truncated || anchor.Some? || next.Some?;
      pageComplete := complete && next.None?;
      if anchor.Some? || next.Some? {
        complete, truncated := false, true;
      }
    }
  }

  datatype Walk<+T> = Walk(pages: seq<seq<T>>, done: bool)

  /** The pages seen by following `next` over a fixed list, for at most n requests. */
  function Follow<T>(list: seq<T>, id: T -> string, limit: nat, anchor: Option<string>, n: nat): Walk<T>
    decreases n, 1
  {
    if n == 0 then Walk([], false) else Resume(PageAfter(list, id, limit, anchor), list, id, limit, n)
  }

  function Resume<T>(page: Paged<T>, list: seq<T>, id: T -> string, limit: nat, n: nat): Walk<T>
    requires n > 0
    decreases n, 0
  {
    match page
    case Rows(rows, None) => Walk([rows], true)
    case Rows(rows, Some(next)) =>
      var rest := Follow(list, id, limit, Some(next), n - 1);
      Walk([rows] + rest.pages, rest.done)
    case CursorInvalid => Walk([], false)
    case CursorMismatch => Walk([], false)
  }

  function Flatten<T>(pages: seq<seq<T>>): seq<T> {
    if pages == [] then [] else pages[0] + Flatten(pages[1..])
  }

  /** The identity at position p can be found again: it is not empty and no earlier row has it. */
  predicate Anchors<T>(list: seq<T>, id: T -> string, p: nat)
    requires p < |list|
  {
    id(list[p]) != "" && forall j :: 0 <= j < p ==> id(list[j]) != id(list[p])
  }

  /** Every page boundary from position s on can serve as an anchor. */
  predicate BoundariesAnchor<T>(list: seq<T>, id: T -> string, limit: nat, s: nat)
    requires limit >= 1
    decreases |list| - s
  {
    s + limit < |list| ==> Anchors(list, id, s + limit - 1) && BoundariesAnchor(list, id, limit, s + limit)
  }

  /** The cursor with which a walk stands at position s. */
  ghost predicate StandsAt<T>(list: seq<T>, id: T -> string, anchor: Option<string>, s: nat) {
    match anchor
    case None => s == 0
    case Some(a) => 0 < s <= |list| && id(list[s - 1]) == a && Anchors(list, id, s - 1)
  }

  /** One request of a walk standing at position s. */
  lemma FollowStep<T>(list: seq<T>, id: T -> string, limit: nat, anchor: Option<string>, s: nat, n: nat)
    requires limit >= 1 && s <= |list| && StandsAt(list, id, anchor, s) && n > 0
    ensures s + limit >= |list| ==> Follow(list, id, limit, anchor, n) == Walk([list[s..]], true)
    ensures s + limit < |list| ==>
      var rest := Follow(list, id, limit, Some(id(list[s + limit - 1])), n - 1);
      Follow(list, id, limit, anchor, n) == Walk([list[s..s + limit]] + rest.pages, rest.done)
  {
    assert PageAfter(list, id, limit, anchor) == Cut(list, id, limit, s);
    assert list[s..] == list[s..|list|];
  }

  lemma FlattenCons<T>(page: seq<T>, rest: seq<seq<T>>)
    ensures Flatten([page] + rest) == page + Flatten(rest)
  {
    assert ([page] + rest)[1..] == rest;
  }

  lemma {:induction false} PagesAreShort<T>(list: seq<T>, id: T -> string, limit: nat, anchor: Option<string>, n: nat)
    ensures forall page :: page in Follow(list, id, limit, anchor, n).pages ==> |page| <= limit
    decreases n
  {
    if n > 0 {
      var page := PageAfter(list, id, limit, anchor);
      if page.Rows? && page.next.Some? {
        PagesAreShort(list, id, limit, page.next, n - 1);
      }
    }
  }

  lemma NextStands<T>(list: seq<T>, id: T -> string, limit: nat, s: nat)
    requires limit >= 1 && s + limit < |list|
    requires BoundariesAnchor(list, id, limit, s)
    ensures StandsAt(list, id, Some(id(list[s + limit - 1])), s + limit)
    ensures BoundariesAnchor(list, id, limit, s + limit)
  {
  }

  /** The rows that a walk delivers, once it is done. */
  ghost predicate Delivers<T>(walk: Walk<T>, rows: seq<T>) {
    walk.done && Flatten(walk.pages) == rows
  }

  lemma DeliversMore<T>(list: seq<T>, s: nat, e: nat, rest: Walk<T>)
    requires s <= e <= |list| && Delivers(rest, list[e..])
    ensures Delivers(Walk([list[s..e]] + rest.pages, rest.done), list[s..])
  {
    Rejoin(list, s, e, rest.pages);
  }

  /** A walk whose boundaries anchor finishes, and delivers the rows from s on, each once. */
  lemma {:induction false} WalkFrom<T>(list: seq<T>, id: T -> string, limit: nat, anchor: Option<string>, s: nat,
                                       n: nat)
    requires limit >= 1 && s <= |list| && StandsAt(list, id, anchor, s)
    requires BoundariesAnchor(list, id, limit, s)
    requires n > |list| - s
    ensures Delivers(Follow(list, id, limit, anchor, n), list[s..])
    decreases n
  {
    if s + limit < |list| {
      NextStands(list, id, limit, s);
      var next := Some(id(list[s + limit - 1]));
      WalkFrom(list, id, limit, next, s + limit, n - 1);
      DeliversMore(list, s, s + limit, Follow(list, id, limit, next, n - 1));
    } else {
      OnePage(list[s..]);
    }
    FollowStep(list, id, limit, anchor, s, n);
  }

  lemma Rejoin<T>(list: seq<T>, s: nat, e: nat, rest: seq<seq<T>>)
    requires s <= e <= |list| && Flatten(rest) == list[e..]
    ensures Flatten([list[s..e]] + rest) == list[s..]
  {
    FlattenCons(list[s..e], rest);
    assert list[s..e] + list[e..] == list[s..];
  }

  lemma OnePage<T>(page: seq<T>)
    ensures Flatten([page]) == page
  {
    FlattenCons(page, []);
    assert [page] + [] == [page];
  }

  /** A finished walk from position s has delivered at least the rows from s on, and more than
      those when a boundary row could not serve as an anchor. */
  lemma {:induction false} FinishedWalk<T>(list: seq<T>, id: T -> string, limit: nat, anchor: Option<string>, s: nat,
                                           n: nat)
    requires limit >= 1 && s <= |list| && StandsAt(list, id, anchor, s)
    requires Follow(list, id, limit, anchor, n).done
    ensures |Flatten(Follow(list, id, limit, anchor, n).pages)| >= |list| - s
    ensures |Flatten(Follow(list, id, limit, anchor, n).pages)| == |list| - s ==> BoundariesAnchor(list, id, limit, s)
    decreases n
  {
    FollowStep(list, id, limit, anchor, s, n);
    if s + limit < |list| {
      var next := id(list[s + limit - 1]);
      var again := FirstIndex(list, id, next) + 1;
      assert again <= s + limit && next != "";
      FinishedWalk(list, id, limit, Some(next), again, n - 1);
      FlattenCons(list[s..s + limit], Follow(list, id, limit, Some(next), n - 1).pages);
    } else {
      OnePage(list[s..]);
    }
  }

  /** Following `next` from the first page yields exactly the list, cut into pages, if and only
      if every page boundary row can be found again by its identity. */
  lemma PagesPartition<T>(list: seq<T>, id: T -> string, limit: nat)
    requires limit >= 1
    ensures (exists n :: Delivers(Follow(list, id, limit, None, n), list))
       <==> BoundariesAnchor(list, id, limit, 0)
  {
    assert list[0..] == list;
    if BoundariesAnchor(list, id, limit, 0) {
      var n := |list| + 1;
      WalkFrom(list, id, limit, None, 0, n);
      assert Delivers(Follow(list, id, limit, None, n), list);
    }
    if n :| Delivers(Follow(list, id, limit, None, n), list) {
      FinishedWalk(list, id, limit, None, 0, n);
    }
  }

  /** In particular when all rows have distinct, non-empty identities. */
  lemma {:induction false} DistinctRowsAnchor<T>(list: seq<T>, id: T -> string, limit: nat, s: nat)
    requires limit >= 1
    requires forall i, j :: 0 <= i < j < |list| ==> id(list[i]) != id(list[j])
    requires forall i :: 0 <= i < |list| ==> id(list[i]) != ""
    ensures BoundariesAnchor(list, id, limit, s)
    decreases |list| - s
  {
    if s + limit < |list| {
      DistinctRowsAnchor(list, id, limit, s + limit);
    }
  }

  // ---- When a walk ends ------------------------------------------------------------------

  /** The cursor that stands at a position. */
  function AnchorAt<T>(list: seq<T>, id: T -> string, s: nat): Option<string>
    requires s <= |list|
  {
    if s == 0 then None else Some(id(list[s - 1]))
  }

  /** Where the page after position s starts: behind the first row with the boundary's identity. */
  function Jump<T>(list: seq<T>, id: T -> string, limit: nat, s: nat): (t: nat)
    requires limit >= 1 && s + limit < |list|
    ensures 1 <= t <= s + limit
  {
    FirstIndex(list, id, id(list[s + limit - 1])) + 1
  }

  /** The walk never meets an empty identity and never comes back to where it was; `left` are the
      positions it has not been at. */
  predicate Advances<T>(list: seq<T>, id: T -> string, limit: nat, s: nat, left: set<nat>)
    requires limit >= 1
    decreases left
  {
    s + limit < |list| ==>
      && id(list[s + limit - 1]) != "" && Jump(list, id, limit, s) in left
      && Advances(list, id, limit, Jump(list, id, limit, s), left - {Jump(list, id, limit, s)})
  }

  function Positions(n: nat): (all: set<nat>)
    ensures |all| == n && forall p :: p in all <==> 1 <= p <= n
  {
    if n == 0 then {} else Positions(n - 1) + {n}
  }

  /** Positions that a walk can stand at: the first, and those behind a row found by its identity. */
  ghost predicate Stand<T>(list: seq<T>, id: T -> string, s: nat) {
    s <= |list| && StandsAt(list, id, AnchorAt(list, id, s), s)
  }

  /** One request from a position: the last page, or on to the next position. */
  lemma JumpStep<T>(list: seq<T>, id: T -> string, limit: nat, s: nat, n: nat)
    requires limit >= 1 && Stand(list, id, s) && n > 0
    ensures s + limit >= |list| ==> Follow(list, id, limit, AnchorAt(list, id, s), n).done
    ensures s + limit < |list| && id(list[s + limit - 1]) == "" ==>
      !Follow(list, id, limit, AnchorAt(list, id, s), n).done
    ensures s + limit < |list| && id(list[s + limit - 1]) != "" ==>
      var t := Jump(list, id, limit, s);
      && Stand(list, id, t)
      && Follow(list, id, limit, AnchorAt(list, id, s), n).done
        == Follow(list, id, limit, AnchorAt(list, id, t), n - 1).done
  {
    FollowStep(list, id, limit, AnchorAt(list, id, s), s, n);
  }

  lemma {:induction false} DoneStays<T>(list: seq<T>, id: T -> string, limit: nat, anchor: Option<string>, n: nat)
    requires Follow(list, id, limit, anchor, n).done
    ensures Follow(list, id, limit, anchor, n + 1).done
    decreases n
  {
    var page := PageAfter(list, id, limit, anchor);
    if page.next.Some? {
      DoneStays(list, id, limit, page.next, n - 1);
    }
  }

  lemma {:induction false} AdvancingEnds<T>(list: seq<T>, id: T -> string, limit: nat, s: nat, left: set<nat>)
    requires limit >= 1 && Stand(list, id, s) && Advances(list, id, limit, s, left)
    ensures Follow(list, id, limit, AnchorAt(list, id, s), |left| + 1).done
    decreases left
  {
    JumpStep(list, id, limit, s, |left| + 1);
    if s + limit < |list| {
      var t := Jump(list, id, limit, s);
      AdvancingEnds(list, id, limit, t, left - {t});
    }
  }

  /** Whether a walk from a position ends within so many requests. */
  function Ending<T>(list: seq<T>, id: T -> string, limit: nat): (nat, nat) -> bool {
    (s: nat, n: nat) => s <= |list| && Follow(list, id, limit, AnchorAt(list, id, s), n).done
  }

  ghost predicate Monotone(ends: (nat, nat) -> bool) {
    forall s, n: nat :: ends(s, n) ==> ends(s, n + 1)
  }

  /** From s it takes n requests and no fewer, and from no position that is not left fewer. */
  ghost predicate EndsLast(ends: (nat, nat) -> bool, top: nat, s: nat, left: set<nat>, n: nat) {
    && n > 0 && ends(s, n) && !ends(s, n - 1)
    && forall v: nat :: 1 <= v <= top && v !in left ==> !ends(v, n - 1)
  }

  /** A step to where it takes one request less is to a position that is left. */
  lemma EndsLastStep(ends: (nat, nat) -> bool, top: nat, s: nat, t: nat, left: set<nat>, n: nat)
    requires Monotone(ends) && EndsLast(ends, top, s, left, n)
    requires 1 <= t <= top && n > 1 && ends(t, n - 1) && !ends(t, n - 2)
    ensures t in left && EndsLast(ends, top, t, left - {t}, n - 1)
  {
    forall v: nat | 1 <= v <= top && v !in left - {t} ensures !ends(v, n - 2) {
      assert v != t ==> !ends(v, n - 2 + 1);
    }
  }

  lemma EndingIsMonotone<T>(list: seq<T>, id: T -> string, limit: nat)
    ensures Monotone(Ending(list, id, limit))
  {
    var ends := Ending(list, id, limit);
    forall s: nat, n: nat | ends(s, n) ensures ends(s, n + 1) {
      DoneStays(list, id, limit, AnchorAt(list, id, s), n);
    }
  }

  lemma EndsAfterJump<T>(list: seq<T>, id: T -> string, limit: nat, s: nat, n: nat)
    requires limit >= 1 && s + limit < |list| && n > 0 && Stand(list, id, s)
    requires Ending(list, id, limit)(s, n) && !Ending(list, id, limit)(s, n - 1)
    ensures n > 1 && id(list[s + limit - 1]) != "" && Stand(list, id, Jump(list, id, limit, s))
    ensures Ending(list, id, limit)(Jump(list, id, limit, s), n - 1)
    ensures !Ending(list, id, limit)(Jump(list, id, limit, s), n - 2)
  {
    JumpStep(list, id, limit, s, n);
    assert n > 1;
    JumpStep(list, id, limit, s, n - 1);
  }

  /** A walk that ends, but sooner from no position it has been at, advances. */
  lemma {:induction false} EndingAdvances<T>(list: seq<T>, id: T -> string, limit: nat, s: nat, left: set<nat>, n: nat)
    requires limit >= 1 && Stand(list, id, s) && EndsLast(Ending(list, id, limit), |list|, s, left, n)
    ensures Advances(list, id, limit, s, left)
    decreases n
  {
    if s + limit < |list| {
      var t := Jump(list, id, limit, s);
      EndsAfterJump(list, id, limit, s, n);
      EndingIsMonotone(list, id, limit);
      EndsLastStep(Ending(list, id, limit), |list|, s, t, left, n);
      EndingAdvances(list, id, limit, t, left - {t}, n - 1);
    }
  }

  /** The fewest requests after which a finished walk is finished. */
  lemma {:induction false} FewestRequests<T>(list: seq<T>, id: T -> string, limit: nat, n: nat) returns (m: nat)
    requires Follow(list, id, limit, None, n).done
    ensures m > 0 && Follow(list, id, limit, None, m).done && !Follow(list, id, limit, None, m - 1).done
  {
    m := n;
    if Follow(list, id, limit, None, n - 1).done {
      m := FewestRequests(list, id, limit, n - 1);
    }
  }

  /** Following `next` from the first page ever ends exactly when the walk meets no empty identity
      and never comes back to a position; and then within as many requests as there are rows, and
      one. */
  lemma WalkEndsExactly<T>(list: seq<T>, id: T -> string, limit: nat)
    requires limit >= 1
    ensures (exists n :: Follow(list, id, limit, None, n).done) <==> Advances(list, id, limit, 0, Positions(|list|))
    ensures Advances(list, id, limit, 0, Positions(|list|)) ==> Follow(list, id, limit, None, |list| + 1).done
  {
    if Advances(list, id, limit, 0, Positions(|list|)) {
      AdvancingEnds(list, id, limit, 0, Positions(|list|));
    }
    if n :| Follow(list, id, limit, None, n).done {
      var m := FewestRequests(list, id, limit, n);
      EndingAdvances(list, id, limit, 0, Positions(|list|), m);
    }
  }

  function Itself(row: string): string {
    row
  }

  const TWINS: seq<string> := ["a", "a", "b"]

  /** Two rows of one identity before a third, one row a page: the walk goes round in circles. */
  lemma {:induction false} SameIdentityLoops(n: nat)
    ensures !BoundariesAnchor(TWINS, Itself, 1, 0)
    ensures !Follow(TWINS, Itself, 1, None, n).done && !Follow(TWINS, Itself, 1, Some("a"), n).done
  {
    assert Itself(TWINS[0]) == Itself(TWINS[1]) == "a";
    assert !Anchors(TWINS, Itself, 1);
    if n > 0 {
      SameIdentityLoops(n - 1);
      assert FirstIndex(TWINS, Itself, "a") == 0;
    }
  }

  // ---- Comparators -----------------------------------------------------------------------

  datatype Severity = Info | Warning | Critical
  datatype Problem = Problem(namespace: string, kind: string, name: string, container: Option<string>,
                             severity: Severity, ageSeconds: int, source: string)
  datatype Event = Event(namespace: string, timestamp: Option<string>, count: int, identity: string)
  datatype Metric = Metric(namespace: string, pod: string, cpuMillicores: int, memoryBytes: int)

  datatype ProblemField = BySeverity | ByAge | ByProblemIdentity
  datatype EventField = ByTimestamp | ByCount | ByEventIdentity
  datatype MetricField = ByCpu | ByMemory | ByMetricIdentity

  const NUL: string := [0 as char]

  function Optional(s: Option<string>): string {
    match s case None => "" case Some(v) => v
  }

  function Rank(s: Severity): int {
    match s case Info => 0 case Warning => 1 case Critical => 2
  }

  function CompareInts(l: int, r: int): int {
    if l < r then -1 else if l > r then 1 else 0
  }

  /** The primary comparison in the requested direction; on a tie the identity comparison, turned
      round only when the list is sorted by identity. */
  function Decide(first: int, last: int, byIdentity: bool, descending: bool): int {
    if first != 0 then (if descending then -first else first)
    else if byIdentity && descending then -last
    else last
  }

  function ProblemIdentity(p: Problem): string {
    p.namespace + NUL + p.kind + NUL + p.name + NUL + Optional(p.container)
  }

  function CompareProblems(l: Problem, r: Problem, field: ProblemField, descending: bool): int {
    Decide(match field
             case BySeverity => Rank(l.severity) - Rank(r.severity)
             case ByAge => CompareInts(l.ageSeconds, r.ageSeconds)
             case ByProblemIdentity => 0,
           Compare(ProblemIdentity(l), ProblemIdentity(r)), field.ByProblemIdentity?, descending)
  }

  /** Latest first, then namespace, then identity. */
  function Newest(time: int, place: int, identity: int): int {
    if time != 0 then -time else if place != 0 then place else identity
  }

  function CompareCanonicalEvents(l: Event, r: Event): int {
    Newest(Compare(Optional(l.timestamp), Optional(r.timestamp)), Compare(l.namespace, r.namespace),
           Compare(l.identity, r.identity))
  }

  function CompareEvents(l: Event, r: Event, field: EventField, descending: bool): int {
    Decide(match field
             case ByTimestamp => Compare(Optional(l.timestamp), Optional(r.timestamp))
             case ByCount => CompareInts(l.count, r.count)
             case ByEventIdentity => 0,
           CompareCanonicalEvents(l, r), field.ByEventIdentity?, descending)
  }

  function CompareMetrics(l: Metric, r: Metric, field: MetricField, descending: bool): int {
    Decide(match field
             case ByCpu => CompareInts(l.cpuMillicores, r.cpuMillicores)
             case ByMemory => CompareInts(l.memoryBytes, r.memoryBytes)
             case ByMetricIdentity => 0,
           Compare(l.namespace + NUL + l.pod, r.namespace + NUL + r.pod), field.ByMetricIdentity?, descending)
  }

  /** The six comparisons among three rows a, b and c. */
  datatype Trio = Trio(ab: int, ba: int, bc: int, cb: int, ac: int, ca: int)

  /** They are those of a total preorder: flipped by swapping, transitive, strict when a step is. */
  predicate Coherent(t: Trio) {
    && Flips(t.ab, t.ba) && Flips(t.bc, t.cb) && Flips(t.ac, t.ca)
    && Chains(t.ab, t.bc, t.ac) && Chains(t.cb, t.ba, t.ca)
  }

  predicate Flips(there: int, back: int) {
    (there < 0 <==> back > 0) && (there > 0 <==> back < 0)
  }

  predicate Chains(one: int, two: int, both: int) {
    one <= 0 && two <= 0 ==> both <= 0 && (one < 0 || two < 0 ==> both < 0)
  }

  function Decided(f: Trio, l: Trio, byIdentity: bool, descending: bool): Trio {
    Trio(Decide(f.ab, l.ab, byIdentity, descending), Decide(f.ba, l.ba, byIdentity, descending),
         Decide(f.bc, l.bc, byIdentity, descending), Decide(f.cb, l.cb, byIdentity, descending),
         Decide(f.ac, l.ac, byIdentity, descending), Decide(f.ca, l.ca, byIdentity, descending))
  }

  lemma DecidedCoherent(f: Trio, l: Trio, byIdentity: bool, descending: bool)
    requires Coherent(f) && Coherent(l)
    ensures Coherent(Decided(f, l, byIdentity, descending))
  {
  }

  lemma NewestCoherent(t: Trio, p: Trio, i: Trio)
    requires Coherent(t) && Coherent(p) && Coherent(i)
    ensures Coherent(Trio(Newest(t.ab, p.ab, i.ab), Newest(t.ba, p.ba, i.ba), Newest(t.bc, p.bc, i.bc),
                          Newest(t.cb, p.cb, i.cb), Newest(t.ac, p.ac, i.ac), Newest(t.ca, p.ca, i.ca)))
  {
  }

  function StringTrio(a: string, b: string, c: string): Trio {
    Trio(Compare(a, b), Compare(b, a), Compare(b, c), Compare(c, b), Compare(a, c), Compare(c, a))
  }

  lemma StringsCoherent(a: string, b: string, c: string)
    ensures Coherent(StringTrio(a, b, c))
  {
    CompareAntisymmetric(a, b);
    CompareAntisymmetric(b, c);
    CompareAntisymmetric(a, c);
    if Compare(a, b) <= 0 && Compare(b, c) <= 0 {
      CompareTransitive(a, b, c);
    }
    if Compare(c, b) <= 0 && Compare(b, a) <= 0 {
      CompareTransitive(c, b, a);
    }
  }

  function IntTrio(a: int, b: int, c: int): (t: Trio)
    ensures Coherent(t)
  {
    Trio(CompareInts(a, b), CompareInts(b, a), CompareInts(b, c), CompareInts(c, b), CompareInts(a, c),
      CompareInts(c, a))
  }

  /** Sorting problem rows uses a total preorder, for every field and direction. */
  lemma ProblemsOrdered(a: Problem, b: Problem, c: Problem, field: ProblemField, descending: bool)
    ensures Coherent(Trio(CompareProblems(a, b, field, descending), CompareProblems(b, a, field, descending),
                          CompareProblems(b, c, field, descending), CompareProblems(c, b, field, descending),
                          CompareProblems(a, c, field, descending), CompareProblems(c, a, field, descending)))
  {
    var x, y, z := Rank(a.severity), Rank(b.severity), Rank(c.severity);
    var first := match field
      case BySeverity => Trio(x - y, y - x, y - z, z - y, x - z, z - x)
      case ByAge => IntTrio(a.ageSeconds, b.ageSeconds, c.ageSeconds)
      case ByProblemIdentity => Trio(0, 0, 0, 0, 0, 0);
    StringsCoherent(ProblemIdentity(a), ProblemIdentity(b), ProblemIdentity(c));
    DecidedCoherent(first, StringTrio(ProblemIdentity(a), ProblemIdentity(b), ProblemIdentity(c)),
                    field.ByProblemIdentity?, descending);
  }

  function CanonicalTrio(a: Event, b: Event, c: Event): Trio {
    Trio(CompareCanonicalEvents(a, b), CompareCanonicalEvents(b, a), CompareCanonicalEvents(b, c),
         CompareCanonicalEvents(c, b), CompareCanonicalEvents(a, c), CompareCanonicalEvents(c, a))
  }

  lemma CanonicalEventsOrdered(a: Event, b: Event, c: Event)
    ensures Coherent(CanonicalTrio(a, b, c))
  {
    StringsCoherent(Optional(a.timestamp), Optional(b.timestamp), Optional(c.timestamp));
    StringsCoherent(a.namespace, b.namespace, c.namespace);
    StringsCoherent(a.identity, b.identity, c.identity);
    NewestCoherent(StringTrio(Optional(a.timestamp), Optional(b.timestamp), Optional(c.timestamp)),
                   StringTrio(a.namespace, b.namespace, c.namespace), StringTrio(a.identity, b.identity, c.identity));
  }

  /** The same of event rows. */
  lemma EventsOrdered(a: Event, b: Event, c: Event, field: EventField, descending: bool)
    ensures Coherent(Trio(CompareEvents(a, b, field, descending), CompareEvents(b, a, field, descending),
                          CompareEvents(b, c, field, descending), CompareEvents(c, b, field, descending),
                          CompareEvents(a, c, field, descending), CompareEvents(c, a, field, descending)))
  {
    var first := match field
      case ByTimestamp => StringTrio(Optional(a.timestamp), Optional(b.timestamp), Optional(c.timestamp))
      case ByCount => IntTrio(a.count, b.count, c.count)
      case ByEventIdentity => Trio(0, 0, 0, 0, 0, 0);
    StringsCoherent(Optional(a.timestamp), Optional(b.timestamp), Optional(c.timestamp));
    CanonicalEventsOrdered(a, b, c);
    DecidedCoherent(first, CanonicalTrio(a, b, c), field.ByEventIdentity?, descending);
  }

  /** The same of metric rows. */
  lemma MetricsOrdered(a: Metric, b: Metric, c: Metric, field: MetricField, descending: bool)
    ensures Coherent(Trio(CompareMetrics(a, b, field, descending), CompareMetrics(b, a, field, descending),
                          CompareMetrics(b, c, field, descending), CompareMetrics(c, b, field, descending),
                          CompareMetrics(a, c, field, descending), CompareMetrics(c, a, field, descending)))
  {
    var first := match field
      case ByCpu => IntTrio(a.cpuMillicores, b.cpuMillicores, c.cpuMillicores)
      case ByMemory => IntTrio(a.memoryBytes, b.memoryBytes, c.memoryBytes)
      case ByMetricIdentity => Trio(0, 0, 0, 0, 0, 0);
    var x, y, z := a.namespace + NUL + a.pod, b.namespace + NUL + b.pod, c.namespace + NUL + c.pod;
    StringsCoherent(x, y, z);
    DecidedCoherent(first, StringTrio(x, y, z), field.ByMetricIdentity?, descending);
  }

  // ---- What the rows are sorted by -------------------------------------------------------

  predicate LessSevere(l: Severity, r: Severity) {
    (l.Info? && !r.Info?) || (l.Warning? && r.Critical?)
  }

  /** Problems come in order of their severity, from information over warnings to critical, or of
      their age, or of their identity; turned round when descending, where only equal identities
      stay in ascending order. */
  lemma ProblemsSortedBy(l: Problem, r: Problem, field: ProblemField, descending: bool)
    ensures
      var (u, v) := if descending then (r, l) else (l, r);
      CompareProblems(l, r, field, descending) < 0 <==>
      match field
      case BySeverity =>
        LessSevere(u.severity, v.severity)
        || (l.severity == r.severity && Before(ProblemIdentity(l), ProblemIdentity(r)))
      case ByAge =>
        u.ageSeconds < v.ageSeconds
        || (l.ageSeconds == r.ageSeconds && Before(ProblemIdentity(l), ProblemIdentity(r)))
      case ByProblemIdentity => Before(ProblemIdentity(u), ProblemIdentity(v))
  {
    CompareIsLexicographic(ProblemIdentity(l), ProblemIdentity(r));
  }

  /** Rows of equal rank fall back to the canonical order: latest first, then by namespace, then by
      identity. */
  ghost predicate CanonicallyBefore(l: Event, r: Event) {
    var (t, u) := (Optional(l.timestamp), Optional(r.timestamp));
    Before(u, t) || (t == u && (Before(l.namespace, r.namespace)
                                || (l.namespace == r.namespace && Before(l.identity, r.identity))))
  }

  lemma CanonicalEventsSortedBy(l: Event, r: Event)
    ensures CompareCanonicalEvents(l, r) < 0 <==> CanonicallyBefore(l, r)
    ensures CompareCanonicalEvents(l, r) > 0 <==> CanonicallyBefore(r, l)
  {
    CompareIsLexicographic(Optional(l.timestamp), Optional(r.timestamp));
    CompareIsLexicographic(l.namespace, r.namespace);
    CompareIsLexicographic(l.identity, r.identity);
  }

  lemma EventsSortedBy(l: Event, r: Event, field: EventField, descending: bool)
    ensures
      var (u, v) := if descending then (r, l) else (l, r);
      CompareEvents(l, r, field, descending) < 0 <==>
      match field
      case ByTimestamp =>
        Before(Optional(u.timestamp), Optional(v.timestamp))
        || (Optional(l.timestamp) == Optional(r.timestamp) && CanonicallyBefore(l, r))
      case ByCount => u.count < v.count || (l.count == r.count && CanonicallyBefore(l, r))
      case ByEventIdentity => CanonicallyBefore(u, v)
  {
    CompareIsLexicographic(Optional(l.timestamp), Optional(r.timestamp));
    CanonicalEventsSortedBy(l, r);
  }

  lemma MetricsSortedBy(l: Metric, r: Metric, field: MetricField, descending: bool)
    ensures
      var (u, v) := if descending then (r, l) else (l, r);
      var tie := Before(l.namespace + NUL + l.pod, r.namespace + NUL + r.pod);
      CompareMetrics(l, r, field, descending) < 0 <==>
      match field
      case ByCpu => u.cpuMillicores < v.cpuMillicores || (l.cpuMillicores == r.cpuMillicores && tie)
      case ByMemory => u.memoryBytes < v.memoryBytes || (l.memoryBytes == r.memoryBytes && tie)
      case ByMetricIdentity => Before(u.namespace + NUL + u.pod, v.namespace + NUL + v.pod)
  {
    CompareIsLexicographic(l.namespace + NUL + l.pod, r.namespace + NUL + r.pod);
  }

  /** No field of the identity but the last holds the separator. */
  predicate Separable(p: Problem) {
    Above(p.namespace, NUL[0]) && Above(p.kind, NUL[0]) && Above(p.name, NUL[0])
  }

  lemma IdentityNested(p: Problem)
    ensures ProblemIdentity(p) == p.namespace + (NUL + (p.kind + (NUL + (p.name + (NUL + Optional(p.container))))))
  {
  }

  /** Identities compare by namespace, then kind, then name, then container. */
  lemma IdentityFields(l: Problem, r: Problem)
    requires Separable(l) && Separable(r)
    ensures Compare(ProblemIdentity(l), ProblemIdentity(r)) ==
      if l.namespace != r.namespace then Compare(l.namespace, r.namespace)
      else if l.kind != r.kind then Compare(l.kind, r.kind)
      else if l.name != r.name then Compare(l.name, r.name)
      else Compare(Optional(l.container), Optional(r.container))
  {
    var x, y := l.name + (NUL + Optional(l.container)), r.name + (NUL + Optional(r.container));
    IdentityNested(l);
    IdentityNested(r);
    CompareFields(l.namespace, l.kind + (NUL + x), r.namespace, r.kind + (NUL + y), NUL[0]);
    CompareFields(l.kind, x, r.kind, y, NUL[0]);
    CompareFields(l.name, Optional(l.container), r.name, Optional(r.container), NUL[0]);
  }
}
