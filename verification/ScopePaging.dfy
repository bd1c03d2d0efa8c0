/** Keyset pagination of namespace scopes: every request lists, filters and sorts the current
    collection and resumes strictly after the key of the last row it delivered before. */
module ScopePaging {
  import opened Options
  import opened Text

  /** A moment as the row stores it: the fixed width second and nine decimal digits. */
  datatype Instant = Instant(second: string, nanos: string)

  datatype Scope = Scope(id: int, name: string, context: string, updatedAt: Instant)

  datatype SortField = ByName | ByUpdatedAt
  datatype Query = Query(limit: nat, matches: Scope -> bool, sort: SortField, descending: bool)

  datatype Key = Key(sortValue: string, name: string, id: int)

  datatype Page = Page(items: seq<Scope>, next: Option<Key>) | InvalidCursor

  // ---- Sort keys -------------------------------------------------------------------------

  function TrimZeros(digits: string): (t: string)
    ensures t <= digits
    ensures t != [] ==> t[|t| - 1] != '0'
  {
    if digits != [] && digits[|digits| - 1] == '0' then TrimZeros(digits[..|digits| - 1]) else digits
  }

  /** Go's layout `2006-01-02T15:04:05.999999999Z07:00` in UTC: trailing zeros are dropped,
      and the point with them when nothing is left. */
  function FormatInstant(t: Instant): string {
    t.second + Closed(TrimZeros(t.nanos))
  }

  function Closed(fraction: string): string {
    if fraction == [] then "Z" else "." + (fraction + "Z")
  }

  function KeyOf(s: Scope, q: Query): Key {
    Key(match q.sort case ByName => s.name case ByUpdatedAt => FormatInstant(s.updatedAt), s.name, s.id)
  }

  function CompareKeys(l: Key, r: Key): int {
    var c := Compare(l.sortValue, r.sortValue);
    if c != 0 then c
    else
      var d := Compare(l.name, r.name);
      if d != 0 then d
      else if l.id < r.id then -1
      else if l.id > r.id then 1
      else 0
  }

  /** Strictly earlier in the requested direction. */
  predicate Precedes(q: Query, l: Key, r: Key) {
    if q.descending then CompareKeys(l, r) > 0 else CompareKeys(l, r) < 0
  }

  /** The key order is a strict total order in both directions. */
  lemma StrictTotalOrder(q: Query, a: Key, b: Key, c: Key)
    ensures !Precedes(q, a, a)
    ensures Precedes(q, a, b) ==> !Precedes(q, b, a)
    ensures a == b || Precedes(q, a, b) || Precedes(q, b, a)
    ensures Precedes(q, a, b) && Precedes(q, b, c) ==> Precedes(q, a, c)
  {
    CompareAntisymmetric(a.sortValue, b.sortValue);
    CompareAntisymmetric(a.name, b.name);
    if Precedes(q, a, b) && Precedes(q, b, c) {
      if q.descending {
        CompareKeysTransitive(c, b, a);
      } else {
        CompareKeysTransitive(a, b, c);
      }
    }
  }

  /** Keys come by sort value, then name, then number, and in the opposite order when descending. */
  lemma PrecedesExactly(q: Query, l: Key, r: Key)
    ensures var (a, b) := if q.descending then (r, l) else (l, r);
      Precedes(q, l, r) <==>
      || Before(a.sortValue, b.sortValue)
      || (a.sortValue == b.sortValue && Before(a.name, b.name))
      || (a.sortValue == b.sortValue && a.name == b.name && a.id < b.id)
  {
    CompareIsLexicographic(l.sortValue, r.sortValue);
    CompareIsLexicographic(l.name, r.name);
  }

  /** So rows come by name and number, or by the formatted moment of their update before that. */
  lemma RowsSortedBy(q: Query, l: Scope, r: Scope)
    ensures var (a, b) := if q.descending then (r, l) else (l, r);
      var named := Before(a.name, b.name) || (a.name == b.name && a.id < b.id);
      Precedes(q, KeyOf(l, q), KeyOf(r, q)) <==>
      match q.sort
      case ByName => named
      case ByUpdatedAt =>
        || Before(FormatInstant(a.updatedAt), FormatInstant(b.updatedAt))
        || (FormatInstant(a.updatedAt) == FormatInstant(b.updatedAt) && named)
  {
    PrecedesExactly(q, KeyOf(l, q), KeyOf(r, q));
    CompareIsLexicographic(l.name, r.name);
  }

  lemma NeverBackwards(q: Query, a: Key, b: Key)
    requires a == b || Precedes(q, a, b)
    ensures !Precedes(q, b, a)
  {
    StrictTotalOrder(q, a, b, b);
  }

  lemma CompareKeysTransitive(a: Key, b: Key, c: Key)
    requires (CompareKeys(a, b) < 0 && CompareKeys(b, c) < 0) || (CompareKeys(c, b) > 0 && CompareKeys(b, a) > 0)
    ensures CompareKeys(a, c) < 0 && CompareKeys(c, a) > 0
  {
    CompareAntisymmetric(a.sortValue, b.sortValue);
    CompareAntisymmetric(b.sortValue, c.sortValue);
    CompareAntisymmetric(a.sortValue, c.sortValue);
    CompareAntisymmetric(a.name, b.name);
    CompareAntisymmetric(b.name, c.name);
    CompareAntisymmetric(a.name, c.name);
    CompareTransitive(a.sortValue, b.sortValue, c.sortValue);
    if a.sortValue == b.sortValue == c.sortValue {
      CompareTransitive(a.name, b.name, c.name);
    }
  }

  // ---- One request -----------------------------------------------------------------------

  function Filter(rows: seq<Scope>, q: Query): seq<Scope> {
    if rows == [] then []
    else if q.matches(rows[0]) then [rows[0]] + Filter(rows[1..], q)
    else Filter(rows[1..], q)
  }

  /** Insertion into a sorted list, after equal keys: the stable order. */
  function Insert(s: Scope, sorted: seq<Scope>, q: Query): seq<Scope> {
    if sorted == [] || Precedes(q, KeyOf(s, q), KeyOf(sorted[0], q)) then [s] + sorted
    else [sorted[0]] + Insert(s, sorted[1..], q)
  }

  function Sort(rows: seq<Scope>, q: Query): seq<Scope> {
    if rows == [] then [] else Insert(rows[|rows| - 1], Sort(rows[..|rows| - 1], q), q)
  }

  function Keys(rows: seq<Scope>, q: Query): (k: seq<Key>)
    ensures |k| == |rows|
    ensures forall i :: 0 <= i < |rows| ==> k[i] == KeyOf(rows[i], q)
  {
    seq(|rows|, i requires 0 <= i < |rows| => KeyOf(rows[i], q))
  }

  /** The position of the first row whose key lies after the cursor. */
  function FirstAfter(rows: seq<Scope>, q: Query, cursor: Key): (start: nat)
    ensures start <= |rows|
    ensures start < |rows| ==> Precedes(q, cursor, KeyOf(rows[start], q))
    ensures forall i :: 0 <= i < start ==> !Precedes(q, cursor, KeyOf(rows[i], q))
  {
    if rows == [] || Precedes(q, cursor, KeyOf(rows[0], q)) then 0 else 1 + FirstAfter(rows[1..], q, cursor)
  }

  /** `scopePageStart`, with its search loop; -1 stands for the invalid cursor error. */
  method ScopePageStart(rows: seq<Scope>, q: Query, cursor: Option<Key>) returns (start: int)
    ensures start == -1 <==> cursor.Some? && !UsableCursor(cursor.value)
    ensures cursor.None? ==> start == 0
    ensures cursor.Some? && start != -1 ==> start == FirstAfter(rows, q, cursor.value)
  {
    if cursor.None? {
      return 0;
    }
    if cursor.value.id <= 0 || cursor.value.sortValue == "" || cursor.value.name == "" {
      return -1;
    }
    var position := 0;
    while position < |rows|
      invariant 0 <= position <= |rows|
      invariant FirstAfter(rows, q, cursor.value) == position + FirstAfter(rows[position..], q, cursor.value)
    {
      assert rows[position..][0] == rows[position] && rows[position..][1..] == rows[position + 1..];
      CompareKeysFlip(KeyOf(rows[position], q), cursor.value);
      var comparison := CompareKeys(KeyOf(rows[position], q), cursor.value);
      if q.descending {
        if comparison < 0 {
          return position;
        }
      } else if comparison > 0 {
        return position;
      }
      position := position + 1;
    }
    return |rows|;
  }

  lemma CompareKeysFlip(l: Key, r: Key)
    ensures CompareKeys(l, r) < 0 <==> CompareKeys(r, l) > 0
    ensures CompareKeys(l, r) > 0 <==> CompareKeys(r, l) < 0
  {
    CompareAntisymmetric(l.sortValue, r.sortValue);
    CompareAntisymmetric(l.name, r.name);
  }

  predicate UsableCursor(k: Key) {
    k.id > 0 && k.sortValue != "" && k.name != ""
  }

  /** Cuts one page out of the sorted rows and names its last row as the next cursor. */
  function Window(sorted: seq<Scope>, q: Query, cursor: Option<Key>): Page {
    var start, end := Start(sorted, q, cursor), End(sorted, q, cursor);
    Page(sorted[start..end], if 0 < end < |sorted| then Some(KeyOf(sorted[end - 1], q)) else None)
  }

  /** `List`: filter, sort, then cut the page that follows the cursor. */
  function ListPage(rows: seq<Scope>, q: Query, cursor: Option<Key>): Page {
    if cursor.Some? && !UsableCursor(cursor.value) then InvalidCursor
    else Window(Sort(Filter(rows, q), q), q, cursor)
  }

  // ---- Sorting ---------------------------------------------------------------------------

  ghost predicate Increasing(rows: seq<Scope>, q: Query) {
    forall i, j :: 0 <= i < j < |rows| ==> Precedes(q, KeyOf(rows[i], q), KeyOf(rows[j], q))
  }

  /** Rows of one table: primary keys are distinct and positive, names are never empty. */
  ghost predicate Table(rows: seq<Scope>) {
    && (forall i, j :: 0 <= i < j < |rows| ==> rows[i].id != rows[j].id)
    && (forall i :: 0 <= i < |rows| ==> rows[i].id > 0 && rows[i].name != "")
  }

  lemma {:induction false} FilterMember(rows: seq<Scope>, q: Query, x: Scope)
    ensures x in Filter(rows, q) <==> x in rows && q.matches(x)
  {
    if rows != [] {
      FilterMember(rows[1..], q, x);
      assert rows == [rows[0]] + rows[1..];
    }
  }

  lemma {:induction false} FilterTable(rows: seq<Scope>, q: Query)
    requires Table(rows)
    ensures Table(Filter(rows, q))
  {
    if rows != [] {
      FilterTable(rows[1..], q);
      var rest := Filter(rows[1..], q);
      forall i | 0 <= i < |rest| ensures rest[i].id != rows[0].id {
        FilterMember(rows[1..], q, rest[i]);
      }
    }
  }

  lemma {:induction false} InsertMember(s: Scope, sorted: seq<Scope>, q: Query, x: Scope)
    ensures x in Insert(s, sorted, q) <==> x == s || x in sorted
  {
    if sorted != [] {
      InsertMember(s, sorted[1..], q, x);
      assert x in sorted <==> x == sorted[0] || x in sorted[1..];
    }
  }

  lemma {:induction false} SortMember(rows: seq<Scope>, q: Query, x: Scope)
    ensures x in Sort(rows, q) <==> x in rows
  {
    if rows != [] {
      var n := |rows| - 1;
      SortMember(rows[..n], q, x);
      InsertMember(rows[n], Sort(rows[..n], q), q, x);
      assert rows == rows[..n] + [rows[n]];
    }
  }

  lemma {:induction false} InsertSorted(s: Scope, sorted: seq<Scope>, q: Query)
    requires Increasing(sorted, q)
    requires forall i :: 0 <= i < |sorted| ==> sorted[i].id != s.id
    ensures Increasing(Insert(s, sorted, q), q)
  {
    if sorted != [] {
      var k, head := KeyOf(s, q), KeyOf(sorted[0], q);
      StrictTotalOrder(q, k, head, head);
      if Precedes(q, k, head) {
        forall i | 0 <= i < |sorted| ensures Precedes(q, k, KeyOf(sorted[i], q)) {
          StrictTotalOrder(q, k, head, KeyOf(sorted[i], q));
        }
      } else {
        InsertSorted(s, sorted[1..], q);
        var rest := Insert(s, sorted[1..], q);
        forall i | 0 <= i < |rest| ensures Precedes(q, head, KeyOf(rest[i], q)) {
          InsertMember(s, sorted[1..], q, rest[i]);
        }
      }
    }
  }

  lemma {:induction false} SortSorted(rows: seq<Scope>, q: Query)
    requires Table(rows)
    ensures Increasing(Sort(rows, q), q)
  {
    if rows != [] {
      var n := |rows| - 1;
      SortSorted(rows[..n], q);
      var sorted := Sort(rows[..n], q);
      forall i | 0 <= i < |sorted| ensures sorted[i].id != rows[n].id {
        SortMember(rows[..n], q, sorted[i]);
      }
      InsertSorted(rows[n], sorted, q);
    }
  }

  // ---- Following the cursor over a changing collection -----------------------------------

  datatype Walk = Walk(pages: seq<seq<Key>>, complete: bool)

  /** The pages a client sees when request number i finds the collection `tables[i]`. */
  function Follow(tables: seq<seq<Scope>>, q: Query, cursor: Option<Key>): (walk: Walk)
    ensures |walk.pages| <= |tables|
  {
    if tables == [] then Walk([], false)
    else
      match ListPage(tables[0], q, cursor)
      case InvalidCursor => Walk([], false)
      case Page(items, None) => Walk([Keys(items, q)], true)
      case Page(items, Some(next)) =>
        var rest := Follow(tables[1..], q, Some(next));
        Walk([Keys(items, q)] + rest.pages, rest.complete)
  }

  function Times(k: Key, page: seq<Key>): nat {
    if page == [] then 0 else (if page[0] == k then 1 else 0) + Times(k, page[1..])
  }

  function Delivered(k: Key, pages: seq<seq<Key>>): nat {
    if pages == [] then 0 else Times(k, pages[0]) + Delivered(k, pages[1..])
  }

  ghost predicate Beyond(q: Query, cursor: Option<Key>, k: Key) {
    cursor.Some? ==> Precedes(q, cursor.value, k)
  }

  ghost predicate Offers(rows: seq<Scope>, q: Query, k: Key) {
    exists s :: s in rows && q.matches(s) && KeyOf(s, q) == k
  }

  ghost predicate StrictKeys(q: Query, page: seq<Key>) {
    forall i, j :: 0 <= i < j < |page| ==> Precedes(q, page[i], page[j])
  }

  lemma {:induction false} TimesInStrict(q: Query, page: seq<Key>, k: Key)
    requires StrictKeys(q, page)
    ensures Times(k, page) == if k in page then 1 else 0
  {
    if page != [] {
      TimesInStrict(q, page[1..], k);
      StrictTotalOrder(q, k, k, k);
      assert k in page <==> k == page[0] || k in page[1..];
    }
  }

  function Start(sorted: seq<Scope>, q: Query, cursor: Option<Key>): (start: nat)
    ensures start <= |sorted|
  {
    if cursor.None? then 0 else FirstAfter(sorted, q, cursor.value)
  }

  /** The rows from the start on are exactly the rows after the cursor. */
  lemma StartDivides(sorted: seq<Scope>, q: Query, cursor: Option<Key>, i: nat)
    requires Increasing(sorted, q) && i < |sorted|
    ensures Beyond(q, cursor, KeyOf(sorted[i], q)) <==> Start(sorted, q, cursor) <= i
  {
    var start := Start(sorted, q, cursor);
    if cursor.Some? && start < i {
      StrictTotalOrder(q, cursor.value, KeyOf(sorted[start], q), KeyOf(sorted[i], q));
    }
  }

  lemma SliceKeysStrict(sorted: seq<Scope>, q: Query, start: nat, end: nat)
    requires Increasing(sorted, q) && start <= end <= |sorted|
    ensures StrictKeys(q, Keys(sorted[start..end], q))
  {
    var keys := Keys(sorted[start..end], q);
    forall i, j | 0 <= i < j < |keys| ensures Precedes(q, keys[i], keys[j]) {
      assert keys[i] == KeyOf(sorted[start + i], q) && keys[j] == KeyOf(sorted[start + j], q);
    }
  }

  lemma SliceKeysExactly(sorted: seq<Scope>, q: Query, start: nat, end: nat, k: Key)
    requires start <= end <= |sorted|
    ensures k in Keys(sorted[start..end], q) <==> exists i :: start <= i < end && KeyOf(sorted[i], q) == k
  {
    var keys := Keys(sorted[start..end], q);
    if k in keys {
      var j :| 0 <= j < |keys| && keys[j] == k;
      assert KeyOf(sorted[start + j], q) == k;
    }
    if i :| start <= i < end && KeyOf(sorted[i], q) == k {
      assert keys[i - start] == k;
    }
  }

  function End(sorted: seq<Scope>, q: Query, cursor: Option<Key>): (end: nat)
    ensures Start(sorted, q, cursor) <= end <= |sorted|
  {
    var start := Start(sorted, q, cursor);
    if start + q.limit < |sorted| then start + q.limit else |sorted|
  }

  /** Row number i is on the page exactly when its position lies between start and end. */
  lemma WindowRow(sorted: seq<Scope>, q: Query, cursor: Option<Key>, i: nat)
    requires Increasing(sorted, q) && q.limit >= 1 && i < |sorted|
    ensures var k, next := KeyOf(sorted[i], q), Window(sorted, q, cursor).next;
      && (Start(sorted, q, cursor) <= i < End(sorted, q, cursor) ==> (next.Some? ==> !Precedes(q, next.value, k)))
      && (End(sorted, q, cursor) <= i ==> next.Some? && Precedes(q, next.value, k))
  {
    var next := Window(sorted, q, cursor).next;
    if i < End(sorted, q, cursor) && next.Some? {
      NeverBackwards(q, KeyOf(sorted[i], q), next.value);
    }
  }

  /** One request delivers strictly ordered keys after the cursor and not after the next one. */
  lemma PageIsBetween(rows: seq<Scope>, q: Query, cursor: Option<Key>, k: Key)
    requires Table(rows) && q.limit >= 1
    requires cursor.Some? ==> UsableCursor(cursor.value)
    ensures var page := ListPage(rows, q, cursor);
      && page.Page? && StrictKeys(q, Keys(page.items, q))
      && (k in Keys(page.items, q) ==>
            Beyond(q, cursor, k) && (page.next.Some? ==> !Precedes(q, page.next.value, k)))
  {
    var sorted := Sort(Filter(rows, q), q);
    FilterTable(rows, q);
    SortSorted(Filter(rows, q), q);
    var start, end := Start(sorted, q, cursor), End(sorted, q, cursor);
    SliceKeysStrict(sorted, q, start, end);
    SliceKeysExactly(sorted, q, start, end, k);
    if i :| start <= i < end && KeyOf(sorted[i], q) == k {
      StartDivides(sorted, q, cursor, i);
      WindowRow(sorted, q, cursor, i);
    }
  }

  /** The next cursor is usable and lies after the present one. */
  lemma NextAdvances(rows: seq<Scope>, q: Query, cursor: Option<Key>)
    requires Table(rows) && q.limit >= 1
    requires cursor.Some? ==> UsableCursor(cursor.value)
    requires ListPage(rows, q, cursor).next.Some?
    ensures var next := ListPage(rows, q, cursor).next.value; UsableCursor(next) && Beyond(q, cursor, next)
  {
    var sorted := Sort(Filter(rows, q), q);
    FilterTable(rows, q);
    SortSorted(Filter(rows, q), q);
    var last := End(sorted, q, cursor) - 1;
    StartDivides(sorted, q, cursor, last);
    SortMember(Filter(rows, q), q, sorted[last]);
    FilterMember(rows, q, sorted[last]);
    KeyIsUsable(sorted[last], q);
  }

  /** Every offered key after the cursor is on the page or after the next cursor. */
  lemma PageMissesNothing(rows: seq<Scope>, q: Query, cursor: Option<Key>, k: Key)
    requires Table(rows) && q.limit >= 1
    requires cursor.Some? ==> UsableCursor(cursor.value)
    requires Offers(rows, q, k) && Beyond(q, cursor, k)
    ensures var page := ListPage(rows, q, cursor);
      page.Page? && (k in Keys(page.items, q) || (page.next.Some? && Precedes(q, page.next.value, k)))
  {
    var sorted := Sort(Filter(rows, q), q);
    FilterTable(rows, q);
    SortSorted(Filter(rows, q), q);
    var s :| s in rows && q.matches(s) && KeyOf(s, q) == k;
    FilterMember(rows, q, s);
    SortMember(Filter(rows, q), q, s);
    var i :| 0 <= i < |sorted| && sorted[i] == s;
    StartDivides(sorted, q, cursor, i);
    SliceKeysExactly(sorted, q, Start(sorted, q, cursor), End(sorted, q, cursor), k);
    WindowRow(sorted, q, cursor, i);
  }

  lemma KeyIsUsable(s: Scope, q: Query)
    ensures UsableCursor(KeyOf(s, q)) <==> s.id > 0 && s.name != ""
  {
    if q.sort.ByUpdatedAt? {
      var v := FormatInstant(s.updatedAt);
      assert v[|v| - 1] == 'Z';
    }
  }

  /** Over any sequence of collections no key is delivered twice, and a key that every consulted
      collection offers is delivered exactly once by a walk that reaches its end, whatever else
      is inserted or deleted meanwhile, the cursor's own row included. */
  lemma {:induction false} DeliveredExactlyOnce(tables: seq<seq<Scope>>, q: Query, cursor: Option<Key>, k: Key)
    requires q.limit >= 1
    requires forall i :: 0 <= i < |tables| ==> Table(tables[i])
    requires cursor.Some? ==> UsableCursor(cursor.value)
    ensures Delivered(k, Follow(tables, q, cursor).pages) <= 1
    ensures !Beyond(q, cursor, k) ==> Delivered(k, Follow(tables, q, cursor).pages) == 0
    ensures Beyond(q, cursor, k) && Follow(tables, q, cursor).complete
            && (forall i :: 0 <= i < |Follow(tables, q, cursor).pages| ==> Offers(tables[i], q, k))
        ==> Delivered(k, Follow(tables, q, cursor).pages) == 1
  {
    var walk := Follow(tables, q, cursor);
    if tables != [] {
      PageIsBetween(tables[0], q, cursor, k);
      var page := ListPage(tables[0], q, cursor);
      TimesInStrict(q, Keys(page.items, q), k);
      if Beyond(q, cursor, k) && Offers(tables[0], q, k) {
        PageMissesNothing(tables[0], q, cursor, k);
      }
      if page.next.Some? {
        NextAdvances(tables[0], q, cursor);
        DeliveredExactlyOnce(tables[1..], q, page.next, k);
        assert walk.pages[1..] == Follow(tables[1..], q, page.next).pages;
        assert forall i :: 1 <= i < |walk.pages| ==> tables[i] == tables[1..][i - 1];
        if cursor.Some? {
          StrictTotalOrder(q, cursor.value, page.next.value, k);
        }
      }
    }
  }

  lemma SortedRows(rows: seq<Scope>, q: Query, s: Scope)
    ensures s in Sort(Filter(rows, q), q) <==> s in rows && q.matches(s)
  {
    SortMember(Filter(rows, q), q, s);
    FilterMember(rows, q, s);
  }

  lemma WindowIsFull(sorted: seq<Scope>, q: Query, cursor: Option<Key>)
    requires q.limit >= 1
    ensures var page, start := Window(sorted, q, cursor), Start(sorted, q, cursor);
      && page.items <= sorted[start..] && |page.items| <= q.limit
      && (page.next.Some? ==>
            && |page.items| == q.limit && start + q.limit < |sorted|
            && page.next.value == KeyOf(sorted[start + q.limit - 1], q))
  {
    var start, end := Start(sorted, q, cursor), End(sorted, q, cursor);
    assert sorted[start..end] <= sorted[start..];
  }

  /** A page holds matching rows of the table, and as many as asked for when another follows; then
      the next cursor is the key of its last row, and a row does come after it. */
  lemma PageIsFull(rows: seq<Scope>, q: Query, cursor: Option<Key>)
    requires Table(rows) && q.limit >= 1
    requires cursor.Some? ==> UsableCursor(cursor.value)
    ensures var page := ListPage(rows, q, cursor);
      && page.Page? && |page.items| <= q.limit
      && (forall s :: s in page.items ==> s in rows && q.matches(s))
      && (page.next.Some? ==> |page.items| == q.limit && page.next.value == KeyOf(page.items[q.limit - 1], q)
                              && exists s :: s in rows && q.matches(s) && Precedes(q, page.next.value, KeyOf(s, q)))
  {
    var sorted, page := Sort(Filter(rows, q), q), ListPage(rows, q, cursor);
    FilterTable(rows, q);
    SortSorted(Filter(rows, q), q);
    WindowIsFull(sorted, q, cursor);
    forall s | s in page.items ensures s in rows && q.matches(s) {
      SortedRows(rows, q, s);
    }
    if page.next.Some? {
      var next := sorted[Start(sorted, q, cursor) + q.limit];
      SortedRows(rows, q, next);
      assert Precedes(q, page.next.value, KeyOf(next, q));
    }
  }

  /** The rows that a sorted page ends at are where the next one starts. */
  lemma NextStart(sorted: seq<Scope>, q: Query, cursor: Option<Key>)
    requires Increasing(sorted, q) && q.limit >= 1 && Window(sorted, q, cursor).next.Some?
    ensures Start(sorted, q, Window(sorted, q, cursor).next) == End(sorted, q, cursor)
  {
    var next, end := Window(sorted, q, cursor).next, End(sorted, q, cursor);
    StartDivides(sorted, q, next, end);
    StartDivides(sorted, q, next, end - 1);
    StrictTotalOrder(q, next.value, next.value, next.value);
  }

  /** Every request finds the same table. */
  ghost predicate Unchanging(tables: seq<seq<Scope>>, rows: seq<Scope>) {
    forall i :: 0 <= i < |tables| ==> tables[i] == rows
  }

  /** How many rows there are after the cursor. */
  function Ahead(rows: seq<Scope>, q: Query, cursor: Option<Key>): nat {
    var sorted := Sort(Filter(rows, q), q);
    |sorted| - Start(sorted, q, cursor)
  }

  lemma AheadShrinks(rows: seq<Scope>, q: Query, cursor: Option<Key>)
    requires Table(rows) && q.limit >= 1 && (cursor.Some? ==> UsableCursor(cursor.value))
    requires ListPage(rows, q, cursor).next.Some?
    ensures Ahead(rows, q, ListPage(rows, q, cursor).next) < Ahead(rows, q, cursor)
  {
    FilterTable(rows, q);
    SortSorted(Filter(rows, q), q);
    NextStart(Sort(Filter(rows, q), q), q, cursor);
  }

  /** The first request of a walk decides whether it goes on. */
  lemma FollowOnce(tables: seq<seq<Scope>>, q: Query, cursor: Option<Key>, page: Page)
    requires tables != [] && page == ListPage(tables[0], q, cursor)
    ensures match page
      case InvalidCursor => !Follow(tables, q, cursor).complete
      case Page(_, None) => Follow(tables, q, cursor).complete
      case Page(_, next) => Follow(tables, q, cursor).complete == Follow(tables[1..], q, next).complete
  {
  }

  /** A request is valid, and if another follows, that is valid and has less before it. */
  lemma RequestAdvances(rows: seq<Scope>, q: Query, cursor: Option<Key>)
    requires Table(rows) && q.limit >= 1 && (cursor.Some? ==> UsableCursor(cursor.value))
    ensures ListPage(rows, q, cursor).Page?
    ensures var next := ListPage(rows, q, cursor).next;
      next.Some? ==> UsableCursor(next.value) && Ahead(rows, q, next) < Ahead(rows, q, cursor)
  {
    if ListPage(rows, q, cursor).next.Some? {
      NextAdvances(rows, q, cursor);
      AheadShrinks(rows, q, cursor);
    }
  }

  lemma {:induction false} WalkAdvances(tables: seq<seq<Scope>>, rows: seq<Scope>, q: Query, cursor: Option<Key>)
    requires Table(rows) && q.limit >= 1 && (cursor.Some? ==> UsableCursor(cursor.value))
    requires Unchanging(tables, rows) && |tables| > Ahead(rows, q, cursor)
    ensures Follow(tables, q, cursor).complete
    decreases tables
  {
    var page := ListPage(rows, q, cursor);
    RequestAdvances(rows, q, cursor);
    FollowOnce(tables, q, cursor, page);
    if page.next.Some? {
      WalkAdvances(tables[1..], rows, q, page.next);
    }
  }

  /** Over a table that does not change, a walk is complete after at most as many requests as there
      are rows, and one; and it shows every matching row once. */
  lemma WalkCompletes(tables: seq<seq<Scope>>, rows: seq<Scope>, q: Query)
    requires Table(rows) && q.limit >= 1 && Unchanging(tables, rows) && |tables| > |rows|
    ensures Follow(tables, q, None).complete
    ensures forall s :: s in rows && q.matches(s) ==> Delivered(KeyOf(s, q), Follow(tables, q, None).pages) == 1
  {
    SortLength(Filter(rows, q), q);
    FilterLength(rows, q);
    WalkAdvances(tables, rows, q, None);
    forall s | s in rows && q.matches(s) ensures Delivered(KeyOf(s, q), Follow(tables, q, None).pages) == 1 {
      assert Offers(rows, q, KeyOf(s, q));
      DeliveredExactlyOnce(tables, q, None, KeyOf(s, q));
    }
  }

  lemma {:induction false} InsertLength(s: Scope, sorted: seq<Scope>, q: Query)
    ensures |Insert(s, sorted, q)| == |sorted| + 1
  {
    if sorted != [] {
      InsertLength(s, sorted[1..], q);
    }
  }

  lemma {:induction false} SortLength(rows: seq<Scope>, q: Query)
    ensures |Sort(rows, q)| == |rows|
  {
    if rows != [] {
      SortLength(rows[..|rows| - 1], q);
      InsertLength(rows[|rows| - 1], Sort(rows[..|rows| - 1], q), q);
    }
  }

  lemma {:induction false} FilterLength(rows: seq<Scope>, q: Query)
    ensures |Filter(rows, q)| <= |rows|
  {
    if rows != [] {
      FilterLength(rows[1..], q);
    }
  }

  // ---- What sorting by `updatedAt` really sorts by ---------------------------------------

  ghost predicate Digits(s: string) {
    forall i :: 0 <= i < |s| ==> '0' <= s[i] <= '9'
  }

  ghost predicate Proper(t: Instant) {
    |t.second| == 19 && |t.nanos| == 9 && Digits(t.nanos)
  }

  /** Earlier, equal or later; fixed width decimals order as their texts do. */
  function Chronology(a: Instant, b: Instant): int {
    Compare(a.second + a.nanos, b.second + b.nanos)
  }

  lemma {:induction false} CompareEqualLengthHeads(a: string, b: string, x: string, y: string)
    requires |a| == |b| && a != b
    ensures Compare(a + x, b + y) == Compare(a, b)
  {
    assert a != [] && b != [];
    if a[0] == b[0] {
      assert (a + x)[1..] == a[1..] + x && (b + y)[1..] == b[1..] + y;
      assert a == [a[0]] + a[1..] && b == [b[0]] + b[1..];
      CompareEqualLengthHeads(a[1..], b[1..], x, y);
    }
  }

  /** The first string is a proper prefix of the second. */
  predicate Starts(a: string, b: string) {
    b != [] && (a == [] || (a[0] == b[0] && Starts(a[1..], b[1..])))
  }

  lemma OneIsWhole(a: string, b: string, p: string, r: string)
    requires a == [] || b == []
    requires Digits(a) && Digits(b) && Digits(p) && Digits(r)
    requires a <= p && b <= r && |p| == |r|
    requires forall i :: |a| <= i < |p| ==> p[i] == '0'
    requires forall i :: |b| <= i < |r| ==> r[i] == '0'
    requires (a != [] ==> a[|a| - 1] != '0') && (b != [] ==> b[|b| - 1] != '0')
    ensures Compare(a + "Z", b + "Z") == Compare(p, r) <==> a == b
  {
    if a == b {
      assert p == r;
    } else {
      ZerosAreLess(p, r, |a|, |b|);
      assert (a + "Z")[0] == if a == [] then 'Z' else a[0];
      assert (b + "Z")[0] == if b == [] then 'Z' else b[0];
    }
  }

  /** Two digit strings without trailing zeros, once closed with `Z` and once padded with zeros:
      the comparisons agree exactly when neither string properly starts the other. */
  lemma {:induction false} TrimmedOrder(a: string, b: string, p: string, r: string)
    requires Digits(a) && Digits(b) && Digits(p) && Digits(r)
    requires a <= p && b <= r && |p| == |r|
    requires forall i :: |a| <= i < |p| ==> p[i] == '0'
    requires forall i :: |b| <= i < |r| ==> r[i] == '0'
    requires (a != [] ==> a[|a| - 1] != '0') && (b != [] ==> b[|b| - 1] != '0')
    ensures Compare(a + "Z", b + "Z") == Compare(p, r) <==> !Starts(a, b) && !Starts(b, a)
  {
    if a == [] || b == [] {
      OneIsWhole(a, b, p, r);
    } else if a[0] == b[0] {
      assert (a + "Z")[1..] == a[1..] + "Z" && (b + "Z")[1..] == b[1..] + "Z";
      assert a == [a[0]] + a[1..] && b == [b[0]] + b[1..];
      TrimmedOrder(a[1..], b[1..], p[1..], r[1..]);
    } else {
      assert (a + "Z")[0] == a[0] && (b + "Z")[0] == b[0] && p[0] == a[0] && r[0] == b[0];
    }
  }

  /** All zeros come before equally many digits that are not all zeros. */
  lemma {:induction false} ZerosAreLess(p: string, r: string, n: nat, m: nat)
    requires Digits(p) && Digits(r) && |p| == |r|
    requires n <= |p| && m <= |r| && (n == 0 || m == 0) && n != m
    requires forall i :: n <= i < |p| ==> p[i] == '0'
    requires forall i :: m <= i < |r| ==> r[i] == '0'
    requires (n > 0 ==> p[n - 1] != '0') && (m > 0 ==> r[m - 1] != '0')
    ensures Compare(p, r) == if n == 0 then -1 else 1
  {
    if p[0] == r[0] {
      ZerosAreLess(p[1..], r[1..], if n > 0 then n - 1 else 0, if m > 0 then m - 1 else 0);
    }
  }

  lemma {:induction false} TrimmedTail(digits: string)
    ensures forall i :: |TrimZeros(digits)| <= i < |digits| ==> digits[i] == '0'
  {
    if digits != [] && digits[|digits| - 1] == '0' {
      TrimmedTail(digits[..|digits| - 1]);
    }
  }

  /** The decimal point never changes how two trimmed fractions compare. */
  lemma PointIsNeutral(s: string, t: string)
    requires Digits(s) && Digits(t)
    ensures Compare(Closed(s), Closed(t)) == Compare(s + "Z", t + "Z")
  {
    if s != [] && t != [] {
      CompareCommonPrefix(".", s + "Z", t + "Z");
    } else if s != [] {
      assert (s + "Z")[0] == s[0] && t + "Z" == "Z";
    } else if t != [] {
      assert (t + "Z")[0] == t[0] && s + "Z" == "Z";
    }
  }

  /** Trimmed fractions `a` and `b` of the padded `p` and `r`, as the format writes them. */
  lemma ClosedOrder(a: string, b: string, p: string, r: string)
    requires Digits(a) && Digits(b) && Digits(p) && Digits(r)
    requires a <= p && b <= r && |p| == |r|
    requires forall i :: |a| <= i < |p| ==> p[i] == '0'
    requires forall i :: |b| <= i < |r| ==> r[i] == '0'
    requires (a != [] ==> a[|a| - 1] != '0') && (b != [] ==> b[|b| - 1] != '0')
    ensures Compare(Closed(a), Closed(b)) == Compare(p, r) <==> !Starts(a, b) && !Starts(b, a)
  {
    PointIsNeutral(a, b);
    TrimmedOrder(a, b, p, r);
  }

  /** Sorting by `updatedAt` is chronological for two rows exactly when they fall in different
      seconds or neither trimmed fraction properly starts the other. */
  lemma UpdatedAtIsChronological(a: Instant, b: Instant)
    requires Proper(a) && Proper(b)
    ensures Compare(FormatInstant(a), FormatInstant(b)) == Chronology(a, b)
       <==> a.second != b.second
            || (!Starts(TrimZeros(a.nanos), TrimZeros(b.nanos)) && !Starts(TrimZeros(b.nanos), TrimZeros(a.nanos)))
  {
    var x, y := Closed(TrimZeros(a.nanos)), Closed(TrimZeros(b.nanos));
    if a.second == b.second {
      CompareCommonPrefix(a.second, x, y);
      CompareCommonPrefix(a.second, a.nanos, b.nanos);
      TrimmedTail(a.nanos);
      TrimmedTail(b.nanos);
      ClosedOrder(TrimZeros(a.nanos), TrimZeros(b.nanos), a.nanos, b.nanos);
    } else {
      CompareEqualLengthHeads(a.second, b.second, x, y);
      CompareEqualLengthHeads(a.second, b.second, a.nanos, b.nanos);
    }
  }

  lemma TrimExamples()
    ensures TrimZeros("000000000") == "" && TrimZeros("500000000") == "5"
  {
    var zeros, half := "000000000", "500000000";
    assert half[0] == '5';
    assert forall i :: 1 <= i < 9 ==> half[i] == '0';
    assert forall i :: 0 <= i < 9 ==> zeros[i] == '0';
    TrimmedTail(half);
    var z, h := TrimZeros(zeros), TrimZeros(half);
    assert z == zeros[..|z|] && h == half[..|h|];
  }

  /** Half a second past the full second sorts before the full second. */
  lemma UpdatedAtMisorders(second: string)
    ensures Chronology(Instant(second, "000000000"), Instant(second, "500000000")) < 0
    ensures Compare(FormatInstant(Instant(second, "000000000")), FormatInstant(Instant(second, "500000000"))) > 0
  {
    TrimExamples();
    CompareCommonPrefix(second, "000000000", "500000000");
    CompareCommonPrefix(second, Closed(""), Closed("5"));
  }
}
