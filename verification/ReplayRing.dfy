/** The replay ring: the tail of the session log that a reconnecting client can resume from. */
module ReplayRing {
  import opened Options
  import opened StreamTypes
  import Text
  import Base64Url

  datatype RingEvent = RingEvent(id: string, event: StreamEvent, bytes: nat)

  datatype Appended = Skipped | TooLarge | Logged(id: string)
  datatype Replayed = Malformed | Unavailable | Entries(entries: seq<RingEvent>)

  // ---- Identifiers -----------------------------------------------------------------------

  const ID_PREFIX := "kpse1"

  /** How sequence numbers are written: any way that base 36 parsing undoes. */
  ghost predicate Numerals(numeral: nat -> string) {
    forall n :: Text.Parse36(numeral(n)) == Text.Number(n) && '.' !in numeral(n)
  }

  lemma Base36Numerals()
    ensures Numerals(Text.Format36)
  {
    forall n: nat ensures Text.Parse36(Text.Format36(n)) == Text.Number(n) && '.' !in Text.Format36(n) {
      Text.Parse36Format36(n);
    }
  }

  /** The opaque wire identifier of a log position. */
  function Id(epoch: string, numeral: string): string {
    ID_PREFIX + "." + epoch + "." + numeral
  }

  /** `replaySequence`: the sequence number shown on the wire. */
  function ReplaySequence(id: string): nat {
    var parts := Text.Split(id, '.');
    if |parts| != 3 then 0
    else
      match Text.ParseUint36(parts[2])
      case NotANumber => 0
      case Number(n) => n
  }

  /** The syntax check on a `Last-Event-ID`; yields the epoch it names. */
  function ParseId(id: string): Option<string> {
    var parts := Text.Split(id, '.');
    if |parts| != 3 || parts[0] != ID_PREFIX || Base64Url.LenientLength(parts[1]) != 16
       || Text.ParseUint36(parts[2]).NotANumber?
    then None
    else Some(parts[1])
  }

  /** A random epoch: sixteen bytes in base64url. */
  predicate ValidEpoch(epoch: string) {
    '.' !in epoch && Base64Url.LenientLength(epoch) == 16
  }

  lemma SplitId(epoch: string, numeral: string)
    requires '.' !in epoch && '.' !in numeral
    ensures Text.Split(Id(epoch, numeral), '.') == [ID_PREFIX, epoch, numeral]
  {
    var parts := [ID_PREFIX, epoch, numeral];
    assert parts[1..][1..] == [numeral];
    assert Text.Join(parts[1..], '.') == epoch + ['.'] + numeral;
    assert Text.Join(parts, '.') == ID_PREFIX + ['.'] + (epoch + ['.'] + numeral);
    assert Text.Join(parts, '.') == Id(epoch, numeral);
    Text.SplitJoin(parts, '.');
  }

  /** An identifier passes the syntax check, names its epoch, and its wire sequence is the log
      position it was made for. */
  lemma IdRoundTrip(epoch: string, numeral: nat -> string, n: nat)
    requires ValidEpoch(epoch) && Numerals(numeral) && n < Text.UINT64_LIMIT
    ensures ParseId(Id(epoch, numeral(n))) == Some(epoch)
    ensures ReplaySequence(Id(epoch, numeral(n))) == n
  {
    SplitId(epoch, numeral(n));
  }

  /** The syntax check accepts exactly the identifiers made of the prefix, sixteen bytes of base64url
      and a base 36 number of 64 bits, and names the second part. */
  lemma ParseIdExactly(id: string, epoch: string)
    ensures ParseId(id) == Some(epoch) <==>
      var parts := Text.Split(id, '.');
      |parts| == 3 && id == Id(epoch, parts[2]) && ValidEpoch(epoch) && '.' !in parts[2]
      && Text.ParseUint36(parts[2]).Number?
  {
    var parts := Text.Split(id, '.');
    Text.JoinSplit(id, '.');
    if |parts| == 3 {
      assert parts[1..][1..] == [parts[2]];
      assert Text.Join(parts[1..], '.') == parts[1] + ['.'] + parts[2];
      assert id == parts[0] + ['.'] + (parts[1] + ['.'] + parts[2]);
      assert Text.Free(parts[1], '.') && Text.Free(parts[2], '.');
      if ParseId(id) == Some(epoch) {
        assert id == Id(epoch, parts[2]);
      } else if id == Id(epoch, parts[2]) && ValidEpoch(epoch) {
        SplitId(epoch, parts[2]);
      }
    }
  }

  // ---- What the ring retains -------------------------------------------------------------

  /** A whole log as ring events. */
  function Recorded(name: nat -> string, size: StreamEvent -> nat, log: seq<StreamEvent>): seq<RingEvent> {
    if log == [] then []
    else
      var last := log[|log| - 1];
      Recorded(name, size, log[..|log| - 1]) + [RingEvent(name(|log|), last, size(last))]
  }

  function Bytes(list: seq<RingEvent>): nat {
    if list == [] then 0 else list[0].bytes + Bytes(list[1..])
  }

  predicate Fits(list: seq<RingEvent>) {
    |list| <= MAX_QUEUE_EVENTS && Bytes(list) <= MAX_QUEUE_BYTES
  }

  /** The longest tail within the limits. */
  function Tail(list: seq<RingEvent>): (tail: seq<RingEvent>)
    ensures |tail| <= |list|
  {
    if list == [] || Fits(list) then list else Tail(list[1..])
  }

  lemma {:induction false} RecordedAt(name: nat -> string, size: StreamEvent -> nat, log: seq<StreamEvent>, i: nat)
    requires i < |log|
    ensures |Recorded(name, size, log)| == |log|
    ensures Recorded(name, size, log)[i] == RingEvent(name(i + 1), log[i], size(log[i]))
  {
    var n := |log| - 1;
    if i < n {
      RecordedAt(name, size, log[..n], i);
    } else if n > 0 {
      RecordedAt(name, size, log[..n], 0);
    }
  }

  /** Log entries as the ring hands them out. */
  function Wired(name: nat -> string, size: StreamEvent -> nat, entries: seq<Entry>): (wired: seq<RingEvent>)
    ensures |wired| == |entries|
    ensures forall i :: 0 <= i < |entries| ==>
      wired[i] == RingEvent(name(entries[i].position), entries[i].event, size(entries[i].event))
  {
    seq(|entries|, i requires 0 <= i < |entries| =>
      RingEvent(name(entries[i].position), entries[i].event, size(entries[i].event)))
  }

  /** The recorded log is the numbered log on the wire. */
  lemma RecordedIsWired(name: nat -> string, size: StreamEvent -> nat, log: seq<StreamEvent>, p: nat)
    requires p <= |log|
    ensures |Recorded(name, size, log)| == |log|
    ensures Recorded(name, size, log)[p..] == Wired(name, size, Numbered(log)[p..])
  {
    RecordedLength(name, size, log);
    forall i | p <= i < |log| ensures Recorded(name, size, log)[i] == Wired(name, size, Numbered(log)[p..])[i - p] {
      RecordedAt(name, size, log, i);
    }
  }

  lemma {:induction false} RecordedLength(name: nat -> string, size: StreamEvent -> nat, log: seq<StreamEvent>)
    ensures |Recorded(name, size, log)| == |log|
  {
    if log != [] {
      RecordedAt(name, size, log, 0);
    }
  }

  lemma {:induction false} TailAt(list: seq<RingEvent>, i: nat)
    requires i < |Tail(list)|
    ensures Tail(list)[i] == list[|list| - |Tail(list)| + i]
  {
    if list != [] && !Fits(list) {
      TailAt(list[1..], i);
    }
  }

  /** The tail fits, and no longer tail does. */
  lemma {:induction false} TailIsLongest(list: seq<RingEvent>, k: nat)
    requires k <= |list|
    ensures |Tail(list)| <= MAX_QUEUE_EVENTS && Bytes(Tail(list)) <= MAX_QUEUE_BYTES
    ensures Tail(list) == list[|list| - |Tail(list)|..]
    ensures k < |list| - |Tail(list)| ==> |list[k..]| > MAX_QUEUE_EVENTS || Bytes(list[k..]) > MAX_QUEUE_BYTES
  {
    TailDrop(list, 0);
    if list == [] || Fits(list) {
    } else if k == 0 {
      TailIsLongest(list[1..], 0);
      assert list[0..] == list;
    } else {
      TailIsLongest(list[1..], k - 1);
      assert list[1..][k - 1..] == list[k..];
    }
  }

  lemma {:induction false} BytesGrow(list: seq<RingEvent>, e: RingEvent)
    ensures Bytes(list + [e]) == Bytes(list) + e.bytes
  {
    if list == [] {
      assert [] + [e] == [e];
    } else {
      assert (list + [e])[1..] == list[1..] + [e];
      BytesGrow(list[1..], e);
    }
  }

  /** Trimming after every append is trimming the whole history at once. */
  lemma {:induction false} TailOfAppend(list: seq<RingEvent>, e: RingEvent)
    ensures Tail(list + [e]) == Tail(Tail(list) + [e])
  {
    if list != [] && !Fits(list) {
      BytesGrow(list, e);
      assert (list + [e])[1..] == list[1..] + [e];
      TailOfAppend(list[1..], e);
    }
  }

  /** A retained event sits at a known log position, and the log after that position follows it. */
  lemma RetainedAt(name: nat -> string, size: StreamEvent -> nat, log: seq<StreamEvent>, i: nat)
    requires i < |Tail(Recorded(name, size, log))|
    ensures var retained := Tail(Recorded(name, size, log));
      && |retained| <= |log|
      && retained[i] == RingEvent(name(|log| - |retained| + i + 1), log[|log| - |retained| + i],
                                  size(log[|log| - |retained| + i]))
  {
    var all := Recorded(name, size, log);
    RecordedLength(name, size, log);
    TailAt(all, i);
    RecordedAt(name, size, log, |all| - |Tail(all)| + i);
  }

  // ---- The ring --------------------------------------------------------------------------

  class ReplayRing {
    const epoch: string
    const binding: string
    /** Length of an event's JSON encoding. */
    const encodedLength: StreamEvent -> nat
    /** Identifier of each log position, and accounted size of each event. */
    ghost const name: nat -> string
    ghost const size: StreamEvent -> nat
    const numeral: nat -> string
    var sequence: nat
    var events: seq<RingEvent>
    var bytes: int
    /** Everything ever appended. */
    ghost var log: seq<StreamEvent>

    ghost predicate Configured() {
      && ValidEpoch(epoch) && Numerals(numeral)
      && (forall n :: name(n) == Id(epoch, numeral(n)))
      && (forall e :: size(e) == encodedLength(e) + ENVELOPE_BYTES)
    }

    /** The ring holds the longest tail of the log that fits its limits. */
    ghost predicate Valid()
      reads this
    {
      && sequence == |log| < Text.UINT64_LIMIT
      && events == Tail(Recorded(name, size, log))
      && bytes == Bytes(events)
    }

    constructor (epoch: string, binding: string, encodedLength: StreamEvent -> nat, numeral: nat -> string)
      requires ValidEpoch(epoch) && Numerals(numeral)
      ensures Configured() && Valid() && log == []
      ensures this.epoch == epoch && this.binding == binding && this.encodedLength == encodedLength
      ensures this.numeral == numeral
    {
      this.epoch, this.binding, this.encodedLength, this.numeral := epoch, binding, encodedLength, numeral;
      name := (n: nat) => Id(epoch, numeral(n));
      size := e => encodedLength(e) + ENVELOPE_BYTES;
      sequence, events, bytes, log := 0, [], 0, [];
    }

    method Append(event: StreamEvent) returns (result: Appended)
      requires Configured() && Valid() && sequence + 1 < Text.UINT64_LIMIT
      modifies `sequence, `events, `bytes, `log
      ensures Valid()
      ensures result.Skipped? <==> event.kind == Heartbeat || Terminal(event.kind)
      ensures result.TooLarge? <==> !result.Skipped? && encodedLength(event) + ENVELOPE_BYTES > MAX_EVENT_BYTES
      ensures result.Logged? ==> log == old(log) + [event] && result.id == Id(epoch, numeral(|log|))
      ensures !result.Logged? ==> log == old(log)
    {
      if event.kind == Heartbeat || event.kind == Reset || event.kind == Error {
        return Skipped;
      }
      if encodedLength(event) + ENVELOPE_BYTES > MAX_EVENT_BYTES {
        return TooLarge;
      }
      sequence := sequence + 1;
      var added := RingEvent(Id(epoch, numeral(sequence)), event, encodedLength(event) + ENVELOPE_BYTES);
      log := log + [event];
      assert log[..|log| - 1] == old(log);
      assert added == RingEvent(name(|log|), event, size(event));
      TailOfAppend(Recorded(name, size, old(log)), added);
      BytesGrow(events, added);
      events, bytes := Trim(events + [added], bytes + added.bytes);
      result := Logged(added.id);
    }

    /** Where a client resumes that gets a replay: the replay is the log after that position. */
    lemma ResumedFrom(lastId: string, binding: string) returns (from: nat)
      requires Configured() && Valid() && Resume(epoch, this.binding, events, lastId, binding).Entries?
      ensures 1 <= from <= |log| && lastId == name(from)
      ensures Resume(epoch, this.binding, events, lastId, binding).entries == Wired(name, size, Numbered(log)[from..])
    {
      from := ResumeRefusesTheRest(epoch, this.binding, name, size, log, lastId, binding);
      IdsAreDistinct(epoch, numeral, name, |log|);
      IdRoundTrip(epoch, numeral, from);
      ResumeYieldsTheRest(epoch, this.binding, name, size, log, from);
      RecordedIsWired(name, size, log, from);
    }

    method ReplayEntries(lastId: string, binding: string) returns (result: Replayed)
      ensures result == Resume(epoch, this.binding, events, lastId, binding)
    {
      match ParseId(lastId) {
        case None =>
          return Malformed;
        case Some(named) =>
          if named != epoch || binding != this.binding {
            return Unavailable;
          }
      }
      var index := FindId(events, lastId);
      if index == |events| {
        return Unavailable;
      }
      return Entries(events[index + 1..]);
    }
  }

  function IndexOf(events: seq<RingEvent>, id: string): (i: nat)
    ensures i <= |events|
    ensures i < |events| ==> events[i].id == id
    ensures forall j :: 0 <= j < i ==> events[j].id != id
  {
    if events == [] || events[0].id == id then 0 else 1 + IndexOf(events[1..], id)
  }

  /** What a resume request yields. */
  function Resume(epoch: string, own: string, events: seq<RingEvent>, lastId: string, binding: string): Replayed {
    match ParseId(lastId)
    case None => Malformed
    case Some(named) =>
      if named != epoch || binding != own then Unavailable
      else if IndexOf(events, lastId) == |events| then Unavailable
      else Entries(events[IndexOf(events, lastId) + 1..])
  }

  /** The retained event at index i is the only one with its name. */
  lemma RetainedOnce(name: nat -> string, size: StreamEvent -> nat, log: seq<StreamEvent>, i: nat)
    requires Distinct(name, |log|) && i < |Tail(Recorded(name, size, log))|
    ensures var retained := Tail(Recorded(name, size, log));
      |retained| <= |log| && IndexOf(retained, name(|log| - |retained| + i + 1)) == i
  {
    var retained := Tail(Recorded(name, size, log));
    RetainedAt(name, size, log, i);
    var j := IndexOf(retained, name(|log| - |retained| + i + 1));
    if j < |retained| {
      RetainedAt(name, size, log, j);
    }
  }

  lemma RetainedDrop(name: nat -> string, size: StreamEvent -> nat, log: seq<StreamEvent>, p: nat)
    requires |log| - |Tail(Recorded(name, size, log))| <= p <= |log|
    ensures |Recorded(name, size, log)| == |log|
    ensures var retained := Tail(Recorded(name, size, log));
      retained[p - (|log| - |retained|)..] == Recorded(name, size, log)[p..]
  {
    RecordedLength(name, size, log);
    TailDrop(Recorded(name, size, log), p - (|log| - |Tail(Recorded(name, size, log))|));
  }

  /** Positions up to n have different names. */
  ghost predicate Distinct(name: nat -> string, n: nat) {
    forall p: nat, q: nat :: p < q <= n ==> name(p) != name(q)
  }

  lemma IdsAreDistinct(epoch: string, numeral: nat -> string, name: nat -> string, n: nat)
    requires ValidEpoch(epoch) && Numerals(numeral) && (forall n :: name(n) == Id(epoch, numeral(n)))
    requires n < Text.UINT64_LIMIT
    ensures Distinct(name, n)
  {
    forall p: nat, q: nat | p < q <= n ensures name(p) != name(q) {
      IdRoundTrip(epoch, numeral, p);
      IdRoundTrip(epoch, numeral, q);
    }
  }

  lemma ResumeFound(epoch: string, own: string, events: seq<RingEvent>, lastId: string, i: nat)
    requires ParseId(lastId) == Some(epoch) && i < |events| && IndexOf(events, lastId) == i
    ensures Resume(epoch, own, events, lastId, own) == Entries(events[i + 1..])
  {
  }

  /** Resuming under the ring's binding from the identifier of a retained position yields the
      whole log after that position, in order. */
  lemma ResumeYieldsTheRest(epoch: string, own: string, name: nat -> string, size: StreamEvent -> nat,
                            log: seq<StreamEvent>, p: nat)
    requires Distinct(name, |log|) && ParseId(name(p)) == Some(epoch)
    requires |log| - |Tail(Recorded(name, size, log))| < p <= |log|
    ensures |Recorded(name, size, log)| == |log|
    ensures Resume(epoch, own, Tail(Recorded(name, size, log)), name(p), own) == Entries(Recorded(name, size, log)[p..])
  {
    var retained := Tail(Recorded(name, size, log));
    var i := p - 1 - (|log| - |retained|);
    RetainedOnce(name, size, log, i);
    ResumeFound(epoch, own, retained, name(p), i);
    RetainedDrop(name, size, log, p);
  }

  /** Nothing else can be resumed from: not another binding, another ring's identifier, or one
      whose entry has been trimmed. */
  lemma ResumeRefusesTheRest(epoch: string, own: string, name: nat -> string, size: StreamEvent -> nat,
                             log: seq<StreamEvent>, lastId: string, binding: string) returns (p: nat)
    requires Resume(epoch, own, Tail(Recorded(name, size, log)), lastId, binding).Entries?
    ensures binding == own && ParseId(lastId) == Some(epoch)
    ensures |log| - |Tail(Recorded(name, size, log))| < p <= |log| && lastId == name(p)
  {
    var retained := Tail(Recorded(name, size, log));
    var index := IndexOf(retained, lastId);
    RetainedAt(name, size, log, index);
    p := |log| - |retained| + index + 1;
  }

  lemma {:induction false} TailDrop(list: seq<RingEvent>, i: nat)
    requires i <= |Tail(list)|
    ensures Tail(list)[i..] == list[|list| - |Tail(list)| + i..]
  {
    if list != [] && !Fits(list) {
      TailDrop(list[1..], i);
      var k := |list| - |Tail(list)| + i;
      assert list[1..][k - 1..] == list[k..];
    }
  }

  /** The loop that drops events from the front until the limits hold. */
  method Trim(list: seq<RingEvent>, bytes: int) returns (kept: seq<RingEvent>, size: int)
    requires bytes == Bytes(list)
    ensures kept == Tail(list) && size == Bytes(kept)
  {
    kept, size := list, bytes;
    while |kept| > MAX_QUEUE_EVENTS || size > MAX_QUEUE_BYTES
      invariant Tail(kept) == Tail(list) && size == Bytes(kept)
      decreases |kept|
    {
      size := size - kept[0].bytes;
      kept := kept[1..];
    }
  }

  method FindId(events: seq<RingEvent>, id: string) returns (index: nat)
    ensures index == IndexOf(events, id)
  {
    index := 0;
    while index < |events| && events[index].id != id
      invariant index <= |events| && IndexOf(events, id) == index + IndexOf(events[index..], id)
    {
      assert events[index..][0] == events[index] && events[index..][1..] == events[index + 1..];
      index := index + 1;
    }
  }

  /** The ring of a session: sequence numbers are written in base 36. */
  method NewReplayRing(epoch: string, binding: string, encodedLength: StreamEvent -> nat) returns (ring: ReplayRing)
    requires ValidEpoch(epoch)
    ensures fresh(ring) && ring.Configured() && ring.Valid() && ring.log == []
    ensures ring.epoch == epoch && ring.binding == binding && ring.encodedLength == encodedLength
    ensures ring.numeral == Text.Format36
  {
    Base36Numerals();
    ring := new ReplayRing(epoch, binding, encodedLength, Text.Format36);
  }
}
