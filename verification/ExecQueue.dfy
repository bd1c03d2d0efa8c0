/** The outbound queue of an exec stream: concurrent producers, one terminal message that claims its
    place before it gets one, and a single writer. */
module ExecQueue {

  const MAX_MESSAGES: nat := 64
  const MAX_BYTES: nat := 1048576

  datatype Message = Message(text: bool, payload: string)

  /** How far the terminal message has come: its flag is set, it is on the channel, its bytes are
      counted; or it found no room in time. */
  datatype Terminal =
    | Unset
    | Claimed(message: Message)
    | Placed(message: Message)
    | Counted(message: Message)
    | TimedOut

  /** The channel, the byte counter and the writer; then history: every message placed, in order,
      how many of them the writer has taken and how many it has released, and whether the terminal
      was released before its bytes were counted. */
  datatype Queue = Queue(messages: seq<Message>, bytes: nat, terminal: Terminal, holding: bool, stopped: bool,
                         placed: seq<Message>, taken: nat, released: nat, overtaken: bool)

  const EMPTY := Queue([], 0, Unset, false, false, [], 0, 0, false)

  datatype Action =
    | Enqueue(message: Message)
    | ClaimTerminal(message: Message)
    | PlaceTerminal
    | CountTerminal
    | ExpireTerminal
    | Take
    | Release
    | StopWriter

  predicate Admits(q: Queue, message: Message) {
    q.terminal.Unset? && q.bytes + |message.payload| <= MAX_BYTES && |q.messages| < MAX_MESSAGES
  }

  predicate Enabled(q: Queue, a: Action) {
    match a
    case Enqueue(_) => true
    case ClaimTerminal(_) => true
    case PlaceTerminal => q.terminal.Claimed? && |q.messages| < MAX_MESSAGES
    case CountTerminal => q.terminal.Placed?
    case ExpireTerminal => q.terminal.Claimed?
    case Take => !q.holding && !q.stopped && q.messages != []
    case Release => q.holding && q.released < |q.placed|
    case StopWriter => !q.holding
  }

  function Put(q: Queue, message: Message): Queue {
    q.(messages := q.messages + [message], placed := q.placed + [message])
  }

  function Less(bytes: nat, size: nat): nat {
    if bytes < size then 0 else bytes - size
  }

  function Apply(q: Queue, a: Action): Queue
    requires Enabled(q, a)
  {
    match a
    case Enqueue(message) =>
      if Admits(q, message) then Put(q, message).(bytes := q.bytes + |message.payload|) else q
    case ClaimTerminal(message) => if q.terminal.Unset? then q.(terminal := Claimed(message)) else q
    case PlaceTerminal => Put(q, q.terminal.message).(terminal := Placed(q.terminal.message))
    case CountTerminal => q.(bytes := q.bytes + |q.terminal.message.payload|, terminal := Counted(q.terminal.message))
    case ExpireTerminal => q.(terminal := TimedOut)
    case Take => q.(messages := q.messages[1..], holding := true, taken := q.taken + 1)
    case Release =>
      q.(bytes := Less(q.bytes, |q.placed[q.released].payload|), holding := false, released := q.released + 1,
         overtaken := q.overtaken || (q.terminal.Placed? && q.released == |q.placed| - 1))
    case StopWriter => q.(stopped := true)
  }

  function Run(actions: seq<Action>): Queue {
    if actions == [] then EMPTY
    else
      var q := Run(actions[..|actions| - 1]);
      if Enabled(q, actions[|actions| - 1]) then Apply(q, actions[|actions| - 1]) else q
  }

  // ---- The invariant ---------------------------------------------------------------------

  function Size(messages: seq<Message>): nat {
    if messages == [] then 0 else Size(messages[..|messages| - 1]) + |messages[|messages| - 1].payload|
  }

  lemma SizeAppend(messages: seq<Message>, message: Message)
    ensures Size(messages + [message]) == Size(messages) + |message.payload|
  {
    assert (messages + [message])[..|messages|] == messages;
  }

  lemma {:induction false} SizeSplit(messages: seq<Message>, n: nat)
    requires n <= |messages|
    ensures Size(messages) == Size(messages[..n]) + Size(messages[n..])
  {
    if n == |messages| {
      assert messages[..n] == messages;
    } else {
      var m := |messages| - 1;
      SizeSplit(messages[..m], n);
      assert messages[..m][..n] == messages[..n] && messages[n..][..m - n] == messages[..m][n..];
    }
  }

  /** The channel holds what was placed and not yet taken, in order. */
  ghost predicate InOrder(q: Queue) {
    && q.taken <= |q.placed| && q.messages == q.placed[q.taken..] && |q.messages| <= MAX_MESSAGES
    && q.taken == q.released + if q.holding then 1 else 0
  }

  /** A placed terminal is the last message. */
  ghost predicate TerminalLast(q: Queue) {
    q.terminal.Placed? || q.terminal.Counted? ==> q.placed != [] && q.placed[|q.placed| - 1] == q.terminal.message
  }

  /** The messages whose bytes have been counted. */
  function Counting(q: Queue): seq<Message> {
    if q.terminal.Placed? && q.placed != [] then q.placed[..|q.placed| - 1] else q.placed
  }

  ghost predicate Exact(counted: seq<Message>, released: nat, bytes: nat) {
    released <= |counted| && bytes + Size(counted[..released]) == Size(counted)
  }

  /** Counted bytes minus released bytes; too many by the terminal's own if it was overtaken. */
  ghost predicate Balanced(q: Queue) {
    && (q.overtaken ==> (q.terminal.Placed? || q.terminal.Counted?) && q.released == |q.placed|)
    && (q.terminal.Placed? && q.released == |q.placed| ==> q.overtaken)
    && q.released <= |q.placed|
    && (q.overtaken && q.terminal.Placed? ==> q.bytes == 0)
    && (q.overtaken && q.terminal.Counted? ==> q.bytes == |q.terminal.message.payload|)
    && (!q.overtaken ==> Exact(Counting(q), q.released, q.bytes))
    && (!q.terminal.Counted? ==> q.bytes <= MAX_BYTES)
  }

  ghost predicate Ok(q: Queue) {
    InOrder(q) && TerminalLast(q) && Balanced(q)
  }

  lemma PutOk(q: Queue, message: Message)
    requires InOrder(q) && |q.messages| < MAX_MESSAGES
    ensures InOrder(Put(q, message))
  {
  }

  lemma ExactAppend(counted: seq<Message>, released: nat, bytes: nat, message: Message)
    requires Exact(counted, released, bytes)
    ensures Exact(counted + [message], released, bytes + |message.payload|)
  {
    SizeAppend(counted, message);
    assert (counted + [message])[..released] == counted[..released];
  }

  lemma EnqueueOk(q: Queue, message: Message)
    requires Ok(q)
    ensures Ok(Apply(q, Enqueue(message)))
  {
    if Admits(q, message) {
      PutOk(q, message);
      ExactAppend(q.placed, q.released, q.bytes, message);
    }
  }

  lemma PlaceOk(q: Queue)
    requires Ok(q) && Enabled(q, PlaceTerminal)
    ensures Ok(Apply(q, PlaceTerminal))
  {
    PutOk(q, q.terminal.message);
    assert (q.placed + [q.terminal.message])[..|q.placed|] == q.placed;
  }

  lemma CountLast(placed: seq<Message>, released: nat, bytes: nat)
    requires placed != [] && Exact(placed[..|placed| - 1], released, bytes)
    ensures Exact(placed, released, bytes + |placed[|placed| - 1].payload|)
  {
    ExactAppend(placed[..|placed| - 1], released, bytes, placed[|placed| - 1]);
    assert placed[..|placed| - 1] + [placed[|placed| - 1]] == placed;
  }

  lemma CountOk(q: Queue)
    requires Ok(q) && Enabled(q, CountTerminal)
    ensures Ok(Apply(q, CountTerminal))
  {
    if !q.overtaken {
      CountLast(q.placed, q.released, q.bytes);
    }
  }

  lemma TakeOk(q: Queue)
    requires Ok(q) && Enabled(q, Take)
    ensures Ok(Apply(q, Take))
  {
    assert q.placed[q.taken..][1..] == q.placed[q.taken + 1..];
  }

  /** The counter covers a counted message that is being released. */
  lemma ReleaseCounted(c: seq<Message>, released: nat, bytes: nat)
    requires Exact(c, released, bytes) && released < |c|
    ensures |c[released].payload| <= bytes && Exact(c, released + 1, bytes - |c[released].payload|)
  {
    assert c[..released + 1][..released] == c[..released];
    SizeSplit(c, released + 1);
  }

  lemma ReleaseOk(q: Queue)
    requires Ok(q) && Enabled(q, Release)
    ensures Ok(Apply(q, Release))
  {
    var c := Counting(q);
    if q.released < |c| {
      assert c[q.released] == q.placed[q.released];
      ReleaseCounted(c, q.released, q.bytes);
    } else {
      AllReleased(c, q.bytes);
    }
  }

  lemma AllReleased(c: seq<Message>, bytes: nat)
    requires Exact(c, |c|, bytes)
    ensures bytes == 0
  {
    assert c[..|c|] == c;
  }

  lemma ApplyOk(q: Queue, a: Action)
    requires Ok(q) && Enabled(q, a)
    ensures Ok(Apply(q, a))
  {
    match a
    case Enqueue(message) => EnqueueOk(q, message);
    case PlaceTerminal => PlaceOk(q);
    case CountTerminal => CountOk(q);
    case Take => TakeOk(q);
    case Release => ReleaseOk(q);
    case _ =>
  }

  lemma {:induction false} RunOk(actions: seq<Action>)
    ensures Ok(Run(actions))
  {
    if actions != [] {
      RunOk(actions[..|actions| - 1]);
      if Enabled(Run(actions[..|actions| - 1]), actions[|actions| - 1]) {
        ApplyOk(Run(actions[..|actions| - 1]), actions[|actions| - 1]);
      }
    }
  }

  // ---- The promises ----------------------------------------------------------------------

  lemma OrderKept(q: Queue)
    requires InOrder(q)
    ensures q.placed == q.placed[..q.taken] + q.messages
  {
  }

  /** Messages leave in the order in which they were placed. */
  lemma FirstInFirstOut(actions: seq<Action>)
    ensures var q := Run(actions); q.taken <= |q.placed| && q.placed == q.placed[..q.taken] + q.messages
  {
    RunOk(actions);
    OrderKept(Run(actions));
  }

  /** Once the terminal message is placed, no other ever is: it is the last on the channel. */
  lemma {:induction false} TerminalStaysLast(actions: seq<Action>, more: seq<Action>)
    requires Run(actions).terminal.Placed? || Run(actions).terminal.Counted?
    ensures var q, q' := Run(actions), Run(actions + more);
      && q'.placed == q.placed && q'.placed != [] && (q'.terminal.Placed? || q'.terminal.Counted?)
      && q'.terminal.message == q.terminal.message == q.placed[|q.placed| - 1]
  {
    if more == [] {
      assert actions + more == actions;
      RunOk(actions);
    } else {
      var n := |more| - 1;
      TerminalStaysLast(actions, more[..n]);
      assert (actions + more)[..|actions + more| - 1] == actions + more[..n];
    }
  }

  /** Until the terminal's flag is set, the counter is exactly what was accepted and not yet
      released, and within the limit. */
  lemma CounterIsExact(actions: seq<Action>)
    requires Run(actions).terminal.Unset?
    ensures var q := Run(actions);
      && q.released <= |q.placed| && q.bytes == Size(q.placed) - Size(q.placed[..q.released]) && q.bytes <= MAX_BYTES
  {
    RunOk(actions);
  }

  /** When everything has been released, the counter is back at zero, unless the writer released
      the terminal before its bytes were counted: then it keeps them, and is right exactly if
      there are none. */
  lemma CounterAfterTerminal(actions: seq<Action>)
    requires var q := Run(actions); q.terminal.Counted? && q.released == |q.placed|
    ensures var q := Run(actions);
      && q.bytes == (if q.overtaken then |q.terminal.message.payload| else 0)
      && (q.bytes == 0 <==> !q.overtaken || q.terminal.message.payload == "")
  {
    RunOk(actions);
    var q := Run(actions);
    assert q.placed[..|q.placed|] == q.placed;
  }

  lemma RunStep(actions: seq<Action>, a: Action)
    requires Enabled(Run(actions), a)
    ensures Run(actions + [a]) == Apply(Run(actions), a)
  {
    assert (actions + [a])[..|actions|] == actions;
  }

  /** A message is placed exactly when no terminal has been claimed and there is room for it, one
      more message and all its bytes. */
  lemma EnqueueExactly(actions: seq<Action>, message: Message)
    ensures var q, q' := Run(actions), Run(actions + [Enqueue(message)]);
      if q.terminal.Unset? && q.bytes + |message.payload| <= 1048576 && |q.messages| < 64
      then q'.placed == q.placed + [message] && q'.messages == q.messages + [message]
           && q'.bytes == q.bytes + |message.payload|
      else q' == q
  {
    RunStep(actions, Enqueue(message));
  }

  /** After the first claim nothing is placed but the message that was claimed, at most once, and
      nothing at all once it has timed out. */
  lemma {:induction false} NothingAfterClaim(actions: seq<Action>, more: seq<Action>)
    requires !Run(actions).terminal.Unset?
    ensures var q, q' := Run(actions), Run(actions + more);
      match q.terminal
      case Claimed(message) =>
        if q'.terminal.Placed? || q'.terminal.Counted?
        then q'.terminal.message == message && q'.placed == q.placed + [message]
        else q'.placed == q.placed && (q'.terminal == q.terminal || q'.terminal.TimedOut?)
      case TimedOut => q'.placed == q.placed && q'.terminal.TimedOut?
      case _ => q'.placed == q.placed && (q'.terminal.Placed? || q'.terminal.Counted?)
  {
    if more == [] {
      assert actions + more == actions;
    } else {
      var n := |more| - 1;
      NothingAfterClaim(actions, more[..n]);
      assert (actions + more)[..|actions + more| - 1] == actions + more[..n];
    }
  }

  function Unwritten(q: Queue): nat {
    2 * |q.messages| + if q.holding then 1 else 0
  }

  lemma WriterGoesOn(actions: seq<Action>) returns (a: Action)
    requires !Run(actions).stopped && Unwritten(Run(actions)) > 0
    ensures var q, q' := Run(actions), Run(actions + [a]);
      q'.placed == q.placed && q'.terminal == q.terminal && !q'.stopped && Unwritten(q') < Unwritten(q)
  {
    RunOk(actions);
    a := if Run(actions).holding then Release else Take;
    RunStep(actions, a);
  }

  lemma AllWritten(actions: seq<Action>)
    requires Unwritten(Run(actions)) == 0
    ensures Run(actions).released == |Run(actions).placed|
  {
    RunOk(actions);
  }

  /** As long as it is not stopped, the writer can write all that has been placed. */
  lemma {:induction false} WriterDrains(actions: seq<Action>) returns (more: seq<Action>)
    requires !Run(actions).stopped
    ensures Run(actions + more).placed == Run(actions).placed && Run(actions + more).terminal == Run(actions).terminal
    ensures Run(actions + more).released == |Run(actions).placed|
    decreases Unwritten(Run(actions))
  {
    if Unwritten(Run(actions)) == 0 {
      more := [];
      assert actions + more == actions;
      AllWritten(actions);
    } else {
      var a := WriterGoesOn(actions);
      var rest := WriterDrains(actions + [a]);
      more := [a] + rest;
      assert actions + more == actions + [a] + rest;
    }
  }

  const BYE := Message(true, "bye")

  /** The writer wins the race: the counter stays above zero for good. */
  lemma CounterDrifts()
    ensures var q := Run([] + [ClaimTerminal(BYE)] + [PlaceTerminal] + [Take] + [Release] + [CountTerminal]);
      q.released == |q.placed| == 1 && q.messages == [] && q.bytes == 3
  {
    RunStep([], ClaimTerminal(BYE));
    RunStep([] + [ClaimTerminal(BYE)], PlaceTerminal);
    RunStep([] + [ClaimTerminal(BYE)] + [PlaceTerminal], Take);
    RunStep([] + [ClaimTerminal(BYE)] + [PlaceTerminal] + [Take], Release);
    RunStep([] + [ClaimTerminal(BYE)] + [PlaceTerminal] + [Take] + [Release], CountTerminal);
  }

  // ---- The object ------------------------------------------------------------------------

  class OutboundQueue {
    var messages: seq<Message>
    var bytes: nat
    var terminal: Terminal
    ghost var holding: bool
    ghost var stopped: bool
    ghost var placed: seq<Message>
    ghost var taken: nat
    ghost var released: nat
    ghost var overtaken: bool

    ghost function View(): Queue
      reads this
    {
      Queue(messages, bytes, terminal, holding, stopped, placed, taken, released, overtaken)
    }

    constructor ()
      ensures View() == EMPTY
    {
      messages, bytes, terminal := [], 0, Unset;
      holding, stopped, placed, taken, released, overtaken := false, false, [], 0, 0, false;
    }

    method TryEnqueue(message: Message) returns (accepted: bool)
      modifies this
      ensures View() == Apply(old(View()), Enqueue(message))
      ensures accepted <==>
        && old(terminal).Unset? && old(bytes) + |message.payload| <= MAX_BYTES && |old(messages)| < MAX_MESSAGES
      ensures messages == (if accepted then old(messages) + [message] else old(messages)) && terminal == old(terminal)
      ensures bytes == if accepted then old(bytes) + |message.payload| else old(bytes)
    {
      if !terminal.Unset? || bytes + |message.payload| > MAX_BYTES || |messages| >= MAX_MESSAGES {
        return false;
      }
      messages := messages + [message];
      placed := placed + [message];
      bytes := bytes + |message.payload|;
      return true;
    }

    /** The three parts of `terminal`; the last two are taken only after a granted claim. */
    method Claim(message: Message) returns (granted: bool)
      modifies this
      ensures View() == Apply(old(View()), ClaimTerminal(message))
      ensures granted == old(terminal).Unset? && messages == old(messages) && bytes == old(bytes)
      ensures terminal == if granted then Claimed(message) else old(terminal)
    {
      granted := terminal.Unset?;
      if granted {
        terminal := Claimed(message);
      }
    }

    method Place()
      requires Enabled(View(), PlaceTerminal)
      modifies this
      ensures View() == Apply(old(View()), PlaceTerminal)
      ensures messages == old(messages) + [old(terminal).message] && bytes == old(bytes)
      ensures terminal == Placed(old(terminal).message)
    {
      messages := messages + [terminal.message];
      placed := placed + [terminal.message];
      terminal := Placed(terminal.message);
    }

    method Count()
      requires Enabled(View(), CountTerminal)
      modifies this
      ensures View() == Apply(old(View()), CountTerminal)
      ensures messages == old(messages) && bytes == old(bytes) + |old(terminal).message.payload|
      ensures terminal == Counted(old(terminal).message)
    {
      bytes := bytes + |terminal.message.payload|;
      terminal := Counted(terminal.message);
    }

    /** The writer takes the next message. */
    method TakeNext() returns (message: Message)
      requires Enabled(View(), Take) && InOrder(View())
      modifies this
      ensures View() == Apply(old(View()), Take) && message == placed[released]
      ensures old(messages) == [message] + messages && bytes == old(bytes) && terminal == old(terminal)
    {
      message := messages[0];
      messages := messages[1..];
      holding, taken := true, taken + 1;
    }

    /** The writer gives the bytes of the message it has written back. */
    method GiveBack(size: nat)
      requires Enabled(View(), Release) && size == |placed[released].payload|
      modifies this
      ensures View() == Apply(old(View()), Release)
      ensures messages == old(messages) && terminal == old(terminal)
      ensures bytes == if old(bytes) < size then 0 else old(bytes) - size
    {
      bytes := if bytes < size then 0 else bytes - size;
      overtaken := overtaken || (terminal.Placed? && released == |placed| - 1);
      holding, released := false, released + 1;
    }
  }
}
