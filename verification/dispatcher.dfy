/**
 * `DataQueueThread`: the loop that empties the outgoing data queue. Each
 * iteration takes the least command from the queue and hands it to the
 * send callback (`ServerConnection.send`); every twentieth iteration it
 * also reports the queue size on channel 990, and when the queue runs dry
 * it says so once. Any exception ends the loop.
 */
module Dispatcher {
  import opened Wrappers
  import opened PyText
  import opened Commands
  import opened PriorityQueue
  import opened Connection

  /** The channel of the visualisation's status line. */
  const StatusChannel: int := 990

  /** How many iterations apart the queue size is reported. */
  const StatusPeriod: nat := 20

  /** The loop's local state: the iteration counter, the "empty" flag and the shared queue. */
  datatype Dispatch = Dispatch(iLoop: nat, emptyNotSent: bool, queue: Queue<Command>)

  /**
   * One iteration: the command taken from the queue (if any), the commands
   * handed to the callback in order, and the next state, absent when the
   * loop ended on an exception.
   */
  datatype StepOut = StepOut(taken: Option<Command>, handed: seq<Command>, next: Option<Dispatch>)

  function StatusText(n: nat): string {
    "Data in queue: " + NatText(n)
  }

  const EmptyText: string := "Data Queue: empty"

  function EmptyNotice(): Command {
    Cmd(StatusChannel, TextVal(EmptyText))
  }

  /** Whether the callback raised for `c`. */
  predicate Fails(fc: FloatCodec, link: Link, c: Command) {
    Send(fc, link, c).Err?
  }

  /** One pass of `_dataqueue_processing_loop`'s body. */
  function Step(fc: FloatCodec, link: Link, st: Dispatch): (r: StepOut)
    ensures r.taken.Some? <==> Size(st.queue) > 0
    ensures r.taken.None? ==> r.handed == (if st.emptyNotSent then [EmptyNotice()] else [])
    ensures r.next.Some? ==> r.next.value.iLoop == st.iLoop + 1
    ensures r.next.Some? ==> r.next.value.emptyNotSent == (Size(st.queue) > 0)
    ensures r.taken.None? && r.next.Some? ==> r.next.value.queue == st.queue
    ensures link == Broken ==> (r.next.None? <==> Size(st.queue) > 0 || st.emptyNotSent)
  {
    if Size(st.queue) > 0 then Hand(fc, link, st.iLoop + 1, Get(st.queue).value)
    else Idle(fc, link, st.iLoop + 1, st)
  }

  /** Iteration `i` on an empty queue: the "empty" notice once, then nothing. */
  function Idle(fc: FloatCodec, link: Link, i: nat, st: Dispatch): StepOut {
    if st.emptyNotSent then
      var notice := EmptyNotice();
      if Fails(fc, link, notice) then StepOut(None, [notice], None)
      else StepOut(None, [notice], Some(Dispatch(i, false, st.queue)))
    else
      StepOut(None, [], Some(Dispatch(i, false, st.queue)))
  }

  /** The "empty" notice is built with `Command(990, "S", ...)`, which always succeeds. */
  lemma EmptyNoticeMade(fc: FloatCodec)
    ensures Make(fc, StatusChannel, 'S', PyStr(EmptyText)) == Ok(EmptyNotice())
  {
    MakeText(fc, StatusChannel, EmptyText);
  }

  /** Iteration `i` with the command `t` taken: hand it over, then the size report on every twentieth iteration. */
  function Hand(fc: FloatCodec, link: Link, i: nat, t: Taken<Command>): (r: StepOut)
    ensures r.taken == Some(t.item) && 1 <= |r.handed| <= 2 && r.handed[0] == t.item
    ensures r.next.Some? ==> r.next.value == Dispatch(i, true, t.rest)
    ensures link == Broken ==> r.next.None?
  {
    if Fails(fc, link, t.item) then StepOut(Some(t.item), [t.item], None)
    else if i % StatusPeriod == 0 then
      match Status(Size(t.rest))
      case Err(_) => StepOut(Some(t.item), [t.item], None)
      case Ok(status) =>
        if Fails(fc, link, status) then StepOut(Some(t.item), [t.item, status], None)
        else StepOut(Some(t.item), [t.item, status], Some(Dispatch(i, true, t.rest)))
    else
      StepOut(Some(t.item), [t.item], Some(Dispatch(i, true, t.rest)))
  }

  /**
   * `Command(990, "S", f"Data in queue: {size}")`: the text never holds a
   * separator, so only the frame length can make it fail.
   */
  function Status(n: nat): Result<Command> {
    if |StatusText(n)| <= 249 then Ok(Cmd(StatusChannel, TextVal(StatusText(n)))) else Err(ValueError)
  }

  /** `Status` is exactly what the construction does, whatever the size. */
  lemma StatusIsConstruction(fc: FloatCodec, n: nat)
    ensures Make(fc, StatusChannel, 'S', PyStr(StatusText(n))) == Status(n)
  {
    var t := StatusText(n);
    StatusTextClean(n);
    StatusChannelText();
    assert |ToString(fc, Cmd(StatusChannel, TextVal(t)))| == |t| + 6;
  }

  lemma StatusTextClean(n: nat)
    ensures '#' !in StatusText(n) && ';' !in StatusText(n)
  {
    var t := StatusText(n);
    NatTextNoSeparators(n);
    assert forall i :: 0 <= i < |t| ==> t[i] in "Data in queue: " || t[i] in NatText(n);
  }

  lemma StatusChannelText()
    ensures IntText(StatusChannel) == "990"
  {
    assert NatText(990) == NatText(99) + "0";
    assert NatText(99) == NatText(9) + "9";
  }

  /** `sys.maxsize` on a 64-bit build: no queue holds more entries. */
  const MaxSize: nat := 0x7FFF_FFFF_FFFF_FFFF

  /** The size report always makes a command for any size a queue can have. */
  lemma StatusCommand(fc: FloatCodec, n: nat)
    requires n <= MaxSize
    ensures Make(fc, StatusChannel, 'S', PyStr(StatusText(n))) == Ok(Cmd(StatusChannel, TextVal(StatusText(n))))
    ensures Status(n) == Ok(Cmd(StatusChannel, TextVal(StatusText(n))))
  {
    MaxSizeDigits();
    NatTextBound(n, 19);
    StatusIsConstruction(fc, n);
  }

  lemma MaxSizeDigits()
    ensures MaxSize <= Pow10(19)
  {
    assert Pow10(1) == 10 && Pow10(2) == 100 && Pow10(3) == 1000;
    Pow10Add(3, 3);
    Pow10Add(6, 6);
    Pow10Add(12, 6);
    Pow10Add(18, 1);
  }

  lemma {:induction false} Pow10Add(a: nat, b: nat)
    ensures Pow10(a + b) == Pow10(a) * Pow10(b)
    decreases a
  {
    if a > 0 {
      Pow10Add(a - 1, b);
    }
  }

  /**
   * With a working link, a non-empty queue hands over its least command,
   * followed by the size of what is left exactly on every twentieth
   * iteration, and the loop goes on.
   */
  lemma StepSendsLeast(fc: FloatCodec, link: Link, st: Dispatch)
    requires link != Broken && Size(st.queue) > 0
    requires Size(st.queue) <= MaxSize
    ensures var t := Get(st.queue).value;
            var r := Step(fc, link, st);
            && r.next == Some(Dispatch(st.iLoop + 1, true, t.rest))
            && r.handed == if (st.iLoop + 1) % StatusPeriod == 0
                           then [t.item, Cmd(StatusChannel, TextVal(StatusText(Size(t.rest))))]
                           else [t.item]
  {
    StepHands(fc, link, st);
    HandWorking(fc, link, st.iLoop + 1, Get(st.queue).value);
  }

  lemma StepHands(fc: FloatCodec, link: Link, st: Dispatch)
    requires Size(st.queue) > 0
    ensures Step(fc, link, st) == Hand(fc, link, st.iLoop + 1, Get(st.queue).value)
  {
  }

  lemma HandWorking(fc: FloatCodec, link: Link, i: nat, t: Taken<Command>)
    requires link != Broken && Size(t.rest) <= MaxSize
    ensures var r := Hand(fc, link, i, t);
            && r.next == Some(Dispatch(i, true, t.rest))
            && r.handed == if i % StatusPeriod == 0
                           then [t.item, Cmd(StatusChannel, TextVal(StatusText(Size(t.rest))))]
                           else [t.item]
  {
    if i % StatusPeriod == 0 {
      StatusCommand(fc, Size(t.rest));
    }
  }

  /** The link state only decides what reaches the socket: disconnected, the loop drains the queue as if connected. */
  lemma DisconnectedDrainsAlike(fc: FloatCodec, st: Dispatch)
    ensures Step(fc, Disconnected, st) == Step(fc, Connected, st)
    ensures forall c :: Send(fc, Disconnected, c) == Ok(None)
  {
  }

  /** Several iterations, stopping early when the loop ends. */
  datatype RunOut = RunOut(taken: seq<Command>, handed: seq<Command>, last: Option<Dispatch>)

  function Run(fc: FloatCodec, link: Link, st: Dispatch, n: nat): (r: RunOut)
    ensures |r.taken| <= n
    ensures n == 0 ==> r == RunOut([], [], Some(st))
    decreases n
  {
    if n == 0 then RunOut([], [], Some(st))
    else
      var o := Step(fc, link, st);
      var t := if o.taken.Some? then [o.taken.value] else [];
      match o.next
      case None => RunOut(t, o.handed, None)
      case Some(st') =>
        var rest := Run(fc, link, st', n - 1);
        RunOut(t + rest.taken, o.handed + rest.handed, rest.last)
  }

  /**
   * Without producers and with a working link, as many iterations as the
   * queue holds commands take them in the queue's drain order and leave
   * the queue empty.
   */
  lemma {:induction false} RunTakesDrainOrder(fc: FloatCodec, link: Link, st: Dispatch)
    requires link != Broken
    requires Size(st.queue) <= MaxSize
    ensures var r := Run(fc, link, st, Size(st.queue));
            && r.taken == Items(Drain(st.queue))
            && r.last.Some? && Size(r.last.value.queue) == 0
            && r.last.value.iLoop == st.iLoop + Size(st.queue)
            && r.last.value.queue.counter == st.queue.counter
            && (Size(st.queue) > 0 ==> r.last.value.emptyNotSent)
  {
    RunTakes(fc, link, st);
    RunEmpties(fc, link, st);
  }

  lemma {:induction false} RunTakes(fc: FloatCodec, link: Link, st: Dispatch)
    requires link != Broken
    requires Size(st.queue) <= MaxSize
    ensures Run(fc, link, st, Size(st.queue)).taken == Items(Drain(st.queue))
    decreases Size(st.queue)
  {
    var n := Size(st.queue);
    if n > 0 {
      var t := Get(st.queue).value;
      var st' := StepGoesOn(fc, link, st);
      RunUnfold(fc, link, st, n, [t.item], st');
      RunTakes(fc, link, st');
      GetDrains(st.queue);
    }
  }

  lemma {:induction false} RunEmpties(fc: FloatCodec, link: Link, st: Dispatch)
    requires link != Broken
    requires Size(st.queue) <= MaxSize
    ensures var r := Run(fc, link, st, Size(st.queue));
            && r.last.Some? && Size(r.last.value.queue) == 0
            && r.last.value.iLoop == st.iLoop + Size(st.queue)
            && r.last.value.queue.counter == st.queue.counter
            && (Size(st.queue) > 0 ==> r.last.value.emptyNotSent)
    decreases Size(st.queue)
  {
    var n := Size(st.queue);
    if n > 0 {
      var t := Get(st.queue).value;
      var st' := StepGoesOn(fc, link, st);
      RunUnfold(fc, link, st, n, [t.item], st');
      RunEmpties(fc, link, st');
    }
  }

  /** With a working link a step on a non-empty queue takes the least command and goes on with what `get` leaves. */
  lemma StepGoesOn(fc: FloatCodec, link: Link, st: Dispatch) returns (st': Dispatch)
    requires link != Broken && Size(st.queue) > 0 && Size(st.queue) <= MaxSize
    ensures st' == Dispatch(st.iLoop + 1, true, Get(st.queue).value.rest)
    ensures Step(fc, link, st).next == Some(st') && Step(fc, link, st).taken == Some(Get(st.queue).value.item)
    ensures Size(st'.queue) == Size(st.queue) - 1 && st'.queue.counter == st.queue.counter
  {
    StepSendsLeast(fc, link, st);
    StepTakesLeast(fc, link, st);
    st' := Dispatch(st.iLoop + 1, true, Get(st.queue).value.rest);
  }

  /** A run whose first iteration goes on is that iteration followed by a run one shorter. */
  lemma RunUnfold(fc: FloatCodec, link: Link, st: Dispatch, n: nat, taken: seq<Command>, st': Dispatch)
    requires n > 0 && Step(fc, link, st).next == Some(st')
    requires taken == if Step(fc, link, st).taken.Some? then [Step(fc, link, st).taken.value] else []
    ensures Run(fc, link, st, n).taken == taken + Run(fc, link, st', n - 1).taken
    ensures Run(fc, link, st, n).last == Run(fc, link, st', n - 1).last
  {
  }

  /** An idle period (empty queue, no producers) hands over exactly one "empty" notice, at its start, if any. */
  lemma {:induction false} IdleNotices(fc: FloatCodec, link: Link, st: Dispatch, n: nat)
    requires link != Broken && Size(st.queue) == 0
    ensures Run(fc, link, st, n).handed == if n > 0 && st.emptyNotSent then [EmptyNotice()] else []
    ensures Run(fc, link, st, n).last == Some(Dispatch(st.iLoop + n, st.emptyNotSent && n == 0, st.queue))
    ensures Run(fc, link, st, n).taken == []
    decreases n
  {
    if n > 0 {
      var st' := Dispatch(st.iLoop + 1, false, st.queue);
      assert Step(fc, link, st).next == Some(st');
      IdleNotices(fc, link, st', n - 1);
    }
  }

  /** A broken link ends the loop at the first command handed over; an idle loop with the notice already sent never notices. */
  lemma BrokenLinkStops(fc: FloatCodec, st: Dispatch)
    ensures (Size(st.queue) > 0 || st.emptyNotSent) ==> Step(fc, Broken, st).next.None?
    ensures Size(st.queue) == 0 && !st.emptyNotSent ==>
              Step(fc, Broken, st).next == Some(Dispatch(st.iLoop + 1, false, st.queue))
  {
  }

  /** The size report itself is never queued: a step only removes from the queue. */
  lemma StepOnlyRemoves(fc: FloatCodec, link: Link, st: Dispatch)
    requires Step(fc, link, st).next.Some?
    ensures var q := Step(fc, link, st).next.value.queue;
            multiset(q.entries) <= multiset(st.queue.entries) && q.counter == st.queue.counter
  {
    if Size(st.queue) > 0 {
      StepHands(fc, link, st);
      GetLeast(st.queue);
    }
  }

  /** A non-empty queue's least command is handed over first, and only what `get` leaves remains queued. */
  lemma StepTakesLeast(fc: FloatCodec, link: Link, st: Dispatch)
    requires Size(st.queue) > 0
    ensures var r := Step(fc, link, st);
            && r.taken == Some(Get(st.queue).value.item) && 1 <= |r.handed| <= 2 && r.handed[0] == Get(st.queue).value.item
            && (r.next.Some? ==> r.next.value.queue == Get(st.queue).value.rest)
  {
    StepHands(fc, link, st);
  }
}
