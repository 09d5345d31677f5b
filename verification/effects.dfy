/**
 * What a step of the server hands to the send queue. Every command is
 * built with `Command(channel, type, value)` right before it is queued,
 * and a construction that raises ends the step: the commands queued
 * before it stay queued. `printConsole` is one such send.
 */
module Effects {
  import opened Wrappers
  import opened PyText
  import opened Commands

  /** A command handed to `add_command_to_send_queue` with its priority. */
  datatype Sent = Sent(cmd: Command, priority: int)

  /** The commands a step queued, in order, and the exception that ended it, if any. */
  datatype Out = Out(sent: seq<Sent>, raised: Option<PyError>)

  const Quiet: Out := Out([], None)

  /** The arguments of one `Command(channel, type, value)` call. */
  datatype Spec = Spec(channel: int, tag: char, value: PyVal)

  function MakeSpec(fc: FloatCodec, s: Spec): (r: Result<Command>)
    ensures s.value != PyNone && r.Ok? ==> r.value.Cmd? && r.value.channel == s.channel && Valid(fc, r.value)
    ensures r.Err? ==> r.error == ValueError
  {
    Make(fc, s.channel, s.tag, s.value)
  }

  /**
   * Queue already built commands one after the other at one priority: the
   * commands before the first failed construction are queued, then its
   * error ends the step.
   */
  function Collect(rs: seq<Result<Command>>, priority: int): (o: Out)
    ensures |o.sent| <= |rs|
    ensures o.raised.None? <==> |o.sent| == |rs|
    ensures o.raised.Some? ==> rs[|o.sent|] == Err(o.raised.value)
  {
    if |rs| == 0 then Quiet
    else
      match rs[0]
      case Err(e) => Out([], Some(e))
      case Ok(c) =>
        var rest := Collect(rs[1..], priority);
        Out([Sent(c, priority)] + rest.sent, rest.raised)
  }

  /** What was queued is the successful prefix of the results, each at the given priority. */
  lemma {:induction false} CollectSent(rs: seq<Result<Command>>, priority: int)
    ensures var o := Collect(rs, priority);
            forall i :: 0 <= i < |o.sent| ==> rs[i] == Ok(o.sent[i].cmd) && o.sent[i].priority == priority
  {
    if |rs| > 0 && rs[0].Ok? {
      CollectSent(rs[1..], priority);
    }
  }

  /** The constructions of `specs`, one result each. */
  function Results(fc: FloatCodec, specs: seq<Spec>): (rs: seq<Result<Command>>)
    ensures |rs| == |specs|
    ensures forall i :: 0 <= i < |specs| ==> rs[i] == MakeSpec(fc, specs[i])
  {
    seq(|specs|, i requires 0 <= i < |specs| => MakeSpec(fc, specs[i]))
  }

  /** Build and queue the commands of `specs` in order; the first failing construction ends the step. */
  function Build(fc: FloatCodec, specs: seq<Spec>, priority: int): (o: Out)
    ensures |o.sent| <= |specs|
    ensures o.raised.None? <==> |o.sent| == |specs|
    ensures o.raised.Some? ==> MakeSpec(fc, specs[|o.sent|]) == Err(o.raised.value)
  {
    Collect(Results(fc, specs), priority)
  }

  /** Each queued command is the one its construction made, at the step's priority. */
  lemma BuildSent(fc: FloatCodec, specs: seq<Spec>, priority: int)
    ensures var o := Build(fc, specs, priority);
            forall i :: 0 <= i < |o.sent| ==> MakeSpec(fc, specs[i]) == Ok(o.sent[i].cmd) && o.sent[i].priority == priority
  {
    CollectSent(Results(fc, specs), priority);
  }

  /** When every construction succeeds, all commands are queued in order. */
  lemma BuildAllOk(fc: FloatCodec, specs: seq<Spec>, cs: seq<Command>, priority: int)
    requires |cs| == |specs|
    requires forall i :: 0 <= i < |specs| ==> MakeSpec(fc, specs[i]) == Ok(cs[i])
    ensures Build(fc, specs, priority) == Out(Sends(cs, priority), None)
  {
    BuildSent(fc, specs, priority);
  }

  /** A first command on an invalid channel ends the step before anything is queued. */
  lemma BadChannelFirst(fc: FloatCodec, specs: seq<Spec>, priority: int)
    requires |specs| > 0 && specs[0].value != PyNone
    requires !(0 <= specs[0].channel <= MaxChannel)
    ensures Build(fc, specs, priority) == Out([], Some(ValueError))
  {
    var o := Build(fc, specs, priority);
    assert MakeSpec(fc, specs[0]).Err?;
    assert |o.sent| == 0;
  }

  /** Run `p` after `o` unless `o` raised. */
  function Then(o: Out, p: Out): Out {
    if o.raised.Some? then o else Out(o.sent + p.sent, p.raised)
  }

  /** Queueing two lists of results in a row is queueing their concatenation. */
  lemma {:induction false} CollectAppend(a: seq<Result<Command>>, b: seq<Result<Command>>, priority: int)
    ensures Collect(a + b, priority) == Then(Collect(a, priority), Collect(b, priority))
    decreases |a|
  {
    if |a| == 0 {
      assert a + b == b;
    } else {
      assert (a + b)[0] == a[0];
      assert (a + b)[1..] == a[1..] + b;
      CollectAppend(a[1..], b, priority);
      if a[0].Ok? {
        var rest := Collect(a[1..], priority);
        assert Collect(a, priority) == Out([Sent(a[0].value, priority)] + rest.sent, rest.raised);
        if rest.raised.None? {
          assert [Sent(a[0].value, priority)] + rest.sent + Collect(b, priority).sent
              == [Sent(a[0].value, priority)] + (rest.sent + Collect(b, priority).sent);
        }
      }
    }
  }

  /** Building two lists in a row is building their concatenation. */
  lemma BuildAppend(fc: FloatCodec, a: seq<Spec>, b: seq<Spec>, priority: int)
    ensures Build(fc, a + b, priority) == Then(Build(fc, a, priority), Build(fc, b, priority))
  {
    ResultsAppend(fc, a, b);
    CollectAppend(Results(fc, a), Results(fc, b), priority);
  }

  lemma ResultsAppend(fc: FloatCodec, a: seq<Spec>, b: seq<Spec>)
    ensures Results(fc, a + b) == Results(fc, a) + Results(fc, b)
  {
    MapAppend(s => MakeSpec(fc, s), a, b, Results(fc, a + b), Results(fc, a), Results(fc, b));
  }

  /** A list made element by element from `a + b` is the two lists made from `a` and `b`, joined. */
  lemma MapAppend<A, B>(f: A -> B, a: seq<A>, b: seq<A>, l: seq<B>, la: seq<B>, lb: seq<B>)
    requires |l| == |a| + |b| && |la| == |a| && |lb| == |b|
    requires forall i :: 0 <= i < |l| ==> l[i] == f((a + b)[i])
    requires forall i :: 0 <= i < |la| ==> la[i] == f(a[i])
    requires forall i :: 0 <= i < |lb| ==> lb[i] == f(b[i])
    ensures l == la + lb
  {
    forall i | 0 <= i < |l|
      ensures l[i] == (la + lb)[i]
    {
      if i < |a| {
        assert (a + b)[i] == a[i];
      } else {
        assert (a + b)[i] == b[i - |a|];
      }
    }
  }

  /** A console line and some sends, then one more send at the same priority. */
  lemma ThenSnoc(h: Out, b: Out, line: Sent, cs: seq<Command>, c: Command, priority: int)
    requires h == Out([line] + Sends(cs, priority), None) && b == Out([Sent(c, priority)], None)
    ensures Then(h, b) == Out([line] + Sends(cs + [c], priority), None)
  {
    SendsAppend(cs, [c], priority);
    assert Sends([c], priority) == [Sent(c, priority)];
    assert [line] + Sends(cs, priority) + [Sent(c, priority)] == [line] + (Sends(cs, priority) + [Sent(c, priority)]);
  }

  /** A step that sends nothing and raises, after a clean prefix, keeps the prefix. */
  lemma ThenRaises(h: seq<Sent>, e: PyError)
    ensures Then(Out(h, None), Out([], Some(e))) == Out(h, Some(e))
  {
    assert h + [] == h;
  }

  /** Some sends, then one more send at the same priority. */
  lemma ThenSend(o: Out, p: Out, cs: seq<Command>, c: Command, priority: int)
    requires o == Out(Sends(cs, priority), None) && p == Out([Sent(c, priority)], None)
    ensures Then(o, p) == Out(Sends(cs + [c], priority), None)
  {
    SendsAppend(cs, [c], priority);
    assert Sends([c], priority) == [Sent(c, priority)];
  }

  /** Steps run in a row group either way. */
  lemma ThenAssoc(o: Out, p: Out, q: Out)
    ensures Then(o, Then(p, q)) == Then(Then(o, p), q)
  {
    assert o.sent + p.sent + q.sent == o.sent + (p.sent + q.sent);
  }

  /** Some other statement raises `e`. */
  function Raise(o: Out, e: PyError): Out {
    if o.raised.Some? then o else Out(o.sent, Some(e))
  }

  /** The sends a step makes when every construction succeeds. */
  function Sends(cs: seq<Command>, priority: int): (ss: seq<Sent>)
    ensures |ss| == |cs|
    ensures forall i :: 0 <= i < |cs| ==> ss[i] == Sent(cs[i], priority)
  {
    seq(|cs|, i requires 0 <= i < |cs| => Sent(cs[i], priority))
  }

  lemma SendsAppend(a: seq<Command>, b: seq<Command>, priority: int)
    ensures Sends(a + b, priority) == Sends(a, priority) + Sends(b, priority)
  {
  }

  /** A float on a valid channel makes an `F` command when its text is short. */
  lemma MakeFloat(fc: FloatCodec, channel: int, x: real)
    requires 0 <= channel <= MaxChannel
    requires |ShowFloat(fc, x)| <= 240
    ensures Make(fc, channel, 'F', PyFloat(x)) == Ok(Cmd(channel, FloatVal(x)))
  {
    IntTextLength(channel);
  }

  /**
   * The constructions the server makes on purpose: a valid channel with a
   * short separator-free text, a short float, or a small integer.
   */
  predicate Fits(fc: FloatCodec, s: Spec) {
    && 0 <= s.channel <= MaxChannel
    && match s.value
       case PyStr(t) => (s.tag == 'S' && Printable(t)) || (s.tag == 'F' && SmallIntText(t))
       case PyFloat(x) => s.tag == 'F' && |ShowFloat(fc, x)| <= 240
       case PyInt(n) => s.tag == 'F' && -1000 <= n <= 1000
       case PyNone => false
  }

  /** A text an `S` command on a three-digit channel can carry. */
  predicate Printable(t: string) {
    '#' !in t && ';' !in t && |t| <= 248
  }

  /** The canonical text of a small integer, as `"0"` or `"1"`. */
  predicate SmallIntText(t: string) {
    ParseInt(t).Some? && -1000 <= ParseInt(t).value <= 1000 && IntText(ParseInt(t).value) == t
  }

  lemma DigitTexts()
    ensures SmallIntText("0") && ParseInt("0") == Some(0)
    ensures SmallIntText("1") && ParseInt("1") == Some(1)
  {
    assert IntText(0) == "0";
    assert IntText(1) == "1";
    IntTextParses(0);
    IntTextParses(1);
  }

  /** The command a fitting construction makes, written without the construction. */
  function Intended(s: Spec): Command {
    match s.value
    case PyStr(t) =>
      if s.tag == 'S' then Cmd(s.channel, TextVal(t))
      else Cmd(s.channel, FloatVal(ParseInt(t).GetOr(0) as real))
    case PyFloat(x) => Cmd(s.channel, FloatVal(x))
    case PyInt(n) => Cmd(s.channel, FloatVal(n as real))
    case PyNone => Blank
  }

  lemma SpecFits(fc: FloatCodec, s: Spec)
    requires Fits(fc, s)
    ensures MakeSpec(fc, s) == Ok(Intended(s))
  {
    match s.value
    case PyStr(t) =>
      if s.tag == 'S' {
        MakeText(fc, s.channel, t);
      } else {
        MakeIntegral(fc, s.channel, s.value, ParseInt(t).value);
      }
    case PyFloat(x) => MakeFloat(fc, s.channel, x);
    case PyInt(n) => MakeIntegral(fc, s.channel, s.value, n);
  }

  function Intents(specs: seq<Spec>): (cs: seq<Command>)
    ensures |cs| == |specs|
    ensures forall i :: 0 <= i < |specs| ==> cs[i] == Intended(specs[i])
  {
    seq(|specs|, i requires 0 <= i < |specs| => Intended(specs[i]))
  }

  /** When every construction fits, every intended command is queued, in order, and the step goes on. */
  lemma BuildFits(fc: FloatCodec, specs: seq<Spec>, priority: int)
    requires forall i :: 0 <= i < |specs| ==> Fits(fc, specs[i])
    ensures Build(fc, specs, priority) == Out(Sends(Intents(specs), priority), None)
  {
    forall i | 0 <= i < |specs|
      ensures MakeSpec(fc, specs[i]) == Ok(Intents(specs)[i])
    {
      SpecFits(fc, specs[i]);
    }
    BuildAllOk(fc, specs, Intents(specs), priority);
  }

  /** Two fitting constructions queue their intended commands. */
  lemma BuildTwo(fc: FloatCodec, a: Spec, b: Spec, priority: int)
    requires Fits(fc, a) && Fits(fc, b)
    ensures Build(fc, [a, b], priority) == Out([Sent(Intended(a), priority), Sent(Intended(b), priority)], None)
  {
    BuildFits(fc, [a, b], priority);
    assert Intents([a, b]) == [Intended(a), Intended(b)];
  }

  /** The same, with the two commands named by the caller. */
  lemma BuildPair(fc: FloatCodec, a: Spec, b: Spec, ca: Command, cb: Command, priority: int)
    requires Fits(fc, a) && Fits(fc, b) && Intended(a) == ca && Intended(b) == cb
    ensures Build(fc, [a, b], priority) == Out(Sends([ca, cb], priority), None)
  {
    BuildTwo(fc, a, b, priority);
    assert Sends([ca, cb], priority) == [Sent(ca, priority), Sent(cb, priority)];
  }

  /** Three fitting lists built in a row queue their intended commands, in order. */
  lemma BuildFitsJoin(fc: FloatCodec, a: seq<Spec>, b: seq<Spec>, c: seq<Spec>, priority: int)
    requires forall i :: 0 <= i < |a| ==> Fits(fc, a[i])
    requires forall i :: 0 <= i < |b| ==> Fits(fc, b[i])
    requires forall i :: 0 <= i < |c| ==> Fits(fc, c[i])
    ensures Build(fc, a + b + c, priority) == Out(Sends(Intents(a) + Intents(b) + Intents(c), priority), None)
  {
    var s := a + b + c;
    forall i | 0 <= i < |s|
      ensures Fits(fc, s[i])
    {
      if i < |a| {
        assert s[i] == a[i];
      } else if i < |a| + |b| {
        assert s[i] == b[i - |a|];
      } else {
        assert s[i] == c[i - |a| - |b|];
      }
    }
    BuildFits(fc, s, priority);
    IntentsAppend(a + b, c);
    IntentsAppend(a, b);
  }

  lemma IntentsAppend(a: seq<Spec>, b: seq<Spec>)
    ensures Intents(a + b) == Intents(a) + Intents(b)
  {
    MapAppend(Intended, a, b, Intents(a + b), Intents(a), Intents(b));
  }

  // ---------------------------------------------------------------------
  // printConsole
  // ---------------------------------------------------------------------

  const ConsoleChannel: int := 999
  const ConsolePriority: int := 0

  /** The message with `;` and `#` replaced by `_`. */
  function Sanitize(msg: string): (r: string)
    ensures |r| == |msg|
    ensures ';' !in r && '#' !in r
  {
    var r := ReplaceChar(ReplaceChar(msg, ';', '_'), '#', '_');
    assert forall i :: 0 <= i < |r| ==> r[i] != ';' && r[i] != '#';
    r
  }

  /** A time stamp as `strftime` prints it: no separator characters. */
  predicate StampOk(stamp: string) {
    ';' !in stamp && '#' !in stamp
  }

  /** The console line: the clock reading, then the sanitised message. */
  function ConsoleText(stamp: string, msg: string): string {
    stamp + ": " + Sanitize(msg)
  }

  /** A console line as queued. */
  function Logged(stamp: string, msg: string): Sent {
    Sent(Cmd(ConsoleChannel, TextVal(ConsoleText(stamp, msg))), ConsolePriority)
  }

  /** `Command(999, "S", f"{timestamp}: {message}")`. */
  function ConsoleSpec(stamp: string, msg: string): Spec {
    Spec(ConsoleChannel, 'S', PyStr(ConsoleText(stamp, msg)))
  }

  function Console(fc: FloatCodec, stamp: string, msg: string): Result<Command> {
    MakeSpec(fc, ConsoleSpec(stamp, msg))
  }

  /** `printConsole(msg)` with the clock reading `stamp`: a send at priority 0, unless the step already raised. */
  function PrintConsole(o: Out, fc: FloatCodec, stamp: string, msg: string): Out {
    Then(o, Build(fc, [ConsoleSpec(stamp, msg)], ConsolePriority))
  }

  /**
   * Because `printConsole` removes both separators, its command can only
   * fail on the frame length: it is made exactly when stamp and message
   * together have at most 247 characters.
   */
  lemma ConsoleOnlyLength(fc: FloatCodec, stamp: string, msg: string)
    requires StampOk(stamp)
    ensures Console(fc, stamp, msg).Ok? <==> |stamp| + |msg| <= 247
    ensures Console(fc, stamp, msg).Ok? ==> Console(fc, stamp, msg) == Ok(Cmd(ConsoleChannel, TextVal(ConsoleText(stamp, msg))))
    ensures Console(fc, stamp, msg).Err? ==> Console(fc, stamp, msg) == Err(ValueError)
  {
    var t := ConsoleText(stamp, msg);
    ConsoleTextClean(stamp, msg);
    ConsoleChannelText();
    assert |ToString(fc, Cmd(ConsoleChannel, TextVal(t)))| == |stamp| + |msg| + 8;
  }

  lemma ConsoleTextClean(stamp: string, msg: string)
    requires StampOk(stamp)
    ensures ';' !in ConsoleText(stamp, msg) && '#' !in ConsoleText(stamp, msg)
  {
    var t := ConsoleText(stamp, msg);
    assert forall i :: 0 <= i < |t| ==> t[i] in stamp || t[i] in ": " || t[i] in Sanitize(msg);
  }

  lemma ConsoleChannelText()
    ensures IntText(ConsoleChannel) == "999"
  {
    assert NatText(999) == NatText(99) + "9";
    assert NatText(99) == NatText(9) + "9";
  }

  /** A console line that fits is queued and the step goes on. */
  lemma PrintConsoleFits(o: Out, fc: FloatCodec, stamp: string, msg: string)
    requires o.raised.None? && StampOk(stamp) && |stamp| + |msg| <= 247
    ensures PrintConsole(o, fc, stamp, msg) == Out(o.sent + [Logged(stamp, msg)], None)
  {
    ConsoleOnlyLength(fc, stamp, msg);
    BuildAllOk(fc, [ConsoleSpec(stamp, msg)], [Cmd(ConsoleChannel, TextVal(ConsoleText(stamp, msg)))], ConsolePriority);
  }

  /** One `S` command with a printable text on a valid channel is always made. */
  lemma TextFits(fc: FloatCodec, channel: int, text: string, priority: int)
    requires 0 <= channel <= MaxChannel && Printable(text)
    ensures Build(fc, [Spec(channel, 'S', PyStr(text))], priority) == Out([Sent(Cmd(channel, TextVal(text)), priority)], None)
  {
    BuildFits(fc, [Spec(channel, 'S', PyStr(text))], priority);
  }

  /** A digit sent as the text of an `F` command is made into that number. */
  lemma DigitFits(fc: FloatCodec, channel: int, t: string, k: int, priority: int)
    requires 0 <= channel <= MaxChannel
    requires (t == "0" && k == 0) || (t == "1" && k == 1)
    ensures Build(fc, [Spec(channel, 'F', PyStr(t))], priority) == Out([Sent(Cmd(channel, FloatVal(k as real)), priority)], None)
  {
    DigitTexts();
    BuildFits(fc, [Spec(channel, 'F', PyStr(t))], priority);
  }

  /** A console line that fits, followed by further sends. */
  lemma LogThen(fc: FloatCodec, stamp: string, msg: string, p: Out)
    requires StampOk(stamp) && |stamp| + |msg| <= 247
    ensures Then(PrintConsole(Quiet, fc, stamp, msg), p) == Out([Logged(stamp, msg)] + p.sent, p.raised)
  {
    PrintConsoleFits(Quiet, fc, stamp, msg);
    assert Quiet.sent + [Logged(stamp, msg)] == [Logged(stamp, msg)];
  }
}
