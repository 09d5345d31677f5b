/**
 * `ServerConnection`: a buffer received from the visualisation client is
 * cut at every `;` and each complete frame is parsed; a command is written
 * to the socket as its frame text, and only while connected.
 */
module Connection {
  import opened Wrappers
  import opened PyText
  import opened Commands

  /** Number of occurrences of `c` in `s`. */
  function Count(s: string, c: char): nat {
    if |s| == 0 then 0 else Count(s[..|s| - 1], c) + (if s[|s| - 1] == c then 1 else 0)
  }

  /** `s.split(c)`: the pieces between occurrences of `c`. */
  function Split(s: string, c: char): (parts: seq<string>)
    ensures |parts| >= 1
  {
    if |s| == 0 then [""]
    else
      var init := Split(s[..|s| - 1], c);
      var last := s[|s| - 1];
      if last == c then init + [""]
      else init[..|init| - 1] + [init[|init| - 1] + [last]]
  }

  /** There is always one more piece than separators, and no piece holds one. */
  lemma {:induction false} SplitShape(s: string, c: char)
    ensures |Split(s, c)| == Count(s, c) + 1
    ensures forall i :: 0 <= i < |Split(s, c)| ==> c !in Split(s, c)[i]
    decreases |s|
  {
    if |s| > 0 {
      var p := s[..|s| - 1];
      var x := s[|s| - 1];
      SplitShape(p, c);
      assert s == p + [x];
      if x == c {
        SplitSeparator(p, c);
      } else {
        SplitOther(p, x, c);
      }
    }
  }

  /** `c.join(parts)`. */
  function JoinOn(parts: seq<string>, c: char): string
    requires |parts| >= 1
  {
    if |parts| == 1 then parts[0] else JoinOn(parts[..|parts| - 1], c) + [c] + parts[|parts| - 1]
  }

  /** Joining the pieces with the separator gives the string back. */
  lemma {:induction false} SplitJoin(s: string, c: char)
    ensures JoinOn(Split(s, c), c) == s
    decreases |s|
  {
    if |s| > 0 {
      var p := s[..|s| - 1];
      var x := s[|s| - 1];
      var init := Split(p, c);
      SplitJoin(p, c);
      assert s == p + [x];
      if x == c {
        SplitSeparator(p, c);
        JoinEmptyLast(init, c);
      } else {
        SplitOther(p, x, c);
        JoinLastAppend(init, c, x);
      }
    }
  }

  lemma SplitSeparator(p: string, c: char)
    ensures Split(p + [c], c) == Split(p, c) + [""]
  {
    assert (p + [c])[..|p|] == p;
  }

  lemma SplitOther(p: string, x: char, c: char)
    requires x != c
    ensures var init := Split(p, c);
            Split(p + [x], c) == init[..|init| - 1] + [init[|init| - 1] + [x]]
  {
    assert (p + [x])[..|p|] == p;
  }

  lemma JoinEmptyLast(parts: seq<string>, c: char)
    requires |parts| >= 1
    ensures JoinOn(parts + [""], c) == JoinOn(parts, c) + [c]
  {
    assert (parts + [""])[..|parts|] == parts;
  }

  lemma JoinLastAppend(parts: seq<string>, c: char, x: char)
    requires |parts| >= 1
    ensures JoinOn(parts[..|parts| - 1] + [parts[|parts| - 1] + [x]], c) == JoinOn(parts, c) + [x]
  {
    var q := parts[..|parts| - 1] + [parts[|parts| - 1] + [x]];
    if |parts| > 1 {
      assert q[..|q| - 1] == parts[..|parts| - 1];
    }
  }

  /** Appending separator-free text extends the last piece only. */
  lemma {:induction false} SplitExtend(a: string, t: string, c: char)
    requires c !in t
    ensures var p := Split(a, c);
            Split(a + t, c) == p[..|p| - 1] + [p[|p| - 1] + t]
    decreases |t|
  {
    var p := Split(a, c);
    if |t| == 0 {
      assert a + t == a;
      assert p[|p| - 1] + t == p[|p| - 1];
      assert p == p[..|p| - 1] + [p[|p| - 1]];
    } else {
      var t' := t[..|t| - 1];
      var x := t[|t| - 1];
      assert t == t' + [x];
      SplitExtend(a, t', c);
      assert a + t == (a + t') + [x];
      SplitOther(a + t', x, c);
      ExtendLast(p, Split(a + t', c), t', x);
    }
  }

  /** Extending the last piece by `t'` and then by `x` is extending it by `t' + [x]`. */
  lemma ExtendLast(p: seq<string>, q: seq<string>, t': string, x: char)
    requires |p| >= 1 && q == p[..|p| - 1] + [p[|p| - 1] + t']
    ensures q[..|q| - 1] + [q[|q| - 1] + [x]] == p[..|p| - 1] + [p[|p| - 1] + (t' + [x])]
  {
    assert q[..|q| - 1] == p[..|p| - 1];
    assert q[|q| - 1] + [x] == p[|p| - 1] + (t' + [x]);
  }

  /** The complete frames of a buffer: every piece before the last `;`. */
  function Pieces(data: string): (ps: seq<string>)
    ensures |ps| == Count(data, ';')
    ensures forall i :: 0 <= i < |ps| ==> ';' !in ps[i]
  {
    SplitShape(data, ';');
    var parts := Split(data, ';');
    parts[..|parts| - 1]
  }

  /**
   * `receive()` after the socket has delivered `data`: an empty read means
   * the peer closed the connection; otherwise every piece before the last
   * `;` becomes `Command(piece + ";")`, and the first failing piece makes
   * the whole call raise.
   */
  function Receive(fc: FloatCodec, data: string): (r: Result<seq<Command>>)
    ensures data == "" ==> r == Err(ConnectionError)
    ensures r.Ok? ==> |r.value| == Count(data, ';')
    ensures r.Ok? ==> forall i :: 0 <= i < |r.value| ==>
                        New(fc, [PyStr(Pieces(data)[i] + ";")], map[]) == Ok(r.value[i])
    ensures data != "" ==>
              (r.Ok? <==> forall i :: 0 <= i < Count(data, ';') ==>
                                       New(fc, [PyStr(Pieces(data)[i] + ";")], map[]).Ok?)
    ensures r.Err? ==> r.error in {ConnectionError, ValueError}
  {
    if data == "" then Err(ConnectionError) else ParseAll(fc, Pieces(data))
  }

  /** `Command(d + ";")` for each piece, one result each. */
  function Frames(fc: FloatCodec, pieces: seq<string>): (rs: seq<Result<Command>>)
    ensures |rs| == |pieces|
    ensures forall i :: 0 <= i < |pieces| ==> rs[i] == New(fc, [PyStr(pieces[i] + ";")], map[])
  {
    seq(|pieces|, i requires 0 <= i < |pieces| => New(fc, [PyStr(pieces[i] + ";")], map[]))
  }

  /** One string argument fails only with `ValueError`. */
  lemma FrameErrors(fc: FloatCodec, piece: string)
    ensures New(fc, [PyStr(piece + ";")], map[]).Err? ==> New(fc, [PyStr(piece + ";")], map[]).error == ValueError
  {
  }

  /** The list of results as one result: all the values, or the first error. */
  function AllOk(rs: seq<Result<Command>>): (r: Result<seq<Command>>)
    ensures r.Ok? ==> |r.value| == |rs| && forall i :: 0 <= i < |rs| ==> rs[i] == Ok(r.value[i])
    ensures r.Ok? <==> forall i :: 0 <= i < |rs| ==> rs[i].Ok?
    ensures r.Err? ==> exists i :: 0 <= i < |rs| && rs[i] == Err(r.error)
  {
    if |rs| == 0 then Ok([])
    else
      match rs[0]
      case Err(e) => Err(e)
      case Ok(c) =>
        match AllOk(rs[1..])
        case Err(e) =>
          assert exists i :: 0 <= i < |rs| - 1 && rs[1..][i] == Err(e);
          Err(e)
        case Ok(cs) =>
          assert forall i :: 1 <= i < |rs| ==> rs[1..][i - 1] == rs[i];
          Ok([c] + cs)
  }

  /** `[Command(d + ";") for d in pieces]`, stopping at the first exception. */
  function ParseAll(fc: FloatCodec, pieces: seq<string>): (r: Result<seq<Command>>)
    ensures r.Ok? ==> |r.value| == |pieces|
    ensures r.Ok? ==> forall i :: 0 <= i < |pieces| ==> New(fc, [PyStr(pieces[i] + ";")], map[]) == Ok(r.value[i])
    ensures r.Ok? <==> forall i :: 0 <= i < |pieces| ==> New(fc, [PyStr(pieces[i] + ";")], map[]).Ok?
    ensures r.Err? ==> r.error == ValueError
  {
    var rs := Frames(fc, pieces);
    var r := AllOk(rs);
    if r.Err? then
      var i :| 0 <= i < |rs| && rs[i] == Err(r.error);
      FrameErrors(fc, pieces[i]);
      r
    else r
  }

  /** Text after the last `;` is dropped, not kept for the next read. */
  lemma TrailingTextDiscarded(fc: FloatCodec, a: string, t: string)
    requires |a| >= 1 && a[|a| - 1] == ';'
    requires ';' !in t
    ensures Receive(fc, a + t) == Receive(fc, a)
  {
    SplitExtend(a, t, ';');
    var p := Split(a, ';');
    var q := Split(a + t, ';');
    assert q[..|q| - 1] == p[..|p| - 1];
  }

  /** An empty piece, as between the two separators of ";;", makes the whole batch fail. */
  lemma EmptyPieceRejected(fc: FloatCodec)
    ensures Receive(fc, ";;") == Err(ValueError)
  {
    var s := ";;";
    assert Pieces(s)[0] + ";" == s[..1] by {
      assert s[..1][..0] == [];
      assert Split(s[..1], ';') == ["", ""];
      assert Split(s, ';') == ["", "", ""];
    }
    assert ParseFrame(fc, s[..1]) == Err(ValueError);
  }

  /** The text a batch of commands occupies on the wire. */
  function Wire(fc: FloatCodec, cs: seq<Command>): string {
    if |cs| == 0 then "" else Wire(fc, cs[..|cs| - 1]) + ToString(fc, cs[|cs| - 1])
  }

  /** Commands whose frames survive the wire: valid S commands with non-empty, newline-free text. */
  predicate Transmittable(fc: FloatCodec, c: Command) {
    Valid(fc, c) && c.value.TextVal? && |c.value.s| >= 1 && '\n' !in c.value.s
  }

  /** Separator-free pieces, each followed by `;`. */
  function Terminated(bs: seq<string>): string {
    if |bs| == 0 then "" else Terminated(bs[..|bs| - 1]) + bs[|bs| - 1] + ";"
  }

  /** Splitting `;`-terminated pieces gives the pieces followed by one empty piece. */
  lemma {:induction false} SplitTerminated(bs: seq<string>)
    requires forall i :: 0 <= i < |bs| ==> ';' !in bs[i]
    ensures Split(Terminated(bs), ';') == bs + [""]
  {
    if |bs| > 0 {
      var init := bs[..|bs| - 1];
      var body := bs[|bs| - 1];
      SplitTerminated(init);
      var w := Terminated(init);
      SplitExtend(w, body, ';');
      var p := Split(w, ';');
      assert p[..|p| - 1] == init;
      assert p[|p| - 1] + body == body;
      assert Terminated(bs) == (w + body) + [';'];
      SplitSeparator(w + body, ';');
      assert init + [body] == bs;
    }
  }

  /** The wire text of a batch is its frame bodies, each terminated. */
  lemma {:induction false} WireTerminated(fc: FloatCodec, cs: seq<Command>)
    ensures Wire(fc, cs) == Terminated(Bodies(fc, cs))
  {
    if |cs| > 0 {
      var init := cs[..|cs| - 1];
      WireTerminated(fc, init);
      BodiesInit(fc, cs);
      TerminatedSnoc(Bodies(fc, init), FrameBody(fc, cs[|cs| - 1]));
    }
  }

  /** Dropping the last command drops the last body. */
  lemma BodiesInit(fc: FloatCodec, cs: seq<Command>)
    requires |cs| > 0
    ensures Bodies(fc, cs) == Bodies(fc, cs[..|cs| - 1]) + [FrameBody(fc, cs[|cs| - 1])]
  {
    var init := cs[..|cs| - 1];
    assert forall i :: 0 <= i < |init| ==> init[i] == cs[i];
  }

  /** One more body adds its frame at the end of the terminated text. */
  lemma TerminatedSnoc(bs: seq<string>, b: string)
    ensures Terminated(bs + [b]) == Terminated(bs) + b + ";"
  {
    assert (bs + [b])[..|bs|] == bs;
  }

  /** The frame bodies of a batch, in order. */
  function Bodies(fc: FloatCodec, cs: seq<Command>): (bs: seq<string>)
    ensures |bs| == |cs|
    ensures forall i :: 0 <= i < |cs| ==> bs[i] + ";" == ToString(fc, cs[i])
  {
    seq(|cs|, i requires 0 <= i < |cs| => FrameBody(fc, cs[i]))
  }

  /** A frame without its final `;`. */
  function FrameBody(fc: FloatCodec, c: Command): (body: string)
    ensures body + ";" == ToString(fc, c)
  {
    var f := ToString(fc, c);
    f[..|f| - 1]
  }

  /** A transmittable command's body holds no `;`. */
  lemma BodySeparatorFree(fc: FloatCodec, c: Command)
    requires Transmittable(fc, c)
    ensures ';' !in FrameBody(fc, c)
  {
    NatTextNoSeparators(c.channel);
    assert FrameBody(fc, c) == "#" + IntText(c.channel) + "S" + c.value.s;
  }

  /** Pieces that each parse to the matching command are parsed as the whole batch. */
  lemma ParseAllOk(fc: FloatCodec, pieces: seq<string>, cs: seq<Command>)
    requires |pieces| == |cs|
    requires forall i :: 0 <= i < |cs| ==> New(fc, [PyStr(pieces[i] + ";")], map[]) == Ok(cs[i])
    ensures ParseAll(fc, pieces) == Ok(cs)
  {
    var rs := Frames(fc, pieces);
    assert forall i :: 0 <= i < |rs| ==> rs[i] == Ok(cs[i]);
    var r := AllOk(rs);
    assert r.Ok?;
    assert r.value == cs;
  }

  /** A non-empty batch of transmittable commands, once written, is received as the same batch. */
  lemma ReceiveWire(fc: FloatCodec, cs: seq<Command>)
    requires |cs| >= 1
    requires forall i :: 0 <= i < |cs| ==> Transmittable(fc, cs[i])
    ensures Receive(fc, Wire(fc, cs)) == Ok(cs)
  {
    WireTerminated(fc, cs);
    forall i | 0 <= i < |cs|
      ensures ';' !in Bodies(fc, cs)[i]
    {
      BodySeparatorFree(fc, cs[i]);
    }
    SplitTerminated(Bodies(fc, cs));
    var w := Wire(fc, cs);
    var p := Split(w, ';');
    assert w != "" by {
      assert |ToString(fc, cs[|cs| - 1])| >= 1;
    }
    var pieces := Pieces(w);
    assert pieces == Bodies(fc, cs);
    forall i | 0 <= i < |cs|
      ensures New(fc, [PyStr(pieces[i] + ";")], map[]) == Ok(cs[i])
    {
      TextRoundTrip(fc, cs[i]);
    }
    ParseAllOk(fc, pieces, cs);
  }

  /** The state of the socket as `send` sees it. */
  datatype Link = Disconnected | Connected | Broken

  /**
   * `send(command)`: while connected the frame text is written (returned
   * here); a broken pipe is reported as `ConnectionError`; while
   * disconnected nothing happens.
   */
  function Send(fc: FloatCodec, link: Link, c: Command): (r: Result<Option<string>>)
    ensures link == Disconnected ==> r == Ok(None)
    ensures link == Broken ==> r == Err(ConnectionError)
    ensures r.Ok? && r.value.Some? ==> link == Connected && r.value.value == ToString(fc, c)
  {
    match link
    case Disconnected => Ok(None)
    case Broken => Err(ConnectionError)
    case Connected => Ok(Some(ToString(fc, c)))
  }

  /** What one connected `send` writes is received as that command. */
  lemma SendThenReceive(fc: FloatCodec, c: Command)
    requires Transmittable(fc, c)
    ensures Send(fc, Connected, c).Ok? && Send(fc, Connected, c).value.Some?
    ensures Receive(fc, Send(fc, Connected, c).value.value) == Ok([c])
  {
    ReceiveWire(fc, [c]);
    assert Wire(fc, [c]) == ToString(fc, c) by {
      assert [c][..0] == [];
    }
  }
}
