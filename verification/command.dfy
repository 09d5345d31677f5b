/**
 * The ComVisu wire command `#<channel><F|S><value>;`: validation on
 * construction, serialisation, and parsing of a received frame.
 */
module Commands {
  import opened Wrappers
  import opened PyText

  /** A command's payload: type `F` carries a float, type `S` a string. */
  datatype Value = FloatVal(x: real) | TextVal(s: string)

  /**
   * A command object. `Blank` is the object whose channel, type and value
   * are all `None` (made by `Command()` or `Command("")`).
   */
  datatype Command = Blank | Cmd(channel: int, value: Value)

  const MaxChannel: int := 999
  const MaxFrameLength: int := 255

  function TypeTag(v: Value): char {
    if v.FloatVal? then 'F' else 'S'
  }

  function ValueText(fc: FloatCodec, v: Value): string {
    match v
    case FloatVal(x) => ShowFloat(fc, x)
    case TextVal(s) => s
  }

  /** `to_string`: the f-string `#{channel}{type}{value};`. */
  function ToString(fc: FloatCodec, c: Command): (frame: string)
    ensures c.Cmd? ==> frame == "#" + IntText(c.channel) + [TypeTag(c.value)] + ValueText(fc, c.value) + ";"
    ensures c.Blank? ==> frame == "#NoneNoneNone;"
  {
    match c
    case Blank => "#NoneNoneNone;"
    case Cmd(ch, v) => "#" + IntText(ch) + [TypeTag(v)] + ValueText(fc, v) + ";"
  }

  /** What construction guarantees about a command whose fields are set. */
  predicate Valid(fc: FloatCodec, c: Command) {
    && c.Cmd?
    && 0 <= c.channel <= MaxChannel
    && (c.value.TextVal? ==> '#' !in c.value.s && ';' !in c.value.s)
    && |ToString(fc, c)| <= MaxFrameLength
  }

  /** The Python value that carries a command's payload into `_apply_values`. */
  function Payload(v: Value): PyVal {
    match v
    case FloatVal(x) => PyFloat(x)
    case TextVal(s) => PyStr(s)
  }

  /**
   * `_apply_values`: every failure, including a failing `int(channel)`, is
   * reported as `ValueError`.
   */
  function ApplyValues(fc: FloatCodec, channel: PyVal, typ: PyVal, value: PyVal): (r: Result<Command>)
    ensures r.Ok? ==> Valid(fc, r.value)
    ensures r.Ok? ==> IntOf(channel) == Ok(r.value.channel)
    ensures r.Ok? ==> typ == PyStr([TypeTag(r.value.value)])
    ensures r.Ok? && r.value.value.FloatVal? ==> FloatOf(fc, value) == Ok(r.value.value.x)
    ensures r.Ok? && r.value.value.TextVal? ==> r.value.value.s == StrOf(fc, value)
    ensures r.Err? ==> r.error == ValueError
  {
    match IntOf(channel)
    case Err(_) => Err(ValueError)
    case Ok(ch) =>
      if ch < 0 || ch > MaxChannel then Err(ValueError)
      else if typ != PyStr("F") && typ != PyStr("S") then Err(ValueError)
      else
        var v :=
          if typ == PyStr("F") then
            (match FloatOf(fc, value)
             case Ok(x) => Some(FloatVal(x))
             case Err(_) => None)
          else
            var s := StrOf(fc, value);
            if '#' in s || ';' in s then None else Some(TextVal(s));
        match v
        case None => Err(ValueError)
        case Some(val) =>
          if |ToString(fc, Cmd(ch, val))| > MaxFrameLength then Err(ValueError)
          else Ok(Cmd(ch, val))
  }

  /** Every valid command is what `_apply_values` builds from its own fields. */
  lemma ValidIsConstructible(fc: FloatCodec, c: Command)
    requires Valid(fc, c)
    ensures ApplyValues(fc, PyInt(c.channel), PyStr([TypeTag(c.value)]), Payload(c.value)) == Ok(c)
  {
  }

  /** The channel is accepted iff `int(channel)` lies in 0..999. */
  lemma ChannelRange(fc: FloatCodec, channel: PyVal, s: string)
    requires '#' !in s && ';' !in s && |s| <= 200
    ensures ApplyValues(fc, channel, PyStr("S"), PyStr(s)).Ok? <==>
              IntOf(channel).Ok? && 0 <= IntOf(channel).value <= MaxChannel
  {
    var r := ApplyValues(fc, channel, PyStr("S"), PyStr(s));
    if IntOf(channel).Ok? && 0 <= IntOf(channel).value <= MaxChannel {
      var ch := IntOf(channel).value;
      IntTextLength(ch);
      assert |ToString(fc, Cmd(ch, TextVal(s)))| <= MaxFrameLength;
    }
  }

  /** Channel numbers 0..999 print with one to three digits. */
  lemma IntTextLength(ch: int)
    requires 0 <= ch <= MaxChannel
    ensures 1 <= |IntText(ch)| <= 3
  {
    if ch >= 10 {
      if ch >= 100 {
        assert NatText(ch) == NatText(ch / 10) + [DigitChar(ch % 10)];
        assert |NatText(ch / 10)| == 2 by {
          assert NatText(ch / 10) == NatText(ch / 100) + [DigitChar((ch / 10) % 10)];
        }
      } else {
        assert NatText(ch) == NatText(ch / 10) + [DigitChar(ch % 10)];
      }
    }
  }

  /** The examples the module's own self-test expects to be rejected. */
  lemma RejectedConstructions(fc: FloatCodec)
    ensures ApplyValues(fc, PyInt(123), PyStr("X"), PyInt(123)) == Err(ValueError)
    ensures ApplyValues(fc, PyStr("1234"), PyStr("F"), PyFloat(12.3)) == Err(ValueError)
    ensures ApplyValues(fc, PyStr("x"), PyStr("F"), PyStr("12.3")) == Err(ValueError)
    ensures ApplyValues(fc, PyInt(0), PyStr("F"), PyStr("asdf")) == Err(ValueError)
    ensures ApplyValues(fc, PyInt(123), PyStr("S"), PyStr(Repeat("asdf", 100))) == Err(ValueError)
  {
    WideChannelRejected(fc);
    TextChannelRejected(fc);
    WordFloatRejected(fc);
    LongTextRejected(fc);
  }

  lemma WideChannelRejected(fc: FloatCodec)
    ensures ApplyValues(fc, PyStr("1234"), PyStr("F"), PyFloat(12.3)) == Err(ValueError)
  {
    assert ParseInt("1234") == Some(1234) by {
      assert "1234"[..3] == "123" && "123"[..2] == "12" && "12"[..1] == "1" && "1"[..0] == "";
      assert DigitsValue("1234") == DigitsValue("123") * 10 + 4;
      assert DigitsValue("123") == DigitsValue("12") * 10 + 3;
      assert DigitsValue("12") == DigitsValue("1") * 10 + 2;
    }
  }

  lemma TextChannelRejected(fc: FloatCodec)
    ensures ApplyValues(fc, PyStr("x"), PyStr("F"), PyStr("12.3")) == Err(ValueError)
  {
    assert !IsDigit('x');
  }

  lemma WordFloatRejected(fc: FloatCodec)
    ensures ApplyValues(fc, PyInt(0), PyStr("F"), PyStr("asdf")) == Err(ValueError)
  {
    assert FloatOfStr(fc, "asdf") == None by {
      assert !IsDigit('a');
      assert !HasDigit("asdf");
    }
  }

  lemma LongTextRejected(fc: FloatCodec)
    ensures ApplyValues(fc, PyInt(123), PyStr("S"), PyStr(Repeat("asdf", 100))) == Err(ValueError)
  {
    var long := Repeat("asdf", 100);
    assert |long| == 400;
    assert |ToString(fc, Cmd(123, TextVal(long)))| > MaxFrameLength;
  }

  function Repeat(s: string, n: nat): (r: string)
    ensures |r| == n * |s|
  {
    if n == 0 then "" else s + Repeat(s, n - 1)
  }

  // ---------------------------------------------------------------------
  // Parsing: re.match(r"#(\d{1,3})([FS])(.+);", s)
  // ---------------------------------------------------------------------

  /** The three groups of a successful match. */
  datatype Groups = Groups(digits: string, tag: char, body: string)

  function LeadingDigits(s: string): (n: nat)
    ensures n <= |s| && AllDigits(s[..n])
    ensures n < |s| ==> !IsDigit(s[n])
  {
    if |s| == 0 || !IsDigit(s[0]) then 0
    else
      var k := LeadingDigits(s[1..]);
      assert s[..k + 1] == [s[0]] + s[1..][..k];
      k + 1
  }

  /** The prefix of `s` up to (excluding) the first newline. */
  function Line(s: string): (l: string)
    ensures |l| <= |s| && l == s[..|l|]
    ensures '\n' !in l
    ensures |l| < |s| ==> s[|l|] == '\n'
  {
    if |s| == 0 || s[0] == '\n' then ""
    else
      var t := Line(s[1..]);
      assert [s[0]] + t == s[..|t| + 1];
      [s[0]] + t
  }

  /** Index of the last occurrence of `c` in `s`. */
  function LastIndex(s: string, c: char): (r: Option<nat>)
    ensures r.Some? ==> r.value < |s| && s[r.value] == c && c !in s[r.value + 1..]
    ensures r.None? ==> c !in s
  {
    if |s| == 0 then None
    else if s[|s| - 1] == c then Some(|s| - 1)
    else
      var r := LastIndex(s[..|s| - 1], c);
      if r.Some? then
        assert s[r.value + 1..] == s[..|s| - 1][r.value + 1..] + [s[|s| - 1]];
        r
      else
        assert s == s[..|s| - 1] + [s[|s| - 1]];
        r
  }

  /**
   * The regular expression, matched at the start of `s` only: `\d{1,3}`
   * takes at most three digits (backtracking cannot help, since a digit is
   * never `F` or `S`), and the greedy `.+` stops at the last `;` before the
   * first newline. Text after that `;` is ignored.
   */
  function MatchFrame(s: string): (m: Option<Groups>)
    ensures m.Some? ==> MatchedPrefix(s, m.value)
  {
    if |s| < 2 || s[0] != '#' then None
    else
      var n := LeadingDigits(s[1..]);
      var d := if n > 3 then 3 else n;
      if d == 0 || 1 + d >= |s| || (s[1 + d] != 'F' && s[1 + d] != 'S') then None
      else
        var line := Line(s[2 + d..]);
        match LastIndex(line, ';')
        case None => None
        case Some(j) =>
          if j == 0 then None
          else
            MatchedShape(s, n, d, line, j);
            Some(Groups(s[1..1 + d], s[1 + d], line[..j]))
  }

  /** `s` starts with the text the groups `g` and the regex's literals spell. */
  predicate MatchedPrefix(s: string, g: Groups) {
    && 1 <= |g.digits| <= 3 && AllDigits(g.digits)
    && (g.tag == 'F' || g.tag == 'S')
    && |g.body| >= 1 && '\n' !in g.body
    && |s| >= |g.digits| + |g.body| + 3
    && s[..|g.digits| + |g.body| + 3] == "#" + g.digits + [g.tag] + g.body + ";"
  }

  lemma MatchedShape(s: string, n: nat, d: nat, line: string, j: nat)
    requires |s| >= 2 && s[0] == '#'
    requires n == LeadingDigits(s[1..]) && d == (if n > 3 then 3 else n) && d >= 1
    requires 1 + d < |s| && (s[1 + d] == 'F' || s[1 + d] == 'S')
    requires line == Line(s[2 + d..])
    requires 1 <= j < |line| && line[j] == ';'
    ensures MatchedPrefix(s, Groups(s[1..1 + d], s[1 + d], line[..j]))
  {
    DigitsGroup(s, n, d);
    assert line == s[2 + d..][..|line|];
    SpelledPrefix(s, d, line, j);
  }

  /** The digits group is the leading digits, at most three. */
  lemma DigitsGroup(s: string, n: nat, d: nat)
    requires |s| >= 2 && n == LeadingDigits(s[1..]) && d == (if n > 3 then 3 else n) && 1 <= d < |s|
    ensures AllDigits(s[1..1 + d])
  {
    assert s[1..1 + d] == s[1..][..n][..d];
  }

  /** The text the regex consumed, from `#` to the `;` at `line[j]`. */
  lemma SpelledPrefix(s: string, d: nat, line: string, j: nat)
    requires 2 + d + |line| <= |s| && s[0] == '#'
    requires line == s[2 + d..][..|line|]
    requires j < |line| && line[j] == ';'
    ensures |s| >= d + j + 3
    ensures s[..d + j + 3] == "#" + s[1..1 + d] + [s[1 + d]] + line[..j] + ";"
  {
    var t := "#" + s[1..1 + d] + [s[1 + d]] + line[..j] + ";";
    assert |t| == d + j + 3;
    forall i | 0 <= i < d + j + 3
      ensures s[i] == t[i]
    {
      if i >= 2 + d {
        assert s[i] == s[2 + d..][..|line|][i - 2 - d];
      }
    }
  }

  /** A frame built from well-formed groups is matched with exactly those groups. */
  lemma MatchBuiltFrame(digits: string, tag: char, body: string)
    requires 1 <= |digits| <= 3 && AllDigits(digits)
    requires tag == 'F' || tag == 'S'
    requires |body| >= 1 && '\n' !in body && ';' !in body
    ensures MatchFrame("#" + digits + [tag] + body + ";") == Some(Groups(digits, tag, body))
  {
    var s := "#" + digits + [tag] + body + ";";
    FrameParts(digits, tag, body);
    LeadingDigitsPrefix(digits, [tag] + body + ";");
    TerminatedBody(body);
  }

  /** Where the pieces of a built frame sit. */
  lemma FrameParts(digits: string, tag: char, body: string)
    ensures var s := "#" + digits + [tag] + body + ";";
            && s[0] == '#' && s[1..] == digits + ([tag] + body + ";")
            && s[1 + |digits|] == tag && s[2 + |digits|..] == body + ";" && s[1..1 + |digits|] == digits
  {
  }

  /** A body without newline or `;`, then `;`: one line whose last `;` ends it. */
  lemma TerminatedBody(body: string)
    requires '\n' !in body && ';' !in body
    ensures Line(body + ";") == body + ";"
    ensures LastIndex(body + ";", ';') == Some(|body|) && (body + ";")[..|body|] == body
  {
    LineOfPrefix(body + ";", "");
    assert body + ";" + "" == body + ";";
    assert Line("") == "";
  }

  lemma LeadingDigitsPrefix(digits: string, t: string)
    requires AllDigits(digits)
    requires |t| >= 1 && !IsDigit(t[0])
    ensures LeadingDigits(digits + t) == |digits|
    decreases |digits|
  {
    if |digits| > 0 {
      assert (digits + t)[1..] == digits[1..] + t;
      LeadingDigitsPrefix(digits[1..], t);
    } else {
      assert digits + t == t;
    }
  }

  /** A newline-free prefix belongs to the first line. */
  lemma {:induction false} LineOfPrefix(a: string, b: string)
    requires '\n' !in a
    ensures Line(a + b) == a + Line(b)
    decreases |a|
  {
    if |a| > 0 {
      assert (a + b)[1..] == a[1..] + b;
      assert (a + b)[0] == a[0];
      LineOfPrefix(a[1..], b);
      assert a == [a[0]] + a[1..];
    } else {
      assert a + b == b;
    }
  }

  /** `_parse_command_string`: match, coerce, then `_apply_values`. */
  function ParseFrame(fc: FloatCodec, s: string): (r: Result<Command>)
    ensures r.Ok? ==> Valid(fc, r.value)
    ensures r.Ok? ==> MatchFrame(s).Some? && r.value.channel == DigitsValue(MatchFrame(s).value.digits)
    ensures r.Ok? ==> TypeTag(r.value.value) == MatchFrame(s).value.tag
    ensures r.Ok? && r.value.value.TextVal? ==> r.value.value.s == MatchFrame(s).value.body
    ensures r.Err? ==> r.error == ValueError
  {
    match MatchFrame(s)
    case None => Err(ValueError)
    case Some(g) =>
      var ch := DigitsValue(g.digits);
      if g.tag == 'F' then
        (match FloatOfStr(fc, g.body)
         case None => Err(ValueError)
         case Some(x) => ApplyValues(fc, PyInt(ch), PyStr("F"), PyFloat(x)))
      else
        ApplyValues(fc, PyInt(ch), PyStr("S"), PyStr(g.body))
  }

  /** `_StringBasedCommand(cmd_string)`: `None` and `""` leave the fields unset. */
  function FromString(fc: FloatCodec, arg: PyVal): (r: Result<Command>)
    ensures arg == PyNone || arg == PyStr("") ==> r == Ok(Blank)
    ensures arg.PyInt? || arg.PyFloat? ==> r == Err(TypeError)
    ensures arg.PyStr? && arg.s != "" ==> r == ParseFrame(fc, arg.s)
  {
    match arg
    case PyNone => Ok(Blank)
    case PyStr(s) => if s == "" then Ok(Blank) else ParseFrame(fc, s)
    case _ => Err(TypeError)
  }

  /**
   * `Command(*args, **kwargs)`: the constructor dispatches on the shape of
   * its arguments. The fields it resets after the first `__init__` are
   * filled again by the second `__init__` Python runs on the returned object,
   * so one validation describes the result.
   */
  function New(fc: FloatCodec, args: seq<PyVal>, kwargs: map<string, PyVal>): (r: Result<Command>)
    ensures |args| == 0 && |kwargs| == 0 ==> r == Ok(Blank)
    ensures |args| == 1 && |kwargs| == 0 ==> r == FromString(fc, args[0])
    ensures |args| == 3 && |kwargs| == 0 && PyNone in args ==> r == Err(ValueError)
    ensures |args| == 0 && |kwargs| == 3 && kwargs.Keys != {"channel", "type", "value"} ==> r == Err(ValueError)
    ensures !((|args| == 0 && |kwargs| in {0, 3}) || (|args| in {1, 3} && |kwargs| == 0)) ==> r == Err(ValueError)
    ensures r.Ok? && r.value.Cmd? ==> Valid(fc, r.value)
  {
    if |args| == 0 && |kwargs| == 0 then Ok(Blank)
    else if |args| == 1 && |kwargs| == 0 then FromString(fc, args[0])
    else if |args| == 0 && |kwargs| == 3 then
      if "channel" in kwargs && "type" in kwargs && "value" in kwargs then
        ThreeNamedKeys(kwargs);
        ApplyValues(fc, kwargs["channel"], kwargs["type"], kwargs["value"])
      else
        KeysOfThree(kwargs);
        Err(ValueError)
    else if |args| == 3 && |kwargs| == 0 then
      if args[0] == PyNone || args[1] == PyNone || args[2] == PyNone then Err(ValueError)
      else ApplyValues(fc, args[0], args[1], args[2])
    else
      Err(ValueError)
  }

  lemma KeysOfThree(kwargs: map<string, PyVal>)
    requires !("channel" in kwargs && "type" in kwargs && "value" in kwargs)
    ensures kwargs.Keys != {"channel", "type", "value"}
  {
  }

  /** Three keys that include the three names are exactly those names. */
  lemma ThreeNamedKeys(kwargs: map<string, PyVal>)
    requires |kwargs| == 3
    requires "channel" in kwargs && "type" in kwargs && "value" in kwargs
    ensures kwargs.Keys == {"channel", "type", "value"}
  {
    var names := {"channel", "type", "value"};
    var keys := kwargs.Keys;
    assert |names| == 3;
    assert keys == names + (keys - names);
    assert names * (keys - names) == {};
    assert |keys| == |kwargs|;
  }

  /** The positional form `Command(channel, type, value)` used throughout the server. */
  function Make(fc: FloatCodec, channel: int, tag: char, value: PyVal): (r: Result<Command>)
    ensures value != PyNone ==> r == ApplyValues(fc, PyInt(channel), PyStr([tag]), value)
  {
    New(fc, [PyInt(channel), PyStr([tag]), value], map[])
  }

  /** A short text on a valid channel always makes a command. */
  lemma MakeText(fc: FloatCodec, channel: int, s: string)
    requires 0 <= channel <= MaxChannel
    requires '#' !in s && ';' !in s && |s| <= 248
    ensures Make(fc, channel, 'S', PyStr(s)) == Ok(Cmd(channel, TextVal(s)))
  {
    IntTextLength(channel);
    assert |ToString(fc, Cmd(channel, TextVal(s)))| <= MaxFrameLength;
  }

  /** A small integral float on a valid channel always makes a command. */
  lemma MakeIntegral(fc: FloatCodec, channel: int, v: PyVal, x: int)
    requires 0 <= channel <= MaxChannel
    requires -1000 <= x <= 1000
    requires v == PyInt(x) || v == PyFloat(x as real) || v == PyStr(IntText(x))
    ensures Make(fc, channel, 'F', v) == Ok(Cmd(channel, FloatVal(x as real)))
  {
    IntTextParses(x);
    assert FloatOf(fc, v) == Ok(x as real);
    IntegralFrameShort(fc, channel, x);
    MakeConverted(fc, channel, v, x as real);
  }

  /** An F command whose value converts and whose frame fits is made. */
  lemma MakeConverted(fc: FloatCodec, channel: int, v: PyVal, x: real)
    requires 0 <= channel <= MaxChannel
    requires v != PyNone && FloatOf(fc, v) == Ok(x)
    requires |ToString(fc, Cmd(channel, FloatVal(x)))| <= MaxFrameLength
    ensures Make(fc, channel, 'F', v) == Ok(Cmd(channel, FloatVal(x)))
  {
    assert IntOf(PyInt(channel)) == Ok(channel);
  }

  lemma IntegralFrameShort(fc: FloatCodec, channel: int, x: int)
    requires 0 <= channel <= MaxChannel
    requires -1000 <= x <= 1000
    ensures |ToString(fc, Cmd(channel, FloatVal(x as real)))| <= MaxFrameLength
  {
    IntTextLength(channel);
    IntTextBound(x);
    assert (x as real).Floor == x;
    assert ShowFloat(fc, x as real) == IntText(x) + ".0";
  }

  lemma IntTextBound(x: int)
    requires -1000 <= x <= 1000
    ensures |IntText(x)| <= 5
  {
    var n: nat := if x < 0 then -x else x;
    assert Pow10(3) == 1000 by {
      assert Pow10(1) == 10;
      assert Pow10(2) == 100;
    }
    NatTextBound(n, 3);
  }

  lemma {:induction false} NatTextBound(n: nat, k: nat)
    requires n <= Pow10(k)
    ensures |NatText(n)| <= k + 1
  {
    if n >= 10 {
      assert Pow10(0) == 1;
      assert k >= 1;
      NatTextBound(n / 10, k - 1);
    }
  }

  function Pow10(k: nat): nat {
    if k == 0 then 1 else 10 * Pow10(k - 1)
  }

  // ---------------------------------------------------------------------
  // Round trips
  // ---------------------------------------------------------------------

  /** Parsing a valid S command's frame gives the command back, when its text is non-empty and has no newline. */
  lemma TextRoundTrip(fc: FloatCodec, c: Command)
    requires Valid(fc, c) && c.value.TextVal?
    requires |c.value.s| >= 1 && '\n' !in c.value.s
    ensures ParseFrame(fc, ToString(fc, c)) == Ok(c)
    ensures New(fc, [PyStr(ToString(fc, c))], map[]) == Ok(c)
  {
    var digits := IntText(c.channel);
    var frame := ToString(fc, c);
    NatTextValue(c.channel);
    IntTextLength(c.channel);
    MatchBuiltFrame(digits, 'S', c.value.s);
    assert frame == "#" + digits + ['S'] + c.value.s + ";";
    ParseMatchedText(fc, frame, Groups(digits, 'S', c.value.s));
    ValidIsConstructible(fc, c);
    FrameArgument(fc, frame);
  }

  /** What `_parse_command_string` does with the groups of a matched S frame. */
  lemma ParseMatchedText(fc: FloatCodec, s: string, g: Groups)
    requires MatchFrame(s) == Some(g) && g.tag == 'S'
    ensures ParseFrame(fc, s) == ApplyValues(fc, PyInt(DigitsValue(g.digits)), PyStr("S"), PyStr(g.body))
  {
  }

  /** What `_parse_command_string` does with the groups of a matched F frame whose body reads as a float. */
  lemma ParseMatchedFloat(fc: FloatCodec, s: string, g: Groups, x: real)
    requires MatchFrame(s) == Some(g) && g.tag == 'F' && FloatOfStr(fc, g.body) == Some(x)
    ensures ParseFrame(fc, s) == ApplyValues(fc, PyInt(DigitsValue(g.digits)), PyStr("F"), PyFloat(x))
  {
  }

  /** A single positional string argument is parsed as a frame. */
  lemma FrameArgument(fc: FloatCodec, frame: string)
    requires |frame| >= 1
    ensures New(fc, [PyStr(frame)], map[]) == ParseFrame(fc, frame)
  {
  }

  /** Under the same conditions an F command round-trips when its float text reads back as the float. */
  predicate FloatTextReads(fc: FloatCodec, x: real) {
    var t := ShowFloat(fc, x);
    |t| >= 1 && '\n' !in t && ';' !in t && FloatOfStr(fc, t) == Some(x)
  }

  lemma FloatRoundTrip(fc: FloatCodec, c: Command)
    requires Valid(fc, c) && c.value.FloatVal?
    requires FloatTextReads(fc, c.value.x)
    ensures ParseFrame(fc, ToString(fc, c)) == Ok(c)
  {
    var digits := IntText(c.channel);
    var body := ShowFloat(fc, c.value.x);
    var frame := ToString(fc, c);
    NatTextValue(c.channel);
    IntTextLength(c.channel);
    MatchBuiltFrame(digits, 'F', body);
    assert frame == "#" + digits + ['F'] + body + ";";
    ParseMatchedFloat(fc, frame, Groups(digits, 'F', body), c.value.x);
    ValidIsConstructible(fc, c);
  }

  /** Integral floats below 2^53 satisfy the F round-trip condition whatever the codec. */
  lemma IntegralFloatReads(fc: FloatCodec, x: real)
    requires Integral(x) && ExactInt(x.Floor)
    ensures FloatTextReads(fc, x)
  {
    ShowFloatReads(fc, x);
    var t := ShowFloat(fc, x);
    assert t == IntText(x.Floor) + ".0";
    NatTextNoSeparators(if x.Floor < 0 then -x.Floor else x.Floor);
  }

  lemma NatTextNoSeparators(n: nat)
    ensures '\n' !in NatText(n) && ';' !in NatText(n) && '#' !in NatText(n)
  {
    var t := NatText(n);
    assert forall i :: 0 <= i < |t| ==> IsDigit(t[i]);
  }

  /** An S command with an empty text is valid, but its frame `#nS;` does not parse. */
  lemma EmptyTextNotReparsed(fc: FloatCodec, channel: int)
    requires 0 <= channel <= MaxChannel
    ensures Valid(fc, Cmd(channel, TextVal("")))
    ensures ParseFrame(fc, ToString(fc, Cmd(channel, TextVal("")))) == Err(ValueError)
  {
    IntTextLength(channel);
    NatTextValue(channel);
    var t := IntText(channel);
    assert ToString(fc, Cmd(channel, TextVal(""))) == "#" + t + "S;";
    EmptyBodyUnmatched(t);
    UnmatchedRejected(fc, "#" + t + "S;");
  }

  lemma EmptyBodyUnmatched(t: string)
    requires 1 <= |t| <= 3 && AllDigits(t)
    ensures MatchFrame("#" + t + "S;") == None
  {
    var s := "#" + t + "S;";
    assert s[1..] == t + "S;";
    LeadingDigitsPrefix(t, "S;");
    assert s[1 + |t|] == 'S';
    assert s[2 + |t|..] == ";";
    assert Line(";") == ";";
    assert LastIndex(";", ';') == Some(0);
  }

  /** A frame the regular expression does not match is rejected with `ValueError`. */
  lemma UnmatchedRejected(fc: FloatCodec, s: string)
    requires MatchFrame(s) == None
    ensures ParseFrame(fc, s) == Err(ValueError)
  {
  }

  /**
   * Canonical form: an accepted S frame whose channel digits have no leading
   * zero, and which ends at its `;`, is reproduced exactly by `to_string`.
   */
  lemma TextCanonical(fc: FloatCodec, frame: string)
    requires ParseFrame(fc, frame).Ok? && MatchFrame(frame).value.tag == 'S'
    requires Canonical(MatchFrame(frame).value.digits)
    requires |frame| == |MatchFrame(frame).value.digits| + |MatchFrame(frame).value.body| + 3
    ensures ToString(fc, ParseFrame(fc, frame).value) == frame
  {
    var g := MatchFrame(frame).value;
    CanonicalNatText(g.digits);
    assert frame == frame[..|g.digits| + |g.body| + 3];
  }

  /** Re-serialising any accepted S frame gives a frame that parses to the same command. */
  lemma TextReparse(fc: FloatCodec, frame: string)
    requires ParseFrame(fc, frame).Ok? && MatchFrame(frame).value.tag == 'S'
    ensures ParseFrame(fc, ToString(fc, ParseFrame(fc, frame).value)) == ParseFrame(fc, frame)
  {
    TextRoundTrip(fc, ParseFrame(fc, frame).value);
  }

  /** The malformed frames of the module's self-test are rejected. */
  lemma RejectedFrames(fc: FloatCodec)
    ensures ParseFrame(fc, "#1234X12.3;") == Err(ValueError)
    ensures ParseFrame(fc, "#1234F12.3;") == Err(ValueError)
    ensures ParseFrame(fc, "#xF12.3;") == Err(ValueError)
    ensures ParseFrame(fc, "#0FASDF;") == Err(ValueError)
  {
    FourDigitsTypeRejected(fc);
    FourDigitsFloatRejected(fc);
    LetterChannelRejected(fc);
    NonNumericFloatRejected(fc);
  }

  lemma LetterChannelRejected(fc: FloatCodec)
    ensures ParseFrame(fc, "#xF12.3;") == Err(ValueError)
  {
    var s := "#xF12.3;";
    assert |s| == 8 && s[1] == 'x';
    NoDigitsRejected(fc, s);
  }

  lemma FourDigitsTypeRejected(fc: FloatCodec)
    ensures ParseFrame(fc, "#1234X12.3;") == Err(ValueError)
  {
    FourDigitsRejected(fc, "#1234X12.3;");
  }

  lemma FourDigitsFloatRejected(fc: FloatCodec)
    ensures ParseFrame(fc, "#1234F12.3;") == Err(ValueError)
  {
    FourDigitsRejected(fc, "#1234F12.3;");
  }

  lemma NoDigitsRejected(fc: FloatCodec, s: string)
    requires |s| >= 2 && !IsDigit(s[1])
    ensures ParseFrame(fc, s) == Err(ValueError)
  {
    assert s[1..][0] == s[1];
  }

  /** `\d{1,3}` followed by a fourth digit cannot be followed by the type letter. */
  lemma FourDigitsRejected(fc: FloatCodec, s: string)
    requires |s| >= 5 && IsDigit(s[1]) && IsDigit(s[2]) && IsDigit(s[3]) && IsDigit(s[4])
    ensures ParseFrame(fc, s) == Err(ValueError)
  {
    FourDigitsUnmatched(s);
  }

  lemma FourDigitsUnmatched(s: string)
    requires |s| >= 5 && IsDigit(s[1]) && IsDigit(s[2]) && IsDigit(s[3]) && IsDigit(s[4])
    ensures MatchFrame(s) == None
  {
    var t := s[1..];
    assert t[0] == s[1] && t[1] == s[2] && t[2] == s[3] && t[3] == s[4];
    LeadingThree(t);
  }

  lemma LeadingThree(t: string)
    requires |t| >= 3 && IsDigit(t[0]) && IsDigit(t[1]) && IsDigit(t[2])
    ensures LeadingDigits(t) >= 3
  {
    assert t[1..][0] == t[1] && t[1..][1..][0] == t[2];
  }

  lemma NonNumericFloatRejected(fc: FloatCodec)
    ensures ParseFrame(fc, "#0FASDF;") == Err(ValueError)
  {
    MatchBuiltFrame("0", 'F', "ASDF");
    assert "#" + "0" + ['F'] + "ASDF" + ";" == "#0FASDF;";
    WordNotFloat(fc);
    UnreadFloatRejected(fc, "#0FASDF;", Groups("0", 'F', "ASDF"));
  }

  lemma WordNotFloat(fc: FloatCodec)
    ensures FloatOfStr(fc, "ASDF") == None
  {
    assert !HasDigit("ASDF") by {
      assert !IsDigit('A') && !IsDigit('S') && !IsDigit('D') && !IsDigit('F');
    }
    assert !SpecialFloatWord("ASDF") by {
      assert LowerText("ASDF") == "asdf";
    }
  }

  /** A matched F frame whose body `float()` refuses is rejected with `ValueError`. */
  lemma UnreadFloatRejected(fc: FloatCodec, s: string, g: Groups)
    requires MatchFrame(s) == Some(g) && g.tag == 'F' && FloatOfStr(fc, g.body) == None
    ensures ParseFrame(fc, s) == Err(ValueError)
  {
  }

  /** The keyword form turns a `None` S value into the text "None"; the positional form rejects it. */
  lemma KeywordNoneValue(fc: FloatCodec)
    ensures New(fc, [], map["channel" := PyInt(1), "type" := PyStr("S"), "value" := PyNone]) == Ok(Cmd(1, TextVal("None")))
    ensures New(fc, [PyInt(1), PyStr("S"), PyNone], map[]) == Err(ValueError)
  {
    var kw := map["channel" := PyInt(1), "type" := PyStr("S"), "value" := PyNone];
    assert kw.Keys == {"channel", "type", "value"};
    assert |kw| == 3 by {
      assert |kw.Keys| == 3;
    }
    MakeText(fc, 1, "None");
  }

  /** A single keyword argument, as in `Command(cmd_string=...)`, always raises. */
  lemma SingleKeywordRejected(fc: FloatCodec, s: PyVal)
    ensures New(fc, [], map["cmd_string" := s]) == Err(ValueError)
  {
    assert |map["cmd_string" := s]| == 1 by {
      assert map["cmd_string" := s].Keys == {"cmd_string"};
    }
  }

  // ---------------------------------------------------------------------
  // The type set as written
  // ---------------------------------------------------------------------

  /** The module name Python records as `Command.Type.__module__` when the package is imported. */
  const ModuleName: string := "MeasurementSystem.core.comvisu.Command"

  /**
   * The string members of `set(vars(Command.Type).values())`: besides the
   * two tags, the class namespace holds its module name and its docstring.
   */
  function TypeSetAsWritten(): set<PyVal> {
    {PyStr("F"), PyStr("S"), PyStr(ModuleName),
     PyStr("\n        :class:`Type` provides valid data types for Command.Type.\n        ")}
  }

  /**
   * `_apply_values` with the membership test as written, returning the
   * frame the object would print; a type other than F/S keeps the raw value.
   */
  function ApplyValuesAsWritten(fc: FloatCodec, channel: PyVal, typ: PyVal, value: PyVal): (r: Result<string>)
    ensures typ in {PyStr("F"), PyStr("S")} ==>
              (r.Ok? <==> ApplyValues(fc, channel, typ, value).Ok?)
    ensures typ in {PyStr("F"), PyStr("S")} && r.Ok? ==> r.value == ToString(fc, ApplyValues(fc, channel, typ, value).value)
  {
    match IntOf(channel)
    case Err(_) => Err(ValueError)
    case Ok(ch) =>
      if ch < 0 || ch > MaxChannel then Err(ValueError)
      else if typ !in TypeSetAsWritten() then Err(ValueError)
      else if typ == PyStr("F") || typ == PyStr("S") then
        match ApplyValues(fc, channel, typ, value)
        case Ok(c) => Ok(ToString(fc, c))
        case Err(e) => Err(e)
      else
        var frame := "#" + IntText(ch) + typ.s + StrOf(fc, value) + ";";
        if |frame| > MaxFrameLength then Err(ValueError) else Ok(frame)
  }

  /** The module name is accepted as a type, and the frame it produces cannot be parsed back. */
  lemma TypeSetQuirk(fc: FloatCodec)
    ensures ApplyValuesAsWritten(fc, PyInt(1), PyStr(ModuleName), PyStr("x")) == Ok("#1" + ModuleName + "x;")
    ensures ParseFrame(fc, "#1" + ModuleName + "x;") == Err(ValueError)
    ensures ApplyValues(fc, PyInt(1), PyStr(ModuleName), PyStr("x")) == Err(ValueError)
  {
    ModuleNameAccepted(fc);
    ModuleFrameUnmatched();
    UnmatchedRejected(fc, "#1" + ModuleName + "x;");
  }

  lemma ModuleNameAccepted(fc: FloatCodec)
    ensures ApplyValuesAsWritten(fc, PyInt(1), PyStr(ModuleName), PyStr("x")) == Ok("#1" + ModuleName + "x;")
  {
    assert IntText(1) == "1";
    assert "#" + IntText(1) + ModuleName + StrOf(fc, PyStr("x")) + ";" == "#1" + ModuleName + "x;";
    assert PyStr(ModuleName) in TypeSetAsWritten();
  }

  lemma ModuleFrameUnmatched()
    ensures MatchFrame("#1" + ModuleName + "x;") == None
  {
    var s := "#1" + ModuleName + "x;";
    assert s[1..] == "1" + (ModuleName + "x;");
    LeadingDigitsPrefix("1", ModuleName + "x;");
    assert s[2] == 'M';
  }
}
