/**
 * The conversion models a channel applies to its raw reading: linear,
 * stacked (a pipeline of models), NTC and KTY thermistors and platinum
 * resistance sensors, their textual form and the class registry.
 *
 * Arithmetic is over the reals; `log` and `sqrt` are supplied by a `Math`
 * value, and every Python exception of the formulas (division by zero, a
 * math domain error) is an explicit error result.
 */
module Models {
  import opened Wrappers
  import opened PyText

  /** A model parameter as Python holds it: an `int` or a `float`. */
  datatype Num = IntNum(i: int) | FloatNum(x: real)

  function Real(n: Num): real {
    match n
    case IntNum(i) => i as real
    case FloatNum(x) => x
  }

  /** `str(n)` as used in the f-strings of `to_string`. */
  function NumText(fc: FloatCodec, n: Num): string {
    match n
    case IntNum(i) => IntText(i)
    case FloatNum(x) => ShowFloat(fc, x)
  }

  /** The temperature coefficient `PTxModel` fixes. */
  const PtAlpha: real := 0.00385

  /** The offset between degrees Celsius and kelvin. */
  const Kelvin: real := 273.15

  datatype Model =
    | Linear(offset: Num, gain: Num)
    | Stacked(models: seq<Model>)
    /** `t0K` is the reference temperature as stored: in kelvin. */
    | NTC(r0: Num, beta: Num, t0K: real)
    | PTx(r0: Num)
    | KTYx(kr0: Num, alpha: Num, kbeta: Num, t0: Num)

  /** `NTCModel(r0, beta, t0)`: the reference temperature is given in Celsius and stored in kelvin. */
  function NewNTC(r0: Num, beta: Num, t0: Num): (m: Model)
    ensures m.NTC? && m.t0K - Kelvin == Real(t0)
  {
    NTC(r0, beta, Real(t0) + Kelvin)
  }

  /** `NTCModel(r0, beta)`: the reference temperature defaults to 25 °C. */
  function NewNTCDefault(r0: Num, beta: Num): (m: Model)
    ensures m == NewNTC(r0, beta, IntNum(25))
  {
    NTC(r0, beta, 298.15)
  }

  /** `KTYxModel(r0)` with the KTY81-110 defaults. */
  function NewKTYxDefault(r0: Num): (m: Model)
    ensures m.KTYx? && Real(m.alpha) == 0.00788 && Real(m.kbeta) == 0.00001937 && Real(m.t0) == 25.0
  {
    KTYx(r0, FloatNum(0.00788), FloatNum(0.00001937), FloatNum(25.0))
  }

  /** The transcendental functions the thermistor formulas call. */
  datatype Math = Math(log: real -> real, sqrt: real -> real)

  /** `a / b` in Python: a zero divisor raises. */
  function Div(a: real, b: real): (r: Result<real>)
    ensures r.Ok? <==> b != 0.0
    ensures r.Ok? ==> r.value * b == a
    ensures r.Err? ==> r.error == ZeroDivisionError
  {
    if b == 0.0 then Err(ZeroDivisionError) else Ok(a / b)
  }

  /** `model.apply(value)`. */
  function Apply(mt: Math, m: Model, x: real): (r: Result<real>)
    ensures m.PTx? ==> (r.Err? <==> Real(m.r0) == 0.0)
    ensures m.PTx? && r.Ok? ==> r.value * (Real(m.r0) * PtAlpha) == x - Real(m.r0)
    ensures r.Err? ==> r.error in {ZeroDivisionError, ValueError}
    decreases m, 1
  {
    match m
    case Linear(offset, gain) => Ok(x * Real(gain) + Real(offset))
    case Stacked(models) => ApplyAll(mt, models, x)
    case NTC(r0, beta, t0K) => NTCFormula(mt, Real(r0), Real(beta), t0K, x)
    case PTx(r0) => Div(x - Real(r0), Real(r0) * PtAlpha)
    case KTYx(r0, alpha, beta, t0) => KTYFormula(mt, Real(r0), Real(alpha), Real(beta), Real(t0), x)
  }

  /** `1 / (1/T0 + 1/beta * log(R/R0)) - 273.15`, evaluated left to right. */
  function NTCFormula(mt: Math, r0: real, beta: real, t0K: real, x: real): (r: Result<real>)
    ensures r.Err? ==> r.error in {ZeroDivisionError, ValueError}
  {
    var invT0 :- Div(1.0, t0K);
    var invBeta :- Div(1.0, beta);
    var ratio :- Div(x, r0);
    if ratio <= 0.0 then Err(ValueError)
    else
      var t :- Div(1.0, invT0 + invBeta * mt.log(ratio));
      Ok(t - Kelvin)
  }

  function Sq(a: real): real {
    a * a
  }

  /** `T0 + (sqrt(alpha^2 - 4 beta + 4 beta R/R0) - alpha) / (2 beta)`. */
  function KTYFormula(mt: Math, r0: real, alpha: real, beta: real, t0: real, x: real): (r: Result<real>)
    ensures r.Err? ==> r.error in {ZeroDivisionError, ValueError}
  {
    var kT :- Div(x, r0);
    var y := Sq(alpha) - 4.0 * beta + 4.0 * beta * kT;
    if y < 0.0 then Err(ValueError)
    else
      var q :- Div(mt.sqrt(y) - alpha, 2.0 * beta);
      Ok(t0 + q)
  }

  /** `StackedModel.apply`: each model's output is the next one's input, first model first. */
  function ApplyAll(mt: Math, ms: seq<Model>, x: real): (r: Result<real>)
    ensures |ms| == 0 ==> r == Ok(x)
    ensures r.Err? ==> r.error in {ZeroDivisionError, ValueError}
    decreases ms, 0
  {
    if |ms| == 0 then Ok(x)
    else
      var y :- Apply(mt, ms[0], x);
      ApplyAll(mt, ms[1..], y)
  }

  /** Stacking is composition: a stack split in two applies the first part, then the second. */
  lemma {:induction false} StackAppend(mt: Math, a: seq<Model>, b: seq<Model>, x: real)
    ensures ApplyAll(mt, a + b, x) ==
            match ApplyAll(mt, a, x)
            case Ok(y) => ApplyAll(mt, b, y)
            case Err(e) => Err(e)
    decreases |a|
  {
    if |a| == 0 {
      assert a + b == b;
    } else {
      assert (a + b)[0] == a[0];
      assert (a + b)[1..] == a[1..] + b;
      match Apply(mt, a[0], x)
      case Ok(y) =>
        StackAppend(mt, a[1..], b, y);
      case Err(e) =>
    }
  }

  /** A stack of one model behaves as that model. */
  lemma StackSingleton(mt: Math, m: Model, x: real)
    ensures Apply(mt, Stacked([m]), x) == Apply(mt, m, x)
  {
    assert [m][1..] == [];
  }

  /** A successful result is `Ok` of its value. */
  lemma OkOf(r: Result<real>)
    requires r.Ok?
    ensures r == Ok(r.value)
  {
  }

  lemma LinearValue(mt: Math, o: Num, g: Num, x: real)
    ensures Apply(mt, Linear(o, g), x) == Ok(x * Real(g) + Real(o))
  {
    var r := Apply(mt, Linear(o, g), x);
    assert r.Ok?;
    assert r.value == x * Real(g) + Real(o);
    OkOf(r);
  }

  /** Two linear models stacked are one linear model: gains multiply, the first offset is scaled by the second gain. */
  lemma LinearStack(mt: Math, o1: Num, g1: Num, o2: Num, g2: Num, x: real)
    ensures Apply(mt, Stacked([Linear(o1, g1), Linear(o2, g2)]), x) ==
            Ok(x * (Real(g1) * Real(g2)) + (Real(o1) * Real(g2) + Real(o2)))
  {
    var ms := [Linear(o1, g1), Linear(o2, g2)];
    var y := x * Real(g1) + Real(o1);
    var z := y * Real(g2) + Real(o2);
    assert ms[1..] == [Linear(o2, g2)];
    assert ApplyAll(mt, [Linear(o2, g2)], y) == Ok(z) by {
      assert [Linear(o2, g2)][1..] == [];
      LinearValue(mt, o2, g2, y);
    }
    LinearValue(mt, o1, g1, x);
    assert ApplyAll(mt, ms, x) == Ok(z);
    assert z == x * (Real(g1) * Real(g2)) + (Real(o1) * Real(g2) + Real(o2));
  }

  /** The documented stack `[LinearModel(offset=100, gain=1), LinearModel(offset=0, gain=10)]` maps `x` to `(x + 100) * 10`. */
  lemma DocumentedStack(mt: Math, x: real)
    ensures Apply(mt, Stacked([Linear(IntNum(100), IntNum(1)), Linear(IntNum(0), IntNum(10))]), x) == Ok((x + 100.0) * 10.0)
  {
    LinearStack(mt, IntNum(100), IntNum(1), IntNum(0), IntNum(10), x);
  }

  /** A platinum sensor reads 0 °C at its nominal resistance and inverts `R = r0 (1 + alpha T)`. */
  lemma PTxInverse(mt: Math, r0: Num, t: real)
    requires Real(r0) != 0.0
    ensures Apply(mt, PTx(r0), Real(r0)) == Ok(0.0)
    ensures Apply(mt, PTx(r0), Real(r0) * (1.0 + PtAlpha * t)) == Ok(t)
  {
    NonZeroProduct(Real(r0), PtAlpha);
    var at := Apply(mt, PTx(r0), Real(r0) * (1.0 + PtAlpha * t));
    assert at == Div(Real(r0) * (1.0 + PtAlpha * t) - Real(r0), Real(r0) * PtAlpha);
    Expand(Real(r0), PtAlpha, t);
    DivCancel(Real(r0) * (1.0 + PtAlpha * t) - Real(r0), Real(r0) * PtAlpha, t);
    OkOf(at);
    var at0 := Apply(mt, PTx(r0), Real(r0));
    assert at0 == Div(Real(r0) - Real(r0), Real(r0) * PtAlpha);
    DivCancel(Real(r0) - Real(r0), Real(r0) * PtAlpha, 0.0);
    OkOf(at0);
  }

  lemma NonZeroProduct(a: real, b: real)
    requires a != 0.0 && b != 0.0
    ensures a * b != 0.0
  {
  }

  lemma Expand(r: real, alpha: real, t: real)
    ensures r * (1.0 + alpha * t) - r == t * (r * alpha)
  {
  }

  lemma DivCancel(a: real, d: real, t: real)
    requires d != 0.0 && a == t * d
    ensures a / d == t
  {
  }

  lemma PTxZeroResistance(mt: Math, x: real)
    ensures Apply(mt, PTx(IntNum(0)), x) == Err(ZeroDivisionError)
    ensures Apply(mt, PTx(FloatNum(0.0)), x) == Err(ZeroDivisionError)
  {
  }

  /** At its nominal resistance an NTC thermistor reads its reference temperature, given in Celsius (with `log(1) == 0`). */
  lemma NTCAtNominal(mt: Math, r0: Num, beta: Num, t0: Num)
    requires mt.log(1.0) == 0.0
    requires Real(r0) > 0.0 && Real(beta) != 0.0 && Real(t0) + Kelvin != 0.0
    ensures Apply(mt, NewNTC(r0, beta, t0), Real(r0)) == Ok(Real(t0))
  {
    NTCFormulaAtNominal(mt, Real(r0), Real(beta), Real(t0));
  }

  lemma NTCFormulaAtNominal(mt: Math, r0: real, beta: real, t0: real)
    requires mt.log(1.0) == 0.0
    requires r0 > 0.0 && beta != 0.0 && t0 + Kelvin != 0.0
    ensures NTCFormula(mt, r0, beta, t0 + Kelvin, r0) == Ok(t0)
  {
    DivCancel(r0, r0, 1.0);
    DivCancel(1.0, t0 + Kelvin, 1.0 / (t0 + Kelvin));
    DivCancel(1.0, 1.0 / (t0 + Kelvin), t0 + Kelvin);
    var at := NTCFormula(mt, r0, beta, t0 + Kelvin, r0);
    assert at.Ok? && at.value == t0;
    OkOf(at);
  }

  /** At its nominal resistance a KTY sensor reads its reference temperature, given `sqrt(alpha^2) == alpha`. */
  lemma KTYFormulaAtNominal(mt: Math, r0: real, alpha: real, beta: real, t0: real)
    requires mt.sqrt(Sq(alpha)) == alpha
    requires r0 != 0.0 && beta != 0.0
    ensures KTYFormula(mt, r0, alpha, beta, t0, r0) == Ok(t0)
  {
    DivCancel(r0, r0, 1.0);
    Quadratic(alpha, beta, r0 / r0);
    NonZeroProduct(2.0, beta);
    DivCancel(mt.sqrt(Sq(alpha)) - alpha, 2.0 * beta, 0.0);
    var at := KTYFormula(mt, r0, alpha, beta, t0, r0);
    assert at.Ok? && at.value == t0;
    OkOf(at);
  }

  lemma Quadratic(a: real, b: real, k: real)
    requires k == 1.0
    ensures Sq(a) - 4.0 * b + 4.0 * b * k == Sq(a)
    ensures Sq(a) >= 0.0
  {
    if a < 0.0 {
      assert a * a == (-a) * (-a);
    }
  }

  /** `model.to_string()`. */
  function ToText(fc: FloatCodec, m: Model): (s: string)
    decreases m, 1
  {
    match m
    case Linear(offset, gain) =>
      "LinearModel(offset=" + NumText(fc, offset) + ", gain=" + NumText(fc, gain) + ")"
    case Stacked(models) => "StackedModel([" + Join(TextsOf(fc, models), ", ") + "])"
    case NTC(r0, beta, t0K) =>
      "NTCModel(r0=" + NumText(fc, r0) + ", beta=" + NumText(fc, beta) + ", t0=" + ShowFloat(fc, t0K - Kelvin) + ")"
    case PTx(r0) => "PTxModel(r0=" + NumText(fc, r0) + ")"
    case KTYx(r0, alpha, beta, t0) =>
      "KTYxModel(r0=" + NumText(fc, r0) + ", alpha=" + NumText(fc, alpha) + ", beta=" + NumText(fc, beta) +
      ", t0=" + NumText(fc, t0) + ")"
  }

  function TextsOf(fc: FloatCodec, ms: seq<Model>): (ts: seq<string>)
    ensures |ts| == |ms|
    ensures forall i :: 0 <= i < |ms| ==> ts[i] == ToText(fc, ms[i])
    decreases ms, 0
  {
    if |ms| == 0 then [] else [ToText(fc, ms[0])] + TextsOf(fc, ms[1..])
  }

  /** An NTC model built with `t0` Celsius reports `t0` back, as a float. */
  lemma NTCReportsCelsius(fc: FloatCodec, r0: Num, beta: Num, t0: Num)
    ensures ToText(fc, NewNTC(r0, beta, t0)) ==
            "NTCModel(r0=" + NumText(fc, r0) + ", beta=" + NumText(fc, beta) + ", t0=" + ShowFloat(fc, Real(t0)) + ")"
  {
  }

  /** The stack's text lists its models' texts between `StackedModel([` and `])`, separated by `, `. */
  lemma StackedText(fc: FloatCodec, a: Model, b: Model)
    ensures ToText(fc, Stacked([])) == "StackedModel([])"
    ensures ToText(fc, Stacked([a])) == "StackedModel([" + ToText(fc, a) + "])"
    ensures ToText(fc, Stacked([a, b])) == "StackedModel([" + ToText(fc, a) + ", " + ToText(fc, b) + "])"
  {
    assert TextsOf(fc, [a]) == [ToText(fc, a)];
    assert TextsOf(fc, [a, b]) == [ToText(fc, a), ToText(fc, b)];
    assert [ToText(fc, a), ToText(fc, b)][..1] == [ToText(fc, a)];
  }

  /** The classes `ModelMeta` creates, in definition order. */
  datatype Kind = StackedKind | LinearKind | NTCKind | PTxKind | KTYxKind

  function KindName(k: Kind): string {
    match k
    case StackedKind => "StackedModel"
    case LinearKind => "LinearModel"
    case NTCKind => "NTCModel"
    case PTxKind => "PTxModel"
    case KTYxKind => "KTYxModel"
  }

  const Definitions: seq<Kind> := [StackedKind, LinearKind, NTCKind, PTxKind, KTYxKind]

  /** `ModelMeta.__init__`: a class is registered under its name, except the base class `Model`. */
  function Register(reg: map<string, Kind>, name: string, k: Kind): (r: map<string, Kind>)
    ensures name == "Model" ==> r == reg
    ensures name != "Model" ==> name in r && r[name] == k && forall n :: n in reg && n != name ==> n in r && r[n] == reg[n]
  {
    if name != "Model" then reg[name := k] else reg
  }

  function RegisterAll(reg: map<string, Kind>, ks: seq<Kind>): map<string, Kind>
    decreases |ks|
  {
    if |ks| == 0 then reg else RegisterAll(Register(reg, KindName(ks[0]), ks[0]), ks[1..])
  }

  /** After the module is loaded the registry maps each model class's name to that class and holds nothing else. */
  lemma RegistryContents()
    ensures var reg := RegisterAll(map[], Definitions);
            && reg.Keys == {"StackedModel", "LinearModel", "NTCModel", "PTxModel", "KTYxModel"}
            && "Model" !in reg
            && forall k: Kind :: KindName(k) in reg && reg[KindName(k)] == k
  {
    var reg := RegisterAll(map[], Definitions);
    assert reg == map["StackedModel" := StackedKind, "LinearModel" := LinearKind, "NTCModel" := NTCKind,
                      "PTxModel" := PTxKind, "KTYxModel" := KTYxKind];
  }
}
