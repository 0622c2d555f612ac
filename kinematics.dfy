/** `solve_kinematics` (core/kinematics.py): the five SUVAT symbols u, v, a, s, t
    and the `while True` loop whose body is one elif chain, so that each pass
    derives at most one symbol. */
module Kinematics {
  import opened Outcomes
  import opened Numerics
  import opened Knowns

  const Symbols: set<string> := {"u", "v", "a", "s", "t"}

  /** The branches of the elif chain, in source order. */
  datatype Equation =
    | VFromUAT     // v = u + a*t
    | UFromVAT     // u = v - a*t
    | AFromVUT     // a = (v - u)/t
    | TFromVUA     // t = (v - u)/a
    | SFromUVT     // s = ((u + v)/2)*t
    | SFromUAT     // s = u*t + 0.5*a*t^2
    | VFromUAS     // v = (u^2 + 2*a*s) ** 0.5
    | UFromVAS     // u = (v^2 - 2*a*s) ** 0.5
    | AFromVUS     // a = (v^2 - u^2)/(2*s)
    | TQuadratic   // t from s = u*t + 0.5*a*t^2
    | TFromUVS     // t = 2*s/(u + v)

  /** The branch the elif chain takes on the knowns k: the first whose target
      is unknown and whose inputs are all known. */
  function Select(k: State): Option<Equation>
  {
    if "v" !in k && "u" in k && "a" in k && "t" in k then Some(VFromUAT)
    else if "u" !in k && "v" in k && "a" in k && "t" in k then Some(UFromVAT)
    else if "a" !in k && "v" in k && "u" in k && "t" in k then Some(AFromVUT)
    else if "t" !in k && "v" in k && "u" in k && "a" in k then Some(TFromVUA)
    else if "s" !in k && "u" in k && "v" in k && "t" in k then Some(SFromUVT)
    else if "s" !in k && "u" in k && "a" in k && "t" in k then Some(SFromUAT)
    else if "v" !in k && "u" in k && "a" in k && "s" in k then Some(VFromUAS)
    else if "u" !in k && "v" in k && "a" in k && "s" in k then Some(UFromVAS)
    else if "a" !in k && "v" in k && "u" in k && "s" in k then Some(AFromVUS)
    else if "t" !in k && "u" in k && "a" in k && "s" in k then Some(TQuadratic)
    else if "t" !in k && "u" in k && "v" in k && "s" in k then Some(TFromUVS)
    else None
  }

  /** Python's `x ** 0.5`: the square root for x >= 0; for x < 0 Python yields
      a complex number, where the model stops. */
  function PowHalf(m: Math, x: real): (r: Result<real>)
    ensures r.Ok? <==> x >= 0.0
    ensures r.Ok? ==> r.value == m.sqrt(x)
    ensures r.Err? ==> r.error == ComplexValue
  {
    if x >= 0.0 then Ok(m.sqrt(x)) else Err(ComplexValue)
  }

  /** The quadratic branch: with discriminant u^2 + 2as >= 0 it computes both
      roots (dividing by a) and keeps the first non-negative one, t1 before t2;
      otherwise, or with no non-negative root, t stays unknown. */
  function QuadraticTime(m: Math, u: real, a: real, s: real): (r: Result<Option<real>>)
    ensures u * u + 2.0 * a * s < 0.0 ==> r == Ok(None)
    ensures u * u + 2.0 * a * s >= 0.0 && a == 0.0 ==> r == Err(ZeroDivisionError)
    ensures u * u + 2.0 * a * s >= 0.0 && a != 0.0 ==>
      var t1 := (-u + m.sqrt(u * u + 2.0 * a * s)) / a;
      var t2 := (-u - m.sqrt(u * u + 2.0 * a * s)) / a;
      r == Ok(if t1 >= 0.0 then Some(t1) else if t2 >= 0.0 then Some(t2) else None)
    ensures r.Ok? && r.value.Some? ==> r.value.value >= 0.0
  {
    var d := u * u + 2.0 * a * s;
    if d < 0.0 then Ok(None)
    else if a == 0.0 then Err(ZeroDivisionError)
    else
      var t1 := (-u + m.sqrt(d)) / a;
      var t2 := (-u - m.sqrt(d)) / a;
      Ok(if t1 >= 0.0 then Some(t1) else if t2 >= 0.0 then Some(t2) else None)
  }

  /** With a real square root (r * r == d), the time the quadratic branch keeps
      does satisfy s = u*t + a*t^2/2. */
  lemma QuadraticTimeSolves(m: Math, u: real, a: real, s: real)
    requires u * u + 2.0 * a * s >= 0.0
    requires m.sqrt(u * u + 2.0 * a * s) * m.sqrt(u * u + 2.0 * a * s) == u * u + 2.0 * a * s
    ensures QuadraticTime(m, u, a, s).Ok? && QuadraticTime(m, u, a, s).value.Some? ==>
      var t := QuadraticTime(m, u, a, s).value.value;
      u * t + 0.5 * a * (t * t) == s
  {
    if a != 0.0 {
      var q := m.sqrt(u * u + 2.0 * a * s);
      RootSolves(u, a, s, q);
      RootSolves(u, a, s, -q);
      assert -u - q == -u + -q;
    }
  }

  /** (-u + e)/a solves s = u*t + a*t^2/2 when e*e is the discriminant. */
  lemma RootSolves(u: real, a: real, s: real, e: real)
    requires a != 0.0 && e * e == u * u + 2.0 * a * s
    ensures var t := (-u + e) / a; u * t + 0.5 * a * (t * t) == s
  {
    var t := (-u + e) / a;
    assert t * a == -u + e;
    calc {
      (u * t + 0.5 * a * (t * t)) * a;
      u * (t * a) + 0.5 * (t * a) * (t * a);
      u * (-u + e) + 0.5 * (-u + e) * (-u + e);
      0.5 * (e * e) - 0.5 * (u * u);
      s * a;
    }
  }

  /** u^2 + 2as, the square of the speed reached from u under a over s. */
  function GainedSquare(u: real, a: real, s: real): real
  {
    u * u + 2.0 * a * s
  }

  /** v^2 - 2as, the square of the speed from which v is reached under a over s. */
  function LostSquare(v: real, a: real, s: real): real
  {
    v * v - 2.0 * a * s
  }

  /** Applies the branch the chain selected. */
  function Apply(m: Math, eq: Equation, k: State): Result<State>
    requires Inputs(eq) <= k.Keys
  {
    match eq
    case VFromUAT => Ok(k["v" := k["u"] + k["a"] * k["t"]])
    case UFromVAT => Ok(k["u" := k["v"] - k["a"] * k["t"]])
    case AFromVUT =>
      var x :- Div(k["v"] - k["u"], k["t"]);
      Ok(k["a" := x])
    case TFromVUA =>
      var x :- Div(k["v"] - k["u"], k["a"]);
      Ok(k["t" := x])
    case SFromUVT => Ok(k["s" := ((k["u"] + k["v"]) / 2.0) * k["t"]])
    case SFromUAT => Ok(k["s" := k["u"] * k["t"] + 0.5 * k["a"] * (k["t"] * k["t"])])
    case VFromUAS =>
      var x :- PowHalf(m, GainedSquare(k["u"], k["a"], k["s"]));
      Ok(k["v" := x])
    case UFromVAS =>
      var x :- PowHalf(m, LostSquare(k["v"], k["a"], k["s"]));
      Ok(k["u" := x])
    case AFromVUS =>
      var x :- Div(k["v"] * k["v"] - k["u"] * k["u"], 2.0 * k["s"]);
      Ok(k["a" := x])
    case TQuadratic =>
      var t :- QuadraticTime(m, k["u"], k["a"], k["s"]);
      if t.Some? then Ok(k["t" := t.value]) else Ok(k)
    case TFromUVS =>
      var x :- Div(2.0 * k["s"], k["u"] + k["v"]);
      Ok(k["t" := x])
  }

  /** One pass of the loop body: the elif chain. */
  function Step(m: Math, k: State): Result<State>
  {
    SelectSound(k);
    match Select(k)
    case None => Ok(k)
    case Some(eq) => Apply(m, eq, k)
  }

  /** The symbol each branch writes. */
  function Target(eq: Equation): string
  {
    match eq
    case VFromUAT => "v"
    case UFromVAT => "u"
    case AFromVUT => "a"
    case TFromVUA => "t"
    case SFromUVT => "s"
    case SFromUAT => "s"
    case VFromUAS => "v"
    case UFromVAS => "u"
    case AFromVUS => "a"
    case TQuadratic => "t"
    case TFromUVS => "t"
  }

  /** The symbols each branch reads. */
  function Inputs(eq: Equation): set<string>
  {
    match eq
    case VFromUAT => {"u", "a", "t"}
    case UFromVAT => {"v", "a", "t"}
    case AFromVUT => {"v", "u", "t"}
    case TFromVUA => {"v", "u", "a"}
    case SFromUVT => {"u", "v", "t"}
    case SFromUAT => {"u", "a", "t"}
    case VFromUAS => {"u", "a", "s"}
    case UFromVAS => {"v", "a", "s"}
    case AFromVUS => {"v", "u", "s"}
    case TQuadratic => {"u", "a", "s"}
    case TFromUVS => {"u", "v", "s"}
  }

  /** The chain takes a branch only when its target is unknown and its inputs
      are known. */
  lemma SelectSound(k: State)
    ensures Select(k).Some? ==>
      Target(Select(k).value) !in k && Inputs(Select(k).value) <= k.Keys
  {
  }

  /** A branch writes only its target, and either leaves the knowns alone (the
      quadratic branch without a usable root) or adds its target. */
  lemma ApplyShape(m: Math, eq: Equation, k: State)
    requires Inputs(eq) <= k.Keys && Target(eq) !in k
    ensures Apply(m, eq, k).Ok? ==>
      Extends(k, Apply(m, eq, k).value) &&
      (Apply(m, eq, k).value == k || Apply(m, eq, k).value.Keys == k.Keys + {Target(eq)})
    ensures Apply(m, eq, k).Ok? && eq != TQuadratic ==>
      Apply(m, eq, k).value.Keys == k.Keys + {Target(eq)}
  {
  }

  /** A pass adds at most one symbol, the target of the branch it took, and
      keeps every known value. */
  lemma StepShape(m: Math, k: State)
    ensures Step(m, k).Ok? ==>
      Extends(k, Step(m, k).value) &&
      (Step(m, k).value == k ||
       (Select(k).Some? && Step(m, k).value.Keys == k.Keys + {Target(Select(k).value)}))
  {
    SelectSound(k);
    if Select(k).Some? {
      ApplyShape(m, Select(k).value, k);
    }
  }

  lemma StepAddsAtMostOne(m: Math, k: State)
    ensures Step(m, k).Ok? ==>
      Extends(k, Step(m, k).value) && |Step(m, k).value.Keys - k.Keys| <= 1
  {
    StepShape(m, k);
    if Step(m, k).Ok? && Step(m, k).value != k {
      assert Step(m, k).value.Keys - k.Keys <= {Target(Select(k).value)};
    }
  }

  lemma StepGrows(m: Math)
    ensures Grows(k => Step(m, k), Symbols)
  {
    forall k: State | k.Keys <= Symbols && Step(m, k).Ok?
      ensures Extends(k, Step(m, k).value) && Step(m, k).value.Keys <= Symbols
    {
      StepShape(m, k);
    }
  }

  /** Three branches of the chain can never be taken: whenever their condition
      holds, an earlier branch's condition holds too.  The quadratic branch
      (t unknown, u, a, s known) is pre-empted by v^2 = u^2 + 2as when v is
      unknown and by t = (v - u)/a when v is known; s = u*t + a*t^2/2 by
      v = u + a*t or s = ((u + v)/2)*t; and t = 2s/(u + v) by a = (v^2 - u^2)/(2s)
      or t = (v - u)/a. */
  lemma DeadBranches(k: State)
    ensures Select(k) != Some(SFromUAT)
    ensures Select(k) != Some(TQuadratic)
    ensures Select(k) != Some(TFromUVS)
  {
  }

  /** With u, a, s known and v, t unknown, v comes from v^2 = u^2 + 2as before
      any rule for t. */
  lemma VelocityFromDisplacementFirst(k: State)
    requires "u" in k && "a" in k && "s" in k && "v" !in k && "t" !in k
    ensures Select(k) == Some(VFromUAS)
  {
  }

  /** The equation relating a derived symbol x to the knowns k, one disjunct
      per live branch that writes x (the dead ones never write): v = u + at or
      v = (u^2 + 2as) ** 0.5; u = v - at or u = (v^2 - 2as) ** 0.5; a*t = v - u or
      a*2s = v^2 - u^2; t*a = v - u; s = ((u + v)/2)*t. */
  ghost predicate Law(m: Math, x: string, k: State)
  {
    if x == "v" then
      "v" in k &&
      (("u" in k && "a" in k && "t" in k && k["v"] == k["u"] + k["a"] * k["t"]) ||
       ("u" in k && "a" in k && "s" in k && PowHalf(m, GainedSquare(k["u"], k["a"], k["s"])) == Ok(k["v"])))
    else if x == "u" then
      "u" in k &&
      (("v" in k && "a" in k && "t" in k && k["u"] == k["v"] - k["a"] * k["t"]) ||
       ("v" in k && "a" in k && "s" in k && PowHalf(m, LostSquare(k["v"], k["a"], k["s"])) == Ok(k["u"])))
    else if x == "a" then
      "a" in k &&
      (("v" in k && "u" in k && "t" in k && k["a"] * k["t"] == k["v"] - k["u"]) ||
       ("v" in k && "u" in k && "s" in k && k["a"] * (2.0 * k["s"]) == k["v"] * k["v"] - k["u"] * k["u"]))
    else if x == "t" then
      "t" in k && "v" in k && "u" in k && "a" in k && k["t"] * k["a"] == k["v"] - k["u"]
    else if x == "s" then
      "s" in k && "u" in k && "v" in k && "t" in k && k["s"] == ((k["u"] + k["v"]) / 2.0) * k["t"]
    else false
  }

  /** Every symbol of k that is not in the seed obeys its law. */
  ghost predicate Laws(m: Math, seed: State, k: State)
  {
    forall x :: x in k && x !in seed ==> Law(m, x, k)
  }

  /** A law keeps holding when knowns are only added. */
  lemma LawStable(m: Math, x: string, k: State, k': State)
    requires Extends(k, k') && Law(m, x, k)
    ensures Law(m, x, k')
  {
    assert forall y :: y in k ==> k'[y] == k[y];
  }

  /** The branch the chain takes writes a value that obeys its symbol's law. */
  lemma ApplyLaw(m: Math, k: State)
    requires Select(k).Some?
    ensures var eq := Select(k).value;
      Inputs(eq) <= k.Keys &&
      (Apply(m, eq, k).Ok? && Target(eq) in Apply(m, eq, k).value ==> Law(m, Target(eq), Apply(m, eq, k).value))
  {
    SelectSound(k);
    DeadBranches(k);
    match Select(k).value
    case VFromUAT => BranchLawVFromUAT(m, k);
    case UFromVAT => BranchLawUFromVAT(m, k);
    case AFromVUT => BranchLawAFromVUT(m, k);
    case TFromVUA => BranchLawTFromVUA(m, k);
    case SFromUVT => BranchLawSFromUVT(m, k);
    case VFromUAS => BranchLawVFromUAS(m, k);
    case UFromVAS => BranchLawUFromVAS(m, k);
    case AFromVUS => BranchLawAFromVUS(m, k);
  }

  lemma BranchLawVFromUAT(m: Math, k: State)
    requires "v" !in k && "u" in k && "a" in k && "t" in k
    ensures Apply(m, VFromUAT, k).Ok? ==> Law(m, "v", Apply(m, VFromUAT, k).value)
  {
    if Apply(m, VFromUAT, k).Ok? {
      var k' := Apply(m, VFromUAT, k).value;
      assert k'["u"] == k["u"] && k'["a"] == k["a"] && k'["t"] == k["t"];
    }
  }

  lemma BranchLawUFromVAT(m: Math, k: State)
    requires "u" !in k && "v" in k && "a" in k && "t" in k
    ensures Apply(m, UFromVAT, k).Ok? ==> Law(m, "u", Apply(m, UFromVAT, k).value)
  {
    if Apply(m, UFromVAT, k).Ok? {
      var k' := Apply(m, UFromVAT, k).value;
      assert k'["v"] == k["v"] && k'["a"] == k["a"] && k'["t"] == k["t"];
    }
  }

  lemma BranchLawAFromVUT(m: Math, k: State)
    requires "a" !in k && "v" in k && "u" in k && "t" in k
    ensures Apply(m, AFromVUT, k).Ok? ==> Law(m, "a", Apply(m, AFromVUT, k).value)
  {
    if Apply(m, AFromVUT, k).Ok? {
      var k' := Apply(m, AFromVUT, k).value;
      assert k'["v"] == k["v"] && k'["u"] == k["u"] && k'["t"] == k["t"];
      assert k'["a"] == Div(k["v"] - k["u"], k["t"]).value;
    }
  }

  lemma BranchLawTFromVUA(m: Math, k: State)
    requires "t" !in k && "v" in k && "u" in k && "a" in k
    ensures Apply(m, TFromVUA, k).Ok? ==> Law(m, "t", Apply(m, TFromVUA, k).value)
  {
    if Apply(m, TFromVUA, k).Ok? {
      var k' := Apply(m, TFromVUA, k).value;
      assert k'["v"] == k["v"] && k'["u"] == k["u"] && k'["a"] == k["a"];
      assert k'["t"] == Div(k["v"] - k["u"], k["a"]).value;
    }
  }

  lemma BranchLawSFromUVT(m: Math, k: State)
    requires "s" !in k && "u" in k && "v" in k && "t" in k
    ensures Apply(m, SFromUVT, k).Ok? ==> Law(m, "s", Apply(m, SFromUVT, k).value)
  {
    if Apply(m, SFromUVT, k).Ok? {
      var k' := Apply(m, SFromUVT, k).value;
      assert k'["u"] == k["u"] && k'["v"] == k["v"] && k'["t"] == k["t"];
    }
  }

  lemma BranchLawVFromUAS(m: Math, k: State)
    requires "v" !in k && "u" in k && "a" in k && "s" in k
    ensures Apply(m, VFromUAS, k).Ok? ==> Law(m, "v", Apply(m, VFromUAS, k).value)
  {
    if Apply(m, VFromUAS, k).Ok? {
      var k' := Apply(m, VFromUAS, k).value;
      assert k'["u"] == k["u"] && k'["a"] == k["a"] && k'["s"] == k["s"];
      assert k'["v"] == PowHalf(m, GainedSquare(k["u"], k["a"], k["s"])).value;
    }
  }

  lemma BranchLawUFromVAS(m: Math, k: State)
    requires "u" !in k && "v" in k && "a" in k && "s" in k
    ensures Apply(m, UFromVAS, k).Ok? ==> Law(m, "u", Apply(m, UFromVAS, k).value)
  {
    if Apply(m, UFromVAS, k).Ok? {
      var k' := Apply(m, UFromVAS, k).value;
      assert k'["v"] == k["v"] && k'["a"] == k["a"] && k'["s"] == k["s"];
      assert k'["u"] == PowHalf(m, LostSquare(k["v"], k["a"], k["s"])).value;
    }
  }

  lemma BranchLawAFromVUS(m: Math, k: State)
    requires "a" !in k && "v" in k && "u" in k && "s" in k
    ensures Apply(m, AFromVUS, k).Ok? ==> Law(m, "a", Apply(m, AFromVUS, k).value)
  {
    if Apply(m, AFromVUS, k).Ok? {
      var k' := Apply(m, AFromVUS, k).value;
      assert k'["v"] == k["v"] && k'["u"] == k["u"] && k'["s"] == k["s"];
      assert k'["a"] == Div(k["v"] * k["v"] - k["u"] * k["u"], 2.0 * k["s"]).value;
    }
  }

  /** One pass of the chain keeps the laws. */
  lemma StepKeepsLaws(m: Math, seed: State, k: State)
    requires Laws(m, seed, k)
    ensures Step(m, k).Ok? ==> Laws(m, seed, Step(m, k).value)
  {
    StepShape(m, k);
    if Step(m, k).Ok? && Step(m, k).value != k {
      var k' := Step(m, k).value;
      ApplyLaw(m, k);
      forall x | x in k' && x !in seed
        ensures Law(m, x, k')
      {
        if x in k {
          LawStable(m, x, k, k');
        }
      }
    }
  }

  /** Seeds the knowns from the five parameters (those that are not None). */
  function Known(u: Option<real>, v: Option<real>, a: Option<real>, s: Option<real>, t: Option<real>): (k: State)
    ensures k.Keys <= Symbols
    ensures ("u" in k <==> u.Some?) && (u.Some? ==> k["u"] == u.value)
    ensures ("v" in k <==> v.Some?) && (v.Some? ==> k["v"] == v.value)
    ensures ("a" in k <==> a.Some?) && (a.Some? ==> k["a"] == a.value)
    ensures ("s" in k <==> s.Some?) && (s.Some? ==> k["s"] == s.value)
    ensures ("t" in k <==> t.Some?) && (t.Some? ==> k["t"] == t.value)
  {
    Seed(Symbols, map["u" := u, "v" := v, "a" := a, "s" := s, "t" := t])
  }

  /** The returned dictionary: every one of the five symbols, None where it was
      not determined. */
  function Solutions(k: State): (r: map<string, Option<real>>)
    ensures r.Keys == Symbols
    ensures forall x :: x in Symbols ==> (r[x].Some? <==> x in k)
    ensures forall x :: x in Symbols && x in k ==> r[x] == Some(k[x])
  {
    map x | x in Symbols :: if x in k then Some(k[x]) else None
  }

  /** The symbols a returned dictionary determines, with their values. */
  function Determined(r: map<string, Option<real>>): (k: State)
    ensures forall x :: x in k <==> x in r && r[x].Some?
    ensures forall x :: x in k ==> k[x] == r[x].value
  {
    map x | x in r && r[x].Some? :: r[x].value
  }

  /** Filling in the result loses nothing: the knowns can be read back. */
  lemma DeterminedSolutions(k: State)
    requires k.Keys <= Symbols
    ensures Determined(Solutions(k)) == k
  {
    var d := Determined(Solutions(k));
    assert d.Keys == k.Keys;
  }

  /** `solve_kinematics`: seed, run the passes to a fixed point, fill in the
      result. */
  function SolveKinematics(m: Math, u: Option<real>, v: Option<real>, a: Option<real>, s: Option<real>, t: Option<real>)
    : Result<map<string, Option<real>>>
  {
    var k :- Closure(m, Known(u, v, a, s, t));
    Ok(Solutions(k))
  }

  /** The knowns after running the chain to its fixed point. */
  function Closure(m: Math, k: State): Result<State>
    requires k.Keys <= Symbols
  {
    StepGrows(m);
    Fix(k => Step(m, k), Symbols, k)
  }

  /** The number of times the loop runs the elif chain. */
  function Rounds(m: Math, k: State): nat
    requires k.Keys <= Symbols
    decreases Unset(Symbols, k)
  {
    if Symbols <= k.Keys then 0
    else
      match Step(m, k)
      case Err(_) => 1
      case Ok(k') =>
        if |k'.Keys| == |k.Keys| then 1
        else
          StepGrows(m);
          ChangeDecreasesUnset(Symbols, k, k');
          1 + Rounds(m, k')
  }

  lemma UnsetAtMostFive(k: State)
    ensures Unset(Symbols, k) <= 5
  {
    assert |Symbols| == 5;
    assert Symbols - k.Keys <= Symbols;
  }

  /** The loop runs the chain at most once per unknown symbol, so at most five
      times. */
  lemma {:induction false} RoundsBound(m: Math, k: State)
    requires k.Keys <= Symbols
    ensures Rounds(m, k) <= Unset(Symbols, k) <= 5
    decreases Unset(Symbols, k)
  {
    UnsetAtMostFive(k);
    if !(Symbols <= k.Keys) {
      var x :| x in Symbols && x !in k;
      assert x in Symbols - k.Keys;
      var r := Step(m, k);
      if r.Ok? && |r.value.Keys| != |k.Keys| {
        StepGrows(m);
        ChangeDecreasesUnset(Symbols, k, r.value);
        RoundsBound(m, r.value);
      }
    }
  }

  /** The source's loop, imperative as written: stop when all five are known or
      when a pass adds nothing. */
  method Solve(m: Math, u: Option<real>, v: Option<real>, a: Option<real>, s: Option<real>, t: Option<real>)
    returns (r: Result<map<string, Option<real>>>)
    ensures r == SolveKinematics(m, u, v, a, s, t)
  {
    StepGrows(m);
    var known := Known(u, v, a, s, t);
    ghost var seed := known;
    ghost var pass := k => Step(m, k);
    while true
      invariant known.Keys <= Symbols
      invariant Fix(pass, Symbols, known) == Fix(pass, Symbols, seed)
      decreases Unset(Symbols, known)
    {
      if Symbols <= known.Keys {
        AllKnownIsFixed(m, known);
        FixStep(pass, Symbols, known);
        break;
      }
      var initialCount := |known.Keys|;
      var next := Step(m, known);
      FixStep(pass, Symbols, known);
      if next.Err? {
        return Err(next.error);
      }
      StepAddsAtMostOne(m, known);
      if |next.value.Keys| == initialCount {
        SameSizeIsSame(known, next.value);
        break;
      }
      ChangeDecreasesUnset(Symbols, known, next.value);
      known := next.value;
    }
    assert Fix(pass, Symbols, known) == Ok(known);
    r := Ok(Solutions(known));
  }

  lemma AllKnownIsFixed(m: Math, k: State)
    requires Symbols <= k.Keys
    ensures Step(m, k) == Ok(k)
  {
    assert Select(k) == None;
  }

  lemma SameSizeIsSame(k: State, k': State)
    requires Extends(k, k') && |k'.Keys| == |k.Keys|
    ensures k' == k
  {
    if k' != k {
      var x :| x in k' && x !in k;
      ProperSubsetSmaller(k.Keys, k'.Keys, x);
    }
  }

  /** Every argument supplied comes back unchanged, every symbol is in the
      result, and the knowns returned are closed: no branch of the chain would
      fire on them. */
  lemma SolveKinematicsKeepsInputs(m: Math, u: Option<real>, v: Option<real>, a: Option<real>, s: Option<real>, t: Option<real>)
    ensures SolveKinematics(m, u, v, a, s, t).Ok? ==>
      var r := SolveKinematics(m, u, v, a, s, t).value;
      && r.Keys == Symbols
      && (u.Some? ==> r["u"] == u) && (v.Some? ==> r["v"] == v) && (a.Some? ==> r["a"] == a)
      && (s.Some? ==> r["s"] == s) && (t.Some? ==> r["t"] == t)
      && Select(Determined(r)) == None
  {
    StepGrows(m);
    var seed := Known(u, v, a, s, t);
    FixProperties(k => Step(m, k), Symbols, seed);
    ClosureIsClosed(m, seed);
    if Closure(m, seed).Ok? {
      DeterminedSolutions(Closure(m, seed).value);
    }
  }

  /** The loop keeps the laws: every symbol it derives obeys its equation. */
  lemma ClosureKeepsLaws(m: Math, seed: State)
    requires seed.Keys <= Symbols
    ensures Closure(m, seed).Ok? ==> Laws(m, seed, Closure(m, seed).value)
  {
    StepGrows(m);
    var inv := k => Laws(m, seed, k);
    forall k: State | k.Keys <= Symbols && inv(k) && Step(m, k).Ok?
      ensures inv(Step(m, k).value)
    {
      StepKeepsLaws(m, seed, k);
    }
    FixKeeps(k => Step(m, k), Symbols, inv, seed);
  }

  /** Every symbol the caller left None and the solver determined obeys the
      equation of a branch that writes it, with the values returned. */
  lemma DerivedSymbolsObeyLaws(m: Math, u: Option<real>, v: Option<real>, a: Option<real>, s: Option<real>, t: Option<real>)
    ensures SolveKinematics(m, u, v, a, s, t).Ok? ==>
      var k := Determined(SolveKinematics(m, u, v, a, s, t).value);
      && (u.None? && "u" in k ==> Law(m, "u", k)) && (v.None? && "v" in k ==> Law(m, "v", k))
      && (a.None? && "a" in k ==> Law(m, "a", k)) && (s.None? && "s" in k ==> Law(m, "s", k))
      && (t.None? && "t" in k ==> Law(m, "t", k))
  {
    var seed := Known(u, v, a, s, t);
    ClosureKeepsLaws(m, seed);
    if Closure(m, seed).Ok? {
      DeterminedSolutions(Closure(m, seed).value);
    }
  }

  /** At the fixed point no branch's condition holds any more. */
  lemma ClosureIsClosed(m: Math, k: State)
    requires k.Keys <= Symbols
    ensures Closure(m, k).Ok? ==> Select(Closure(m, k).value) == None
  {
    StepGrows(m);
    FixProperties(k => Step(m, k), Symbols, k);
    var r := Fix(k => Step(m, k), Symbols, k);
    if r.Ok? {
      var f := r.value;
      SelectSound(f);
      StepShape(m, f);
      DeadBranches(f);
    }
  }

  /** u = 0, a = 5, t = 10: the first pass gives v = 50, the second
      s = ((u + v)/2)*t = 250, and then all five are known. */
  lemma Example(m: Math)
    ensures SolveKinematics(m, Some(0.0), None, Some(5.0), None, Some(10.0)) ==
      Ok(map["u" := Some(0.0), "v" := Some(50.0), "a" := Some(5.0), "s" := Some(250.0), "t" := Some(10.0)])
  {
    StepGrows(m);
    var pass := k => Step(m, k);
    var k0 := Known(Some(0.0), None, Some(5.0), None, Some(10.0));
    var k1 := k0["v" := 50.0];
    var k2 := k1["s" := 250.0];
    assert Select(k0) == Some(VFromUAT);
    assert Step(m, k0) == Ok(k1);
    assert Select(k1) == Some(SFromUVT);
    assert Step(m, k1) == Ok(k2);
    AllKnownIsFixed(m, k2);
    assert Fix(pass, Symbols, k2) == Ok(k2);
    assert Fix(pass, Symbols, k1) == Ok(k2);
    assert Fix(pass, Symbols, k0) == Ok(k2);
    assert Solutions(k2) == map["u" := Some(0.0), "v" := Some(50.0), "a" := Some(5.0), "s" := Some(250.0), "t" := Some(10.0)];
  }

  /** The divisions the chain does not guard end in ZeroDivisionError: t = 0 in
      a = (v - u)/t, a = 0 in t = (v - u)/a and s = 0 in a = (v^2 - u^2)/(2s). */
  lemma ZeroDivisors(m: Math, u: real, v: real)
    ensures SolveKinematics(m, Some(u), Some(v), None, None, Some(0.0)) == Err(ZeroDivisionError)
    ensures SolveKinematics(m, Some(u), Some(v), Some(0.0), None, None) == Err(ZeroDivisionError)
    ensures SolveKinematics(m, Some(u), Some(v), None, Some(0.0), None) == Err(ZeroDivisionError)
  {
    StepGrows(m);
    var pass := k => Step(m, k);
    var kt := Known(Some(u), Some(v), None, None, Some(0.0));
    assert Select(kt) == Some(AFromVUT);
    assert Fix(pass, Symbols, kt) == Err(ZeroDivisionError);
    var ka := Known(Some(u), Some(v), Some(0.0), None, None);
    assert Select(ka) == Some(TFromVUA);
    assert Fix(pass, Symbols, ka) == Err(ZeroDivisionError);
    var ks := Known(Some(u), Some(v), None, Some(0.0), None);
    assert Select(ks) == Some(AFromVUS);
    assert Fix(pass, Symbols, ks) == Err(ZeroDivisionError);
  }

  /** u = 1, a = -5, s = 100: v^2 = u^2 + 2as = -999 has no real root; the
      source would go on with a complex v, the model stops. */
  lemma NegativeRadicand(m: Math)
    ensures SolveKinematics(m, Some(1.0), None, Some(-5.0), Some(100.0), None) == Err(ComplexValue)
  {
    StepGrows(m);
    var k := Known(Some(1.0), None, Some(-5.0), Some(100.0), None);
    assert Select(k) == Some(VFromUAS);
    assert Fix(k => Step(m, k), Symbols, k) == Err(ComplexValue);
  }
}
