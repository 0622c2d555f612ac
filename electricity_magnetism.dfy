/** `EMSolver` (core/electricity_magnetism.py): one dictionary of 22 numeric
    symbols plus the text entry 'type', and three rule sets of which `solve`
    runs only the one named by its category, pass after pass, until a pass
    reports no change. */
module ElectricityMagnetism {
  import opened Outcomes
  import opened Numerics
  import opened Knowns

  /** The numeric keys of `self.solutions`; 'type' is kept apart, in `kind`. */
  const Schema: set<string> := {
    "F", "q", "E", "V", "d", "U", "W",
    "I", "V_circuit", "R", "P", "E_energy", "t", "R_series", "R_parallel", "R1", "R2",
    "B", "I_wire", "r_wire", "N", "L"}

  /** mu_0 = 4*pi*1e-7 N/A^2. */
  const Permeability: real := 4.0 * Pi * 0.0000001

  /** The solver's dictionary: the numeric entries that are set, and the
      'type' entry (None, 'straight_wire', 'solenoid' or what the caller gave). */
  datatype Snapshot = Snapshot(values: State, kind: Option<string>)

  // ---------------------------------------------------------------------
  // Electrostatics: one function per guarded rule, in source order.

  /** F = q*E when F is unset. */
  function ChargeForce(s: State): (r: State)
    ensures Extends(s, r) && r.Keys <= s.Keys + {"F"}
    ensures "F" in r <==> "F" in s || ("q" in s && "E" in s)
    ensures "F" !in s && "q" in s && "E" in s ==> r["F"] == s["q"] * s["E"]
  {
    if "F" !in s && "q" in s && "E" in s then s["F" := s["q"] * s["E"]] else s
  }

  /** E = V/d when E is unset; d = 0 raises ZeroDivisionError. */
  function FieldFromPotential(s: State): (r: Result<State>)
    ensures r.Ok? ==> Extends(s, r.value) && r.value.Keys <= s.Keys + {"E"}
    ensures r.Err? <==> "E" !in s && "V" in s && "d" in s && s["d"] == 0.0
    ensures r.Ok? ==> ("E" in r.value <==> "E" in s || ("V" in s && "d" in s))
    ensures r.Ok? && "E" !in s && "V" in s && "d" in s ==> r.value["E"] * s["d"] == s["V"]
  {
    if "E" !in s && "V" in s && "d" in s then
      var e :- Div(s["V"], s["d"]);
      Ok(s["E" := e])
    else Ok(s)
  }

  /** V = E*d when V is unset. */
  function PotentialFromField(s: State): (r: State)
    ensures Extends(s, r) && r.Keys <= s.Keys + {"V"}
    ensures "V" in r <==> "V" in s || ("E" in s && "d" in s)
    ensures "V" !in s && "E" in s && "d" in s ==> r["V"] == s["E"] * s["d"]
  {
    if "V" !in s && "E" in s && "d" in s then s["V" := s["E"] * s["d"]] else s
  }

  /** `_solve_electrostatics`: the three rules one after the other, each
      seeing what the previous ones wrote. */
  function ElectrostaticsPass(s: State): (r: Result<State>)
    ensures r.Ok? ==> Extends(s, r.value) && r.value.Keys <= s.Keys + {"F", "E", "V"}
  {
    var s1 := ChargeForce(s);
    var s2 :- FieldFromPotential(s1);
    Ok(PotentialFromField(s2))
  }

  // ---------------------------------------------------------------------
  // Circuits.

  /** Ohm's law for the voltage: V_circuit = I*R. */
  function OhmVoltage(s: State): (r: State)
    ensures Extends(s, r) && r.Keys <= s.Keys + {"V_circuit"}
    ensures "V_circuit" in r <==> "V_circuit" in s || ("I" in s && "R" in s)
    ensures "V_circuit" !in s && "I" in s && "R" in s ==> r["V_circuit"] == s["I"] * s["R"]
  {
    if "V_circuit" !in s && "I" in s && "R" in s then s["V_circuit" := s["I"] * s["R"]] else s
  }

  /** Ohm's law for the current: I = V_circuit/R. */
  function OhmCurrent(s: State): (r: Result<State>)
    ensures r.Ok? ==> Extends(s, r.value) && r.value.Keys <= s.Keys + {"I"}
    ensures r.Err? <==> "I" !in s && "V_circuit" in s && "R" in s && s["R"] == 0.0
    ensures r.Ok? ==> ("I" in r.value <==> "I" in s || ("V_circuit" in s && "R" in s))
    ensures r.Ok? && "I" !in s && "V_circuit" in s && "R" in s ==> r.value["I"] * s["R"] == s["V_circuit"]
  {
    if "I" !in s && "V_circuit" in s && "R" in s then
      var i :- Div(s["V_circuit"], s["R"]);
      Ok(s["I" := i])
    else Ok(s)
  }

  /** Ohm's law for the resistance: R = V_circuit/I. */
  function OhmResistance(s: State): (r: Result<State>)
    ensures r.Ok? ==> Extends(s, r.value) && r.value.Keys <= s.Keys + {"R"}
    ensures r.Err? <==> "R" !in s && "V_circuit" in s && "I" in s && s["I"] == 0.0
    ensures r.Ok? ==> ("R" in r.value <==> "R" in s || ("V_circuit" in s && "I" in s))
    ensures r.Ok? && "R" !in s && "V_circuit" in s && "I" in s ==> r.value["R"] * s["I"] == s["V_circuit"]
  {
    if "R" !in s && "V_circuit" in s && "I" in s then
      var x :- Div(s["V_circuit"], s["I"]);
      Ok(s["R" := x])
    else Ok(s)
  }

  /** Power, first applicable of V*I, I^2*R and V^2/R. */
  function Power(s: State): (r: Result<State>)
    ensures r.Ok? ==> Extends(s, r.value) && r.value.Keys <= s.Keys + {"P"}
    ensures var vi, ir, vr := "V_circuit" in s && "I" in s, "I" in s && "R" in s, "V_circuit" in s && "R" in s;
      && (r.Err? <==> "P" !in s && !vi && !ir && vr && s["R"] == 0.0)
      && (r.Ok? ==> ("P" in r.value <==> "P" in s || vi || ir || vr))
      && ("P" !in s && vi ==> r.Ok? && r.value["P"] == s["V_circuit"] * s["I"])
      && ("P" !in s && !vi && ir ==> r.Ok? && r.value["P"] == s["I"] * s["I"] * s["R"])
      && ("P" !in s && !vi && !ir && vr && r.Ok? ==> r.value["P"] * s["R"] == s["V_circuit"] * s["V_circuit"])
  {
    if "P" in s then Ok(s)
    else if "V_circuit" in s && "I" in s then Ok(s["P" := s["V_circuit"] * s["I"]])
    else if "I" in s && "R" in s then Ok(s["P" := (s["I"] * s["I"]) * s["R"]])
    else if "V_circuit" in s && "R" in s then
      var p :- Div(s["V_circuit"] * s["V_circuit"], s["R"]);
      Ok(s["P" := p])
    else Ok(s)
  }

  /** Energy, first applicable of P*t and V*I*t. */
  function Energy(s: State): (r: State)
    ensures Extends(s, r) && r.Keys <= s.Keys + {"E_energy"}
    ensures var pt, vit := "P" in s && "t" in s, "V_circuit" in s && "I" in s && "t" in s;
      && ("E_energy" in r <==> "E_energy" in s || pt || vit)
      && ("E_energy" !in s && pt ==> r["E_energy"] == s["P"] * s["t"])
      && ("E_energy" !in s && !pt && vit ==> r["E_energy"] == s["V_circuit"] * s["I"] * s["t"])
  {
    if "E_energy" in s then s
    else if "P" in s && "t" in s then s["E_energy" := s["P"] * s["t"]]
    else if "V_circuit" in s && "I" in s && "t" in s then
      s["E_energy" := s["V_circuit"] * s["I"] * s["t"]]
    else s
  }

  /** R_series = R1 + R2. */
  function SeriesResistance(s: State): (r: State)
    ensures Extends(s, r) && r.Keys <= s.Keys + {"R_series"}
    ensures "R_series" in r <==> "R_series" in s || ("R1" in s && "R2" in s)
    ensures "R_series" !in s && "R1" in s && "R2" in s ==> r["R_series"] == s["R1"] + s["R2"]
  {
    if "R_series" !in s && "R1" in s && "R2" in s then s["R_series" := s["R1"] + s["R2"]] else s
  }

  /** R_parallel = 1/(1/R1 + 1/R2); each of the three divisions can raise. */
  function ParallelResistance(s: State): (r: Result<State>)
    ensures r.Ok? ==> Extends(s, r.value) && r.value.Keys <= s.Keys + {"R_parallel"}
    ensures var both := "R_parallel" !in s && "R1" in s && "R2" in s;
      && (r.Err? <==> both && (s["R1"] == 0.0 || s["R2"] == 0.0 || 1.0 / s["R1"] + 1.0 / s["R2"] == 0.0))
      && (r.Ok? ==> ("R_parallel" in r.value <==> "R_parallel" in s || both))
      && (r.Ok? && both ==> r.value["R_parallel"] * (1.0 / s["R1"] + 1.0 / s["R2"]) == 1.0)
  {
    if "R_parallel" !in s && "R1" in s && "R2" in s then
      var g1 :- Div(1.0, s["R1"]);
      var g2 :- Div(1.0, s["R2"]);
      var x :- Div(1.0, g1 + g2);
      Ok(s["R_parallel" := x])
    else Ok(s)
  }

  const CircuitTargets: set<string> :=
    {"V_circuit", "I", "R", "P", "E_energy", "R_series", "R_parallel"}

  /** `_solve_circuits`: the seven rules in source order. */
  function CircuitsPass(s: State): (r: Result<State>)
    ensures r.Ok? ==> Extends(s, r.value) && r.value.Keys <= s.Keys + CircuitTargets
  {
    var s1 := OhmVoltage(s);
    var s2 :- OhmCurrent(s1);
    var s3 :- OhmResistance(s2);
    var s4 :- Power(s3);
    var s5 := Energy(s4);
    var s6 := SeriesResistance(s5);
    ExtendsTransitive(s, s1, s2);
    ExtendsTransitive(s, s2, s3);
    ExtendsTransitive(s, s3, s4);
    ExtendsTransitive(s, s4, s5);
    ExtendsTransitive(s, s5, s6);
    var r := ParallelResistance(s6);
    if r.Ok? then ExtendsTransitive(s, s6, r.value); r else r
  }

  // ---------------------------------------------------------------------
  // Magnetism.

  /** The solenoid branch is the one taken: the straight-wire test fails and
      N and L are set. */
  predicate SolenoidPath(s: State)
  {
    !("r_wire" in s && "I_wire" in s) && "N" in s && "L" in s
  }

  /** The updates of `_solve_magnetism`.  Straight wire (r_wire and I_wire
      set) takes precedence: B = mu_0*I/(2*pi*r) if B is unset.  Its inner elif,
      which would derive I_wire, requires I_wire unset although the outer test
      requires it set, so it is left out here.  Otherwise, with N and L set,
      the solenoid: B = mu_0*N*I/L, or else I_wire = B*L/(mu_0*N).  A rule that
      fires also sets 'type'. */
  function MagnetismPass(st: Snapshot): (r: Result<Snapshot>)
    ensures r.Ok? ==> Extends(st.values, r.value.values)
    ensures r.Ok? ==> r.value.values.Keys <= st.values.Keys + {"B", "I_wire"}
    ensures r.Ok? && r.value.values == st.values ==> r.value == st
  {
    var s := st.values;
    if "r_wire" in s && "I_wire" in s then
      if "B" !in s then
        var b :- Div(Permeability * s["I_wire"], 2.0 * Pi * s["r_wire"]);
        Ok(Snapshot(s["B" := b], Some("straight_wire")))
      else Ok(st)
    else if "N" in s && "L" in s then
      if "B" !in s && "I_wire" in s then
        var b :- Div(Permeability * s["N"] * s["I_wire"], s["L"]);
        Ok(Snapshot(s["B" := b], Some("solenoid")))
      else if "I_wire" !in s && "B" in s then
        var i :- Div(s["B"] * s["L"], Permeability * s["N"]);
        Ok(Snapshot(s["I_wire" := i], Some("solenoid")))
      else Ok(st)
    else Ok(st)
  }

  /** What `_solve_magnetism` returns as written: its `return changed` sits
      inside the solenoid branch, so every other path falls off the end and
      returns None. */
  function MagnetismAsWritten(st: Snapshot): (r: Result<(Snapshot, Option<bool>)>)
    ensures r.Ok? ==> (r.value.1.Some? <==> SolenoidPath(st.values))
  {
    var next :- MagnetismPass(st);
    Ok((next, if SolenoidPath(st.values) then Some(next.values != st.values) else None))
  }

  /** Python's `changed |= flag` on a bool: None is a TypeError. */
  function OrAssign(changed: bool, flag: Option<bool>): (r: Result<bool>)
    ensures r.Err? <==> flag.None?
    ensures r.Err? ==> r.error == TypeError
    ensures r.Ok? ==> r.value == (changed || flag.value)
  {
    match flag
    case None => Err(TypeError)
    case Some(b) => Ok(changed || b)
  }

  /** `solve('magnetism', **kwargs)` as written. */
  function SolveMagnetismAsWritten(kwargs: map<string, Option<real>>, kind: Option<string>): Result<Snapshot>
  {
    RunMagnetismAsWritten(Snapshot(Seed(Schema, kwargs), kind))
  }

  /** The loop of `solve('magnetism', ...)` as written. */
  function RunMagnetismAsWritten(st: Snapshot): Result<Snapshot>
    requires st.values.Keys <= Schema
    decreases Unset(Schema, st.values)
  {
    var step :- MagnetismAsWritten(st);
    var changed :- OrAssign(false, step.1);
    if !changed then Ok(step.0)
    else
      ChangeDecreasesUnset(Schema, st.values, step.0.values);
      RunMagnetismAsWritten(step.0)
  }

  // ---------------------------------------------------------------------
  // The driver.

  /** The symbols the rule set of a category can write. */
  function Targets(category: string): set<string>
  {
    if category == "electrostatics" then {"F", "E", "V"}
    else if category == "circuits" then CircuitTargets
    else if category == "magnetism" then {"B", "I_wire"}
    else {}
  }

  /** One pass of the `for equation in self.equations` loop: only the rule set
      named `_solve_<category>` runs; any other category runs nothing. */
  function Pass(category: string, st: Snapshot): (r: Result<Snapshot>)
    ensures r.Ok? ==> Extends(st.values, r.value.values)
    ensures r.Ok? && st.values.Keys <= Schema ==> r.value.values.Keys <= Schema
    ensures r.Ok? && r.value.values == st.values ==> r.value == st
    ensures r.Ok? ==> r.value.values.Keys <= st.values.Keys + Targets(category)
    ensures r.Ok? && category != "magnetism" ==> r.value.kind == st.kind
  {
    if category == "electrostatics" then
      var v :- ElectrostaticsPass(st.values);
      Ok(Snapshot(v, st.kind))
    else if category == "circuits" then
      var v :- CircuitsPass(st.values);
      Ok(Snapshot(v, st.kind))
    else if category == "magnetism" then MagnetismPass(st)
    else Ok(st)
  }

  /** `while changed:` — repeat the pass until it changes nothing. */
  function Run(category: string, st: Snapshot): Result<Snapshot>
    requires st.values.Keys <= Schema
    decreases Unset(Schema, st.values)
  {
    var next :- Pass(category, st);
    if next.values == st.values then Ok(next)
    else
      ChangeDecreasesUnset(Schema, st.values, next.values);
      Run(category, next)
  }

  /** `solve(category, **kwargs)`: seed from the recognised numeric arguments
      and the given 'type', then run; the result holds only set entries. */
  function SolveEM(category: string, kwargs: map<string, Option<real>>, kind: Option<string>)
    : Result<Snapshot>
  {
    Run(category, Snapshot(Seed(Schema, kwargs), kind))
  }

  class EMSolver {
    var solutions: State
    var kind: Option<string>

    constructor ()
      ensures solutions == map[] && kind == None
    {
      solutions := map[];
      kind := None;
    }

    /** Runs one guarded rule that cannot raise on `solutions`; `fired` is the
        source's `changed = True` inside the rule's block. */
    method Apply(rule: State -> State) returns (fired: bool)
      modifies this`solutions
      ensures solutions == rule(old(solutions))
      ensures fired == (solutions != old(solutions))
    {
      var next := rule(solutions);
      fired := next != solutions;
      solutions := next;
    }

    /** Runs one guarded rule that may raise ZeroDivisionError. */
    method Fire(rule: State -> Result<State>) returns (r: Result<bool>)
      modifies this`solutions
      ensures r.Err? <==> rule(old(solutions)).Err?
      ensures r.Err? ==> r.error == rule(old(solutions)).error
      ensures r.Ok? ==> solutions == rule(old(solutions)).value
      ensures r.Ok? ==> r.value == (solutions != old(solutions))
    {
      var next :- rule(solutions);
      r := Ok(next != solutions);
      solutions := next;
    }

    /** `_solve_electrostatics`: the three rule blocks in order on
        `solutions`, `changed` set when any of them fires. */
    method Electrostatics() returns (r: Result<bool>)
      modifies this
      ensures kind == old(kind)
      ensures r.Err? <==> ElectrostaticsPass(old(solutions)).Err?
      ensures r.Err? ==> r.error == ElectrostaticsPass(old(solutions)).error
      ensures r.Ok? ==> solutions == ElectrostaticsPass(old(solutions)).value
      ensures r.Ok? ==> r.value == (solutions != old(solutions))
    {
      var changed := false;
      var fired := Apply(ChargeForce);
      changed := changed || fired;
      fired :- Fire(FieldFromPotential);
      changed := changed || fired;
      fired := Apply(PotentialFromField);
      changed := changed || fired;
      return Ok(changed);
    }

    /** `_solve_circuits`: the seven rule blocks in order. */
    method Circuits() returns (r: Result<bool>)
      modifies this
      ensures kind == old(kind)
      ensures r.Err? <==> CircuitsPass(old(solutions)).Err?
      ensures r.Err? ==> r.error == CircuitsPass(old(solutions)).error
      ensures r.Ok? ==> solutions == CircuitsPass(old(solutions)).value
      ensures r.Ok? ==> r.value == (solutions != old(solutions))
    {
      ghost var s0 := solutions;
      var changed := false;
      var fired := Apply(OhmVoltage);
      changed := changed || fired;
      ghost var s1 := solutions;
      fired :- Fire(OhmCurrent);
      assert changed == (s1 != s0) && CircuitsPass(s0) == (var s3 :- OhmResistance(solutions); var s4 :- Power(s3); ParallelResistance(SeriesResistance(Energy(s4))));
      ChainChanged(s0, s1, solutions);
      changed := changed || fired;
      ghost var s2 := solutions;
      fired :- Fire(OhmResistance);
      assert CircuitsPass(s0) == (var s4 :- Power(solutions); ParallelResistance(SeriesResistance(Energy(s4))));
      ChainChanged(s0, s2, solutions);
      changed := changed || fired;
      ghost var s3 := solutions;
      fired :- Fire(Power);
      assert CircuitsPass(s0) == ParallelResistance(SeriesResistance(Energy(solutions)));
      ChainChanged(s0, s3, solutions);
      changed := changed || fired;
      ghost var s4 := solutions;
      fired := Apply(Energy);
      ChainChanged(s0, s4, solutions);
      changed := changed || fired;
      ghost var s5 := solutions;
      fired := Apply(SeriesResistance);
      ChainChanged(s0, s5, solutions);
      changed := changed || fired;
      ghost var s6 := solutions;
      assert CircuitsPass(s0) == ParallelResistance(solutions);
      fired :- Fire(ParallelResistance);
      ChainChanged(s0, s6, solutions);
      changed := changed || fired;
      return Ok(changed);
    }

    /** `_solve_magnetism` with its `return changed` at the end of the method,
        where every path reaches it. */
    method Magnetism() returns (r: Result<bool>)
      modifies this
      ensures r.Err? <==> MagnetismPass(old(Snapshot(solutions, kind))).Err?
      ensures r.Err? ==> r.error == MagnetismPass(old(Snapshot(solutions, kind))).error
      ensures r.Ok? ==> Snapshot(solutions, kind) == MagnetismPass(old(Snapshot(solutions, kind))).value
      ensures r.Ok? ==> r.value == (solutions != old(solutions))
    {
      var next :- MagnetismPass(Snapshot(solutions, kind));
      r := Ok(next.values != solutions);
      solutions, kind := next.values, next.kind;
    }

    /** `solve`: reset, seed, then `changed |= equation()` for the equation
        named after the category until nothing changes. */
    method Solve(category: string, kwargs: map<string, Option<real>>, typeArg: Option<string>)
      returns (r: Result<Snapshot>)
      modifies this
      ensures r == SolveEM(category, kwargs, typeArg)
      ensures r.Ok? ==> Snapshot(solutions, kind) == r.value
    {
      solutions := Seed(Schema, kwargs);
      kind := typeArg;
      ghost var seed := Snapshot(solutions, kind);
      var changed := true;
      while changed
        invariant solutions.Keys <= Schema
        invariant changed ==> Run(category, Snapshot(solutions, kind)) == Run(category, seed)
        invariant !changed ==> Run(category, seed) == Ok(Snapshot(solutions, kind))
        decreases Unset(Schema, solutions), changed
      {
        ghost var before := Snapshot(solutions, kind);
        changed := false;
        if category == "electrostatics" {
          changed :- Electrostatics();
        } else if category == "circuits" {
          changed :- Circuits();
        } else if category == "magnetism" {
          changed :- Magnetism();
        }
        if changed {
          ChangeDecreasesUnset(Schema, before.values, solutions);
        }
      }
      r := Ok(Snapshot(solutions, kind));
    }
  }

  // ---------------------------------------------------------------------
  // Properties.

  /** Electrostatics: F = q*E and V = E*d are derived from the values given;
      E = V/d satisfies E*d = V, and the pass fails exactly when that division
      has d = 0. */
  lemma ElectrostaticsLaws(s: State)
    ensures var r := ElectrostaticsPass(s);
      && (r.Err? <==> "E" !in s && "V" in s && "d" in s && s["d"] == 0.0)
      && (r.Err? ==> r.error == ZeroDivisionError)
      && ("F" !in s && "q" in s && "E" in s && r.Ok? ==> r.value["F"] == s["q"] * s["E"])
      && ("E" !in s && "V" in s && "d" in s && r.Ok? ==> r.value["E"] * s["d"] == s["V"])
      && ("V" !in s && "E" in s && "d" in s ==> r.Ok? && r.value["V"] == s["E"] * s["d"])
  {
  }

  /** Ohm's law fires in all three directions, and the two divisions raise
      ZeroDivisionError on a zero divisor. */
  lemma OhmsLaw(s: State)
    ensures var r := CircuitsPass(s);
      && ("V_circuit" !in s && "I" in s && "R" in s && r.Ok? ==>
            r.value["V_circuit"] == s["I"] * s["R"])
      && ("I" !in s && "V_circuit" in s && "R" in s ==>
            (s["R"] == 0.0 ==> r == Err(ZeroDivisionError)) &&
            (r.Ok? ==> r.value["I"] * s["R"] == s["V_circuit"]))
      && ("R" !in s && "V_circuit" in s && "I" in s ==>
            (s["I"] == 0.0 ==> r == Err(ZeroDivisionError)) &&
            (r.Ok? ==> r.value["R"] * s["I"] == s["V_circuit"]))
  {
  }

  /** Two of V_circuit, I and R are known. */
  predicate TwoOhmKnown(s: State)
  {
    ("V_circuit" in s && "I" in s) || ("I" in s && "R" in s) || ("V_circuit" in s && "R" in s)
  }

  /** The state after the three Ohm's-law rules of a pass. */
  function AfterOhm(s: State): (r: Result<State>)
    ensures r.Ok? ==> Extends(s, r.value) && r.value.Keys <= s.Keys + {"V_circuit", "I", "R"}
  {
    var s2 :- OhmCurrent(OhmVoltage(s));
    OhmResistance(s2)
  }

  /** After the Ohm's-law rules, two known quantities of V_circuit, I, R mean
      all three are known. */
  lemma OhmCompletes(s: State)
    ensures AfterOhm(s).Ok? && TwoOhmKnown(AfterOhm(s).value) ==>
      var s3 := AfterOhm(s).value;
      "V_circuit" in s3 && "I" in s3 && "R" in s3
  {
  }

  /** The rules of a pass after Ohm's law. */
  function AfterPower(s3: State): (r: Result<State>)
    ensures r.Ok? ==> Extends(s3, r.value)
  {
    var s4 :- Power(s3);
    ParallelResistance(SeriesResistance(Energy(s4)))
  }

  /** The pass is Ohm's law followed by the rest. */
  lemma CircuitsPassSplits(s: State)
    ensures CircuitsPass(s) == (var s3 :- AfterOhm(s); AfterPower(s3))
  {
  }

  /** Within one pass Ohm's law runs before the power rule, so whenever a pass
      derives P it does so as V_circuit*I: the I^2*R and V^2/R alternatives
      never fire; and P is derived as soon as two of V_circuit, I, R are
      known. */
  lemma PowerFromVoltageAndCurrent(s: State)
    ensures var r := CircuitsPass(s);
      && (r.Ok? && "P" !in s && "P" in r.value ==>
            "V_circuit" in r.value && "I" in r.value &&
            r.value["P"] == r.value["V_circuit"] * r.value["I"])
      && (r.Ok? && TwoOhmKnown(s) ==> "P" in r.value)
  {
    CircuitsPassSplits(s);
    OhmCompletes(s);
    if AfterOhm(s).Ok? {
      PowerTail(AfterOhm(s).value);
    }
  }

  /** The rest of the pass with Ohm's law completed. */
  lemma PowerTail(s3: State)
    requires TwoOhmKnown(s3) ==> "V_circuit" in s3 && "I" in s3 && "R" in s3
    ensures var r := AfterPower(s3);
      && (r.Ok? && "P" !in s3 && "P" in r.value ==>
            "V_circuit" in r.value && "I" in r.value &&
            r.value["P"] == r.value["V_circuit"] * r.value["I"])
      && (r.Ok? && TwoOhmKnown(s3) ==> "P" in r.value)
  {
    PowerAfterOhm(s3);
    var r := AfterPower(s3);
    if r.Ok? {
      assert Extends(Power(s3).value, r.value);
    }
  }

  /** The power rule right after Ohm's law: with two of V_circuit, I, R known
      all three are, so P comes from V_circuit*I and nothing can raise. */
  lemma PowerAfterOhm(s3: State)
    requires TwoOhmKnown(s3) ==> "V_circuit" in s3 && "I" in s3 && "R" in s3
    ensures Power(s3).Ok?
    ensures "P" !in s3 && "P" in Power(s3).value ==>
      "V_circuit" in s3 && "I" in s3 && Power(s3).value["P"] == s3["V_circuit"] * s3["I"]
    ensures TwoOhmKnown(s3) ==> "P" in Power(s3).value
  {
  }

  /** Likewise E_energy is always P*t, never V*I*t: the power rule has set P
      whenever V_circuit and I are known. */
  lemma EnergyFromPower(s: State)
    ensures var r := CircuitsPass(s);
      && (r.Ok? && "E_energy" !in s && "E_energy" in r.value ==>
            "P" in r.value && "t" in r.value &&
            r.value["E_energy"] == r.value["P"] * r.value["t"])
      && (r.Ok? && "t" in s && TwoOhmKnown(s) ==> "E_energy" in r.value)
  {
    CircuitsPassSplits(s);
    OhmCompletes(s);
    if AfterOhm(s).Ok? {
      var s3 := AfterOhm(s).value;
      EnergyTail(s3);
      assert CircuitsPass(s) == AfterPower(s3);
      assert "E_energy" !in s ==> "E_energy" !in s3;
      assert "t" in s ==> "t" in s3;
    }
  }

  /** The rest of the pass with Ohm's law completed, for the energy rule. */
  lemma EnergyTail(s3: State)
    requires TwoOhmKnown(s3) ==> "V_circuit" in s3 && "I" in s3 && "R" in s3
    ensures var r := AfterPower(s3);
      && (r.Ok? && "E_energy" !in s3 && "E_energy" in r.value ==>
            "P" in r.value && "t" in r.value &&
            r.value["E_energy"] == r.value["P"] * r.value["t"])
      && (r.Ok? && "t" in s3 && TwoOhmKnown(s3) ==> "E_energy" in r.value)
  {
    PowerAfterOhm(s3);
    var s4 := Power(s3).value;
    EnergyAfterPower(s4);
    var r := AfterPower(s3);
    if r.Ok? {
      assert Extends(Energy(s4), r.value);
    }
  }

  /** The energy rule where P is known whenever V_circuit and I are: only the
      P*t alternative can fire. */
  lemma EnergyAfterPower(s4: State)
    requires "V_circuit" in s4 && "I" in s4 ==> "P" in s4
    ensures "E_energy" !in s4 && "E_energy" in Energy(s4) ==>
      "P" in s4 && "t" in s4 && Energy(s4)["E_energy"] == s4["P"] * s4["t"]
    ensures "P" in s4 && "t" in s4 ==> "E_energy" in Energy(s4)
  {
  }

  /** With R1 and R2 known: R_series = R1 + R2, and R_parallel is the value
      whose product with 1/R1 + 1/R2 is 1; a zero R1 or R2 raises
      ZeroDivisionError. */
  lemma ResistorCombinations(s: State)
    requires "R1" in s && "R2" in s
    ensures var r := CircuitsPass(s);
      && ("R_series" !in s && r.Ok? ==> r.value["R_series"] == s["R1"] + s["R2"])
      && ("R_parallel" !in s && (s["R1"] == 0.0 || s["R2"] == 0.0) ==> r.Err?)
      && ("R_parallel" !in s && r.Ok? ==>
            s["R1"] != 0.0 && s["R2"] != 0.0 &&
            r.value["R_parallel"] * (1.0 / s["R1"] + 1.0 / s["R2"]) == 1.0)
  {
    CircuitsPassSplits(s);
    if AfterOhm(s).Ok? {
      var s3 := AfterOhm(s).value;
      assert s3["R1"] == s["R1"] && s3["R2"] == s["R2"];
      assert "R_series" !in s ==> "R_series" !in s3;
      assert "R_parallel" !in s ==> "R_parallel" !in s3;
      ResistorTail(s3);
      assert CircuitsPass(s) == AfterPower(s3);
    } else {
      assert CircuitsPass(s).Err?;
    }
  }

  /** The resistor rules at the end of the pass see R1 and R2 as given. */
  lemma ResistorTail(s3: State)
    requires "R1" in s3 && "R2" in s3
    ensures var r := AfterPower(s3);
      && ("R_series" !in s3 && r.Ok? ==> r.value["R_series"] == s3["R1"] + s3["R2"])
      && ("R_parallel" !in s3 && (s3["R1"] == 0.0 || s3["R2"] == 0.0) ==> r.Err?)
      && ("R_parallel" !in s3 && r.Ok? ==>
            s3["R1"] != 0.0 && s3["R2"] != 0.0 &&
            r.value["R_parallel"] * (1.0 / s3["R1"] + 1.0 / s3["R2"]) == 1.0)
  {
    if Power(s3).Ok? {
      var s4 := Power(s3).value;
      var s5 := Energy(s4);
      var s6 := SeriesResistance(s5);
      assert s6["R1"] == s3["R1"] && s6["R2"] == s3["R2"];
      assert "R_series" !in s3 ==> "R_series" !in s5;
      assert "R_parallel" !in s3 ==> "R_parallel" !in s6;
      assert AfterPower(s3) == ParallelResistance(s6);
    }
  }

  /** Straight wire: with r_wire and I_wire set and B unset, B is mu_0*I/(2*pi*r)
      (r = 0 raises ZeroDivisionError) and 'type' becomes 'straight_wire'. */
  lemma StraightWireField(st: Snapshot)
    requires "r_wire" in st.values && "I_wire" in st.values && "B" !in st.values
    ensures var r := MagnetismPass(st);
      && (r.Err? <==> st.values["r_wire"] == 0.0)
      && (r.Ok? ==>
            r.value.kind == Some("straight_wire") &&
            r.value.values == st.values["B" := r.value.values["B"]] &&
            r.value.values["B"] * (2.0 * Pi * st.values["r_wire"]) == Permeability * st.values["I_wire"])
  {
  }

  /** Solenoid (N and L set, not both of r_wire and I_wire): B = mu_0*N*I/L
      when I_wire is known, otherwise I_wire = B*L/(mu_0*N) when B is known;
      'type' becomes 'solenoid'. */
  lemma SolenoidField(st: Snapshot)
    requires SolenoidPath(st.values)
    ensures var s, r := st.values, MagnetismPass(st);
      && ("B" !in s && "I_wire" in s ==>
            (r.Err? <==> s["L"] == 0.0) &&
            (r.Ok? ==> r.value.kind == Some("solenoid") &&
                       r.value.values["B"] * s["L"] == Permeability * s["N"] * s["I_wire"]))
      && ("I_wire" !in s && "B" in s ==>
            (r.Err? <==> s["N"] == 0.0) &&
            (r.Ok? ==> r.value.kind == Some("solenoid") &&
                       r.value.values["I_wire"] * (Permeability * s["N"]) == s["B"] * s["L"]))
  {
  }

  /** The straight-wire formula is never inverted: the elif that would derive
      I_wire can never be entered, so with I_wire unset and no solenoid the
      pass changes nothing, whatever B and r_wire are. */
  lemma StraightWireCurrentNeverDerived(st: Snapshot)
    requires "I_wire" !in st.values && !("N" in st.values && "L" in st.values)
    ensures MagnetismPass(st) == Ok(st)
  {
  }

  /** What `solve` returns keeps every recognised argument, holds only symbols
      of the dictionary, adds only symbols of the category's own rule set,
      touches 'type' only for magnetism, and is a fixed point of the pass. */
  lemma {:induction false} RunProperties(category: string, st: Snapshot)
    requires st.values.Keys <= Schema
    ensures Run(category, st).Ok? ==>
      var f := Run(category, st).value;
      && Extends(st.values, f.values)
      && f.values.Keys <= Schema
      && f.values.Keys <= st.values.Keys + Targets(category)
      && (category != "magnetism" ==> f.kind == st.kind)
      && Pass(category, f) == Ok(f)
    decreases Unset(Schema, st.values)
  {
    var p := Pass(category, st);
    if p.Ok? && p.value.values != st.values {
      ChangeDecreasesUnset(Schema, st.values, p.value.values);
      RunProperties(category, p.value);
      if Run(category, p.value).Ok? {
        ExtendsTransitive(st.values, p.value.values, Run(category, p.value).value.values);
      }
    }
  }

  /** `solve` as seen by its caller: every recognised argument comes back with
      its value, nothing outside the dictionary is returned, and a category
      with no rule set returns just the arguments. */
  lemma SolveEMKeepsInputs(category: string, kwargs: map<string, Option<real>>, kind: Option<string>)
    ensures SolveEM(category, kwargs, kind).Ok? ==>
      var f := SolveEM(category, kwargs, kind).value;
      && f.values.Keys <= Schema
      && (forall k :: k in Schema && k in kwargs && kwargs[k].Some? ==> k in f.values && f.values[k] == kwargs[k].value)
    ensures category !in {"electrostatics", "circuits", "magnetism"} ==>
      SolveEM(category, kwargs, kind) == Ok(Snapshot(Seed(Schema, kwargs), kind))
  {
    RunProperties(category, Snapshot(Seed(Schema, kwargs), kind));
  }

  /** As written, `solve('magnetism', ...)` raises TypeError on its first pass
      whenever the solenoid branch is not the one taken (and no division
      failed first). */
  lemma MagnetismAsWrittenRaises(st: Snapshot)
    requires st.values.Keys <= Schema
    requires !SolenoidPath(st.values) && MagnetismPass(st).Ok?
    ensures RunMagnetismAsWritten(st) == Err(TypeError)
  {
  }

  /** On the solenoid path with no r_wire (so that the straight-wire branch can
      never become the one taken), the code as written and the corrected code
      agree. */
  lemma {:induction false} MagnetismAsWrittenAgrees(st: Snapshot)
    requires st.values.Keys <= Schema
    requires SolenoidPath(st.values) && "r_wire" !in st.values
    ensures RunMagnetismAsWritten(st) == Run("magnetism", st)
    decreases Unset(Schema, st.values)
  {
    var p := MagnetismPass(st);
    if p.Ok? && p.value.values != st.values {
      ChangeDecreasesUnset(Schema, st.values, p.value.values);
      MagnetismAsWrittenAgrees(p.value);
    }
  }

  /** A straight wire, I_wire = 10 and r_wire = 0.05: as written the call
      raises TypeError; corrected it returns B with B*(2*pi*0.05) = mu_0*10 and
      type 'straight_wire'. */
  lemma StraightWireExample()
    ensures SolveMagnetismAsWritten(map["I_wire" := Some(10.0), "r_wire" := Some(0.05)], None) == Err(TypeError)
    ensures var r := SolveEM("magnetism", map["I_wire" := Some(10.0), "r_wire" := Some(0.05)], None);
      && r.Ok?
      && r.value.kind == Some("straight_wire")
      && r.value.values.Keys == {"I_wire", "r_wire", "B"}
      && r.value.values["B"] * (2.0 * Pi * 0.05) == Permeability * 10.0
  {
    var s := Seed(Schema, map["I_wire" := Some(10.0), "r_wire" := Some(0.05)]);
    assert s.Keys == {"I_wire", "r_wire"};
    var st := Snapshot(s, None);
    MagnetismAsWrittenRaises(st);
    StraightWireField(st);
    var next := MagnetismPass(st).value;
    assert MagnetismPass(next) == Ok(next);
    assert Run("magnetism", next) == Ok(next);
  }
}
