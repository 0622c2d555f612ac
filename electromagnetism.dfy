/** `ElectromagnetismSolver` (core/electromagnetism.py): six independent
    solvers.  Each seeds a local dictionary with its own symbols, repeats a
    pass of guarded rules until nothing changes, then (where an angle is
    involved) checks the angle.

    The source keeps the angle twice: `s['theta']` in degrees and a local
    `theta_rad` in radians, set from the argument before the loop and
    reassigned when the angle is derived (`theta_rad = asin(...)`,
    `s['theta'] = degrees(theta_rad)`).  Here every use of `theta_rad` is
    `Radians(s["theta"])`, which is the same number: Radians(Degrees(y)) == y
    (Numerics.RadiansDegrees). */
module Electromagnetism {
  import opened Outcomes
  import opened Numerics
  import opened Knowns

  /** mu_0 = 4*pi*1e-7 N/A^2. */
  const Mu0: real := 4.0 * Pi * 0.0000001

  const AngleRange: string := "Angle must be between 0° and 180°"
  const AngleInvalid: string := "Invalid combination of values - cannot calculate angle"

  /** `math.sin(theta_rad)` for an angle stored in degrees. */
  function SinDeg(m: Math, deg: real): real { m.sin(Radians(deg)) }

  /** The check after every loop that derives angles: a θ outside [0, 180]
      degrees raises ValueError. */
  function CheckAngle(s: State): (r: Result<State>)
    ensures r.Ok? <==> ("theta" in s ==> 0.0 <= s["theta"] <= 180.0)
    ensures r.Ok? ==> r.value == s
    ensures r.Err? ==> r.error == ValueError(AngleRange)
  {
    if "theta" in s && !(0.0 <= s["theta"] <= 180.0) then Err(ValueError(AngleRange)) else Ok(s)
  }

  /** θ = degrees(asin(x)) for the rules that derive the angle from a sine:
      an x outside [-1, 1] is re-raised as "Invalid combination...". */
  function AngleFromSine(m: Math, x: real): (r: Result<real>)
    ensures r.Ok? <==> -1.0 <= x <= 1.0
    ensures r.Ok? ==> r.value == Degrees(m.asin(x))
    ensures r.Err? ==> r.error == ValueError(AngleInvalid)
  {
    var a :- OnValueError(Asin(m, x), AngleInvalid);
    Ok(Degrees(a))
  }

  // =====================================================================
  // Lorentz force: F = qE + qvB sin θ.

  const LorentzKeys: set<string> := {"F", "q", "E", "v", "B", "theta"}

  /** The rules of `solve_lorentz_force`, in source order: the electric
      force first, the magnetic force only if that did not fire, then the
      inverses.  q and E divide without a guard; the angle rule catches
      only ValueError, so a zero qvB escapes as ZeroDivisionError. */
  function ElectricForce(m: Math, s: State): Result<real>
  {
    Ok(At(s, "q") * At(s, "E"))
  }

  function MagneticForce(m: Math, s: State): Result<real>
  {
    Ok(At(s, "q") * At(s, "v") * At(s, "B") * SinDeg(m, At(s, "theta")))
  }

  function ChargeFromForce(m: Math, s: State): Result<real>
  {
    Div(At(s, "F"), At(s, "E"))
  }

  function FieldFromForce(m: Math, s: State): Result<real>
  {
    Div(At(s, "F"), At(s, "q"))
  }

  function VelocityFromForce(m: Math, s: State): Result<real>
  {
    OnZeroDivision(Div(At(s, "F"), At(s, "q") * At(s, "B") * SinDeg(m, At(s, "theta"))), "Cannot calculate velocity when B or sinθ is zero")
  }

  function MagneticFieldFromForce(m: Math, s: State): Result<real>
  {
    OnZeroDivision(Div(At(s, "F"), At(s, "q") * At(s, "v") * SinDeg(m, At(s, "theta"))), "Cannot calculate B when velocity or sinθ is zero")
  }

  function LorentzAngleValue(m: Math, s: State): Result<real>
  {
    var x :- Div(At(s, "F"), At(s, "q") * At(s, "v") * At(s, "B")); AngleFromSine(m, x)
  }

  function LorentzRules(m: Math): seq<Rule>
  {
    [ Plain("F", {"q", "E"}, s => ElectricForce(m, s)),
      Plain("F", {"q", "v", "B", "theta"}, s => MagneticForce(m, s)),
      Plain("q", {"F", "E"}, s => ChargeFromForce(m, s)),
      Plain("E", {"F", "q"}, s => FieldFromForce(m, s)),
      Plain("v", {"F", "q", "B", "theta"}, s => VelocityFromForce(m, s)),
      Plain("B", {"F", "q", "v", "theta"}, s => MagneticFieldFromForce(m, s)),
      Plain("theta", {"F", "q", "v", "B"}, s => LorentzAngleValue(m, s))
    ]
  }

  /** One pass of the `while changed` loop of `solve_lorentz_force`. */
  function LorentzPass(m: Math, s: State): Result<State>
  {
    RunRules(LorentzRules(m), s)
  }

  lemma LorentzWrites(m: Math)
    ensures WritesWithin(LorentzRules(m), LorentzKeys)
  {
  }

  lemma LorentzGrows(m: Math)
    ensures Grows(s => LorentzPass(m, s), LorentzKeys)
  {
    LorentzWrites(m);
    RulesGrow(LorentzRules(m), LorentzKeys);
  }

  /** `solve_lorentz_force(**kwargs)`: the loop's result, then the angle
      check. */
  function SolveLorentzForce(m: Math, kwargs: map<string, Option<real>>): (r: Result<State>)
    ensures r.Ok? ==> Solved(s => LorentzPass(m, s), LorentzKeys, kwargs, r.value)
    ensures r.Ok? ==> "theta" in r.value ==> 0.0 <= r.value["theta"] <= 180.0
  {
    LorentzGrows(m);
    var f :- SolveFrom(s => LorentzPass(m, s), LorentzKeys, kwargs);
    CheckAngle(f)
  }

  method LorentzForce(m: Math, kwargs: map<string, Option<real>>) returns (r: Result<State>)
    ensures r == SolveLorentzForce(m, kwargs)
  {
    LorentzGrows(m);
    var f :- RunToFixpoint(s => LorentzPass(m, s), LorentzKeys, Seed(LorentzKeys, kwargs));
    r := CheckAngle(f);
  }

  // =====================================================================
  // Force on a wire: F = ILB sin θ.

  const WireKeys: set<string> := {"F", "I", "L", "B", "theta"}

  /** The rules of `solve_force_on_wire`: the force, then its inverses. */
  function WireForceValue(m: Math, s: State): Result<real>
  {
    Ok(At(s, "I") * At(s, "L") * At(s, "B") * SinDeg(m, At(s, "theta")))
  }

  function WireCurrentValue(m: Math, s: State): Result<real>
  {
    OnZeroDivision(Div(At(s, "F"), At(s, "L") * At(s, "B") * SinDeg(m, At(s, "theta"))), "Cannot calculate current when L, B or sinθ is zero")
  }

  function WireLengthValue(m: Math, s: State): Result<real>
  {
    OnZeroDivision(Div(At(s, "F"), At(s, "I") * At(s, "B") * SinDeg(m, At(s, "theta"))), "Cannot calculate length when I, B or sinθ is zero")
  }

  function WireFieldValue(m: Math, s: State): Result<real>
  {
    OnZeroDivision(Div(At(s, "F"), At(s, "I") * At(s, "L") * SinDeg(m, At(s, "theta"))), "Cannot calculate B when I, L or sinθ is zero")
  }

  function WireAngleValue(m: Math, s: State): Result<real>
  {
    var x :- Div(At(s, "F"), At(s, "I") * At(s, "L") * At(s, "B")); AngleFromSine(m, x)
  }

  function WireRules(m: Math): seq<Rule>
  {
    [ Plain("F", {"I", "L", "B", "theta"}, s => WireForceValue(m, s)),
      Plain("I", {"F", "L", "B", "theta"}, s => WireCurrentValue(m, s)),
      Plain("L", {"F", "I", "B", "theta"}, s => WireLengthValue(m, s)),
      Plain("B", {"F", "I", "L", "theta"}, s => WireFieldValue(m, s)),
      Plain("theta", {"F", "I", "L", "B"}, s => WireAngleValue(m, s))
    ]
  }

  function WirePass(m: Math, s: State): Result<State>
  {
    RunRules(WireRules(m), s)
  }

  lemma WireWrites(m: Math)
    ensures WritesWithin(WireRules(m), WireKeys)
  {
  }

  lemma WireGrows(m: Math)
    ensures Grows(s => WirePass(m, s), WireKeys)
  {
    WireWrites(m);
    RulesGrow(WireRules(m), WireKeys);
  }

  /** `solve_force_on_wire(**kwargs)`. */
  function SolveForceOnWire(m: Math, kwargs: map<string, Option<real>>): (r: Result<State>)
    ensures r.Ok? ==> Solved(s => WirePass(m, s), WireKeys, kwargs, r.value)
    ensures r.Ok? ==> "theta" in r.value ==> 0.0 <= r.value["theta"] <= 180.0
  {
    WireGrows(m);
    var f :- SolveFrom(s => WirePass(m, s), WireKeys, kwargs);
    CheckAngle(f)
  }

  method ForceOnWire(m: Math, kwargs: map<string, Option<real>>) returns (r: Result<State>)
    ensures r == SolveForceOnWire(m, kwargs)
  {
    WireGrows(m);
    var f :- RunToFixpoint(s => WirePass(m, s), WireKeys, Seed(WireKeys, kwargs));
    r := CheckAngle(f);
  }

  // =====================================================================
  // Parallel wires: F/l = mu_0*I1*I2/(2*pi*r).

  const ParallelKeys: set<string> := {"F_per_length", "I1", "I2", "r"}

  /** The rules of `solve_parallel_wires`: each checks its divisor (and the
      separation) before dividing. */
  function ForcePerLength(s: State): Result<real>
  {
    Reject(At(s, "r") <= 0.0, "Separation distance must be positive", Div(Mu0 * At(s, "I1") * At(s, "I2"), 2.0 * Pi * At(s, "r")))
  }

  function FirstCurrent(s: State): Result<real>
  {
    Reject(At(s, "I2") == 0.0 || At(s, "r") <= 0.0, "Current 2 and separation must be non-zero", Div(2.0 * Pi * At(s, "r") * At(s, "F_per_length"), Mu0 * At(s, "I2")))
  }

  function SecondCurrent(s: State): Result<real>
  {
    Reject(At(s, "I1") == 0.0 || At(s, "r") <= 0.0, "Current 1 and separation must be non-zero", Div(2.0 * Pi * At(s, "r") * At(s, "F_per_length"), Mu0 * At(s, "I1")))
  }

  function Separation(s: State): Result<real>
  {
    Reject(At(s, "I1") == 0.0 || At(s, "I2") == 0.0, "Currents must be non-zero", Reject(At(s, "F_per_length") == 0.0, "Force per length cannot be zero when calculating distance", Div(Mu0 * At(s, "I1") * At(s, "I2"), 2.0 * Pi * At(s, "F_per_length"))))
  }

  const ParallelRules: seq<Rule> :=
    [ Plain("F_per_length", {"I1", "I2", "r"}, s => ForcePerLength(s)),
      Plain("I1", {"F_per_length", "I2", "r"}, s => FirstCurrent(s)),
      Plain("I2", {"F_per_length", "I1", "r"}, s => SecondCurrent(s)),
      Plain("r", {"F_per_length", "I1", "I2"}, s => Separation(s))
    ]

  function ParallelPass(s: State): Result<State>
  {
    RunRules(ParallelRules, s)
  }

  lemma ParallelWrites()
    ensures WritesWithin(ParallelRules, ParallelKeys)
  {
  }

  lemma ParallelGrows()
    ensures Grows(ParallelPass, ParallelKeys)
  {
    ParallelWrites();
    RulesGrow(ParallelRules, ParallelKeys);
  }

  /** `solve_parallel_wires(**kwargs)`: no angle, so no final check. */
  function SolveParallelWires(kwargs: map<string, Option<real>>): (r: Result<State>)
    ensures r.Ok? ==> Solved(ParallelPass, ParallelKeys, kwargs, r.value)
  {
    ParallelGrows();
    SolveFrom(ParallelPass, ParallelKeys, kwargs)
  }

  method ParallelWires(kwargs: map<string, Option<real>>) returns (r: Result<State>)
    ensures r == SolveParallelWires(kwargs)
  {
    ParallelGrows();
    r := RunToFixpoint(ParallelPass, ParallelKeys, Seed(ParallelKeys, kwargs));
  }

  // =====================================================================
  // Induction: Φ = BA cos θ, ε = -NΔΦ/Δt.

  const EmfKeys: set<string> := {"emf", "N", "delta_phi", "delta_t", "B", "A", "theta", "phi"}

  /** `math.cos(theta)` where `theta` is `theta_rad` when θ is set and 0
      otherwise. */
  function CosOrZero(m: Math, s: State): real
  {
    m.cos(if "theta" in s then Radians(s["theta"]) else 0.0)
  }

  /** The rules of `solve_emf_induction`: the flux, Faraday's law and its
      inverses, then the inverses of the flux.  ΔΦ checks Δt but divides by
      N, and Δt checks ΔΦ but divides by ε, so those two can raise
      ZeroDivisionError. */
  function Flux(m: Math, s: State): Result<real>
  {
    Ok(At(s, "B") * At(s, "A") * CosOrZero(m, s))
  }

  function InducedEmf(m: Math, s: State): Result<real>
  {
    Reject(At(s, "delta_t") <= 0.0, "Time change must be positive", Div(-At(s, "N") * At(s, "delta_phi"), At(s, "delta_t")))
  }

  function Turns(m: Math, s: State): Result<real>
  {
    Reject(At(s, "delta_phi") == 0.0 || At(s, "delta_t") <= 0.0, "Flux change and time must be non-zero", Div(-At(s, "emf") * At(s, "delta_t"), At(s, "delta_phi")))
  }

  function FluxChange(m: Math, s: State): Result<real>
  {
    Reject(At(s, "delta_t") <= 0.0, "Time change must be positive", Div(-At(s, "emf") * At(s, "delta_t"), At(s, "N")))
  }

  function TimeChange(m: Math, s: State): Result<real>
  {
    Reject(At(s, "delta_phi") == 0.0, "Flux change cannot be zero when calculating time", Div(-At(s, "N") * At(s, "delta_phi"), At(s, "emf")))
  }

  function FieldFromFlux(m: Math, s: State): Result<real>
  {
    Reject(At(s, "A") <= 0.0, "Area must be positive", OnZeroDivision(Div(At(s, "phi"), At(s, "A") * CosOrZero(m, s)), "Cannot calculate B when area is zero or cosθ is zero"))
  }

  function AreaFromFlux(m: Math, s: State): Result<real>
  {
    Reject(At(s, "B") == 0.0, "Magnetic field must be non-zero", OnZeroDivision(Div(At(s, "phi"), At(s, "B") * CosOrZero(m, s)), "Cannot calculate area when B is zero or cosθ is zero"))
  }

  function AngleFromFlux(m: Math, s: State): Result<real>
  {
    var c :- OnZeroDivision(Div(At(s, "phi"), At(s, "B") * At(s, "A")), "Cannot calculate angle when B or A is zero"); Reject(Abs(c) > 1.0, "Invalid combination of values - |cosθ| cannot exceed 1", Ok(Degrees(m.acos(c))))
  }

  function EmfRules(m: Math): seq<Rule>
  {
    [ Plain("phi", {"B", "A"}, s => Flux(m, s)),
      Plain("emf", {"N", "delta_phi", "delta_t"}, s => InducedEmf(m, s)),
      Plain("N", {"emf", "delta_phi", "delta_t"}, s => Turns(m, s)),
      Plain("delta_phi", {"emf", "N", "delta_t"}, s => FluxChange(m, s)),
      Plain("delta_t", {"emf", "N", "delta_phi"}, s => TimeChange(m, s)),
      Plain("B", {"phi", "A"}, s => FieldFromFlux(m, s)),
      Plain("A", {"phi", "B"}, s => AreaFromFlux(m, s)),
      Plain("theta", {"phi", "B", "A"}, s => AngleFromFlux(m, s))
    ]
  }

  function EmfPass(m: Math, s: State): Result<State>
  {
    RunRules(EmfRules(m), s)
  }

  lemma EmfWrites(m: Math)
    ensures WritesWithin(EmfRules(m), EmfKeys)
  {
  }

  lemma EmfGrows(m: Math)
    ensures Grows(s => EmfPass(m, s), EmfKeys)
  {
    EmfWrites(m);
    RulesGrow(EmfRules(m), EmfKeys);
  }

  /** `solve_emf_induction(**kwargs)`. */
  function SolveEmfInduction(m: Math, kwargs: map<string, Option<real>>): (r: Result<State>)
    ensures r.Ok? ==> Solved(s => EmfPass(m, s), EmfKeys, kwargs, r.value)
    ensures r.Ok? ==> "theta" in r.value ==> 0.0 <= r.value["theta"] <= 180.0
  {
    EmfGrows(m);
    var f :- SolveFrom(s => EmfPass(m, s), EmfKeys, kwargs);
    CheckAngle(f)
  }

  method EmfInduction(m: Math, kwargs: map<string, Option<real>>) returns (r: Result<State>)
    ensures r == SolveEmfInduction(m, kwargs)
  {
    EmfGrows(m);
    var f :- RunToFixpoint(s => EmfPass(m, s), EmfKeys, Seed(EmfKeys, kwargs));
    r := CheckAngle(f);
  }

  // =====================================================================
  // Ideal transformer: V_p/V_s = N_p/N_s, I_p/I_s = N_s/N_p.

  const TransformerKeys: set<string> := {"V_p", "V_s", "N_p", "N_s", "I_p", "I_s"}

  /** The rules of `solve_transformer`.  Each checks a turns count before
      dividing, but not always the one it divides by: V_s checks N_s and
      divides by N_p, V_p checks N_p and divides by N_s, I_s checks N_p and
      divides by N_s, I_p checks N_s and divides by N_p. */
  function SecondaryVoltage(s: State): Result<real>
  {
    Reject(At(s, "N_s") <= 0.0, "Secondary turns must be positive", Div(At(s, "V_p") * At(s, "N_s"), At(s, "N_p")))
  }

  function PrimaryVoltage(s: State): Result<real>
  {
    Reject(At(s, "N_p") <= 0.0, "Primary turns must be positive", Div(At(s, "V_s") * At(s, "N_p"), At(s, "N_s")))
  }

  function SecondaryTurns(s: State): Result<real>
  {
    Reject(At(s, "V_s") == 0.0, "Secondary voltage cannot be zero", Reject(At(s, "N_p") <= 0.0, "Primary turns must be positive", Div(At(s, "N_p") * At(s, "V_s"), At(s, "V_p"))))
  }

  function PrimaryTurns(s: State): Result<real>
  {
    Reject(At(s, "V_p") == 0.0, "Primary voltage cannot be zero", Reject(At(s, "N_s") <= 0.0, "Secondary turns must be positive", Div(At(s, "N_s") * At(s, "V_p"), At(s, "V_s"))))
  }

  function SecondaryCurrent(s: State): Result<real>
  {
    Reject(At(s, "N_p") <= 0.0, "Primary turns must be positive", Div(At(s, "I_p") * At(s, "N_p"), At(s, "N_s")))
  }

  function PrimaryCurrent(s: State): Result<real>
  {
    Reject(At(s, "N_s") <= 0.0, "Secondary turns must be positive", Div(At(s, "I_s") * At(s, "N_s"), At(s, "N_p")))
  }

  const TransformerRules: seq<Rule> :=
    [ Plain("V_s", {"V_p", "N_p", "N_s"}, s => SecondaryVoltage(s)),
      Plain("V_p", {"V_s", "N_p", "N_s"}, s => PrimaryVoltage(s)),
      Plain("N_s", {"V_p", "V_s", "N_p"}, s => SecondaryTurns(s)),
      Plain("N_p", {"V_p", "V_s", "N_s"}, s => PrimaryTurns(s)),
      Plain("I_s", {"I_p", "N_p", "N_s"}, s => SecondaryCurrent(s)),
      Plain("I_p", {"I_s", "N_p", "N_s"}, s => PrimaryCurrent(s))
    ]

  function TransformerPass(s: State): Result<State>
  {
    RunRules(TransformerRules, s)
  }

  lemma TransformerWrites()
    ensures WritesWithin(TransformerRules, TransformerKeys)
  {
  }

  lemma TransformerGrows()
    ensures Grows(TransformerPass, TransformerKeys)
  {
    TransformerWrites();
    RulesGrow(TransformerRules, TransformerKeys);
  }

  /** `solve_transformer(**kwargs)`. */
  function SolveTransformer(kwargs: map<string, Option<real>>): (r: Result<State>)
    ensures r.Ok? ==> Solved(TransformerPass, TransformerKeys, kwargs, r.value)
  {
    TransformerGrows();
    SolveFrom(TransformerPass, TransformerKeys, kwargs)
  }

  method Transformer(kwargs: map<string, Option<real>>) returns (r: Result<State>)
    ensures r == SolveTransformer(kwargs)
  {
    TransformerGrows();
    r := RunToFixpoint(TransformerPass, TransformerKeys, Seed(TransformerKeys, kwargs));
  }

  // =====================================================================
  // Motor torque: τ = nIAB sin θ.

  const TorqueKeys: set<string> := {"torque", "n", "I", "A", "B", "theta"}

  /** The rules of `solve_motor_torque`: the torque, then its inverses. */
  function TorqueValue(m: Math, s: State): Result<real>
  {
    Ok(At(s, "n") * At(s, "I") * At(s, "A") * At(s, "B") * SinDeg(m, At(s, "theta")))
  }

  function TurnsFromTorque(m: Math, s: State): Result<real>
  {
    OnZeroDivision(Div(At(s, "torque"), At(s, "I") * At(s, "A") * At(s, "B") * SinDeg(m, At(s, "theta"))), "Cannot calculate turns when I, A, B or sinθ is zero")
  }

  function CurrentFromTorque(m: Math, s: State): Result<real>
  {
    OnZeroDivision(Div(At(s, "torque"), At(s, "n") * At(s, "A") * At(s, "B") * SinDeg(m, At(s, "theta"))), "Cannot calculate current when n, A, B or sinθ is zero")
  }

  function AreaFromTorque(m: Math, s: State): Result<real>
  {
    OnZeroDivision(Div(At(s, "torque"), At(s, "n") * At(s, "I") * At(s, "B") * SinDeg(m, At(s, "theta"))), "Cannot calculate area when n, I, B or sinθ is zero")
  }

  function FieldFromTorque(m: Math, s: State): Result<real>
  {
    OnZeroDivision(Div(At(s, "torque"), At(s, "n") * At(s, "I") * At(s, "A") * SinDeg(m, At(s, "theta"))), "Cannot calculate B when n, I, A or sinθ is zero")
  }

  function AngleFromTorque(m: Math, s: State): Result<real>
  {
    var x :- Div(At(s, "torque"), At(s, "n") * At(s, "I") * At(s, "A") * At(s, "B")); AngleFromSine(m, x)
  }

  function TorqueRules(m: Math): seq<Rule>
  {
    [ Plain("torque", {"n", "I", "A", "B", "theta"}, s => TorqueValue(m, s)),
      Plain("n", {"torque", "I", "A", "B", "theta"}, s => TurnsFromTorque(m, s)),
      Plain("I", {"torque", "n", "A", "B", "theta"}, s => CurrentFromTorque(m, s)),
      Plain("A", {"torque", "n", "I", "B", "theta"}, s => AreaFromTorque(m, s)),
      Plain("B", {"torque", "n", "I", "A", "theta"}, s => FieldFromTorque(m, s)),
      Plain("theta", {"torque", "n", "I", "A", "B"}, s => AngleFromTorque(m, s))
    ]
  }

  function TorquePass(m: Math, s: State): Result<State>
  {
    RunRules(TorqueRules(m), s)
  }

  lemma TorqueWrites(m: Math)
    ensures WritesWithin(TorqueRules(m), TorqueKeys)
  {
  }

  lemma TorqueGrows(m: Math)
    ensures Grows(s => TorquePass(m, s), TorqueKeys)
  {
    TorqueWrites(m);
    RulesGrow(TorqueRules(m), TorqueKeys);
  }

  /** `solve_motor_torque(**kwargs)`. */
  function SolveMotorTorque(m: Math, kwargs: map<string, Option<real>>): (r: Result<State>)
    ensures r.Ok? ==> Solved(s => TorquePass(m, s), TorqueKeys, kwargs, r.value)
    ensures r.Ok? ==> "theta" in r.value ==> 0.0 <= r.value["theta"] <= 180.0
  {
    TorqueGrows(m);
    var f :- SolveFrom(s => TorquePass(m, s), TorqueKeys, kwargs);
    CheckAngle(f)
  }

  method MotorTorque(m: Math, kwargs: map<string, Option<real>>) returns (r: Result<State>)
    ensures r == SolveMotorTorque(m, kwargs)
  {
    TorqueGrows(m);
    var f :- RunToFixpoint(s => TorquePass(m, s), TorqueKeys, Seed(TorqueKeys, kwargs));
    r := CheckAngle(f);
  }

  // =====================================================================
  // What one pass derives.  Each lemma names the rule it is about and the
  // facts that keep the rules before it from firing; the arithmetic of the
  // rule's value is established apart, in a helper lemma about the value
  // alone, so that the solver never has to unfold the whole pass and the
  // arithmetic at once.

  lemma ElectricForceIs(m: Math, s: State)
    requires "q" in s && "E" in s
    ensures ElectricForce(m, s).Ok? && ElectricForce(m, s).value == s["q"] * s["E"]
  {
  }

  /** The electric force wins: with q and E known, F = qE, whether or not v, B
      and θ are known too; the magnetic formula then sees F already set. */
  lemma LorentzElectricFirst(m: Math, s: State)
    requires "F" !in s && "q" in s && "E" in s
    ensures LorentzPass(m, s).Ok? ==>
      "F" in LorentzPass(m, s).value && LorentzPass(m, s).value["F"] == s["q"] * s["E"]
  {
    RuleValue(LorentzRules(m), 0, s);
    ElectricForceIs(m, s);
  }

  lemma MagneticForceIs(m: Math, s: State)
    requires "q" in s && "v" in s && "B" in s && "theta" in s
    ensures MagneticForce(m, s).Ok?
    ensures MagneticForce(m, s).value == s["q"] * s["v"] * s["B"] * SinDeg(m, s["theta"])
  {
  }

  /** Without E the force is the magnetic one, F = qvB sin θ. */
  lemma LorentzMagnetic(m: Math, s: State)
    requires "F" !in s && "E" !in s && "q" in s && "v" in s && "B" in s && "theta" in s
    ensures LorentzPass(m, s).Ok? ==>
      "F" in LorentzPass(m, s).value &&
      LorentzPass(m, s).value["F"] == s["q"] * s["v"] * s["B"] * SinDeg(m, s["theta"])
  {
    var rules := LorentzRules(m);
    assert Fire(rules[0], s) == Ok(s);
    RuleValue(rules, 1, s);
    MagneticForceIs(m, s);
  }

  /** q = F/E, and a zero E escapes as ZeroDivisionError. */
  lemma LorentzCharge(m: Math, s: State)
    requires "q" !in s && "F" in s && "E" in s
    ensures s["E"] == 0.0 ==> LorentzPass(m, s) == Err(ZeroDivisionError)
    ensures LorentzPass(m, s).Ok? ==>
      s["E"] != 0.0 && "q" in LorentzPass(m, s).value && LorentzPass(m, s).value["q"] == s["F"] / s["E"]
  {
    var rules := LorentzRules(m);
    assert Fire(rules[0], s) == Ok(s);
    assert Fire(rules[1], s) == Ok(s);
    RuleValue(rules, 2, s);
    assert rules[2].value(s) == Div(s["F"], s["E"]);
  }

  lemma VelocityFromForceIs(m: Math, s: State)
    requires "F" in s && "q" in s && "B" in s && "theta" in s
    ensures var d := s["q"] * s["B"] * SinDeg(m, s["theta"]);
      && (d == 0.0 ==> VelocityFromForce(m, s) == Err(ValueError("Cannot calculate velocity when B or sinθ is zero")))
      && (d != 0.0 ==> VelocityFromForce(m, s).Ok? && VelocityFromForce(m, s).value == s["F"] / d)
  {
  }

  /** v = F/(qB sin θ), with the source's message when the divisor is zero. */
  lemma LorentzVelocity(m: Math, s: State)
    requires "v" !in s && "F" in s && "q" in s && "E" in s && "B" in s && "theta" in s
    ensures var d := s["q"] * s["B"] * SinDeg(m, s["theta"]);
      && (d == 0.0 ==> LorentzPass(m, s) == Err(ValueError("Cannot calculate velocity when B or sinθ is zero")))
      && (LorentzPass(m, s).Ok? ==>
            d != 0.0 && "v" in LorentzPass(m, s).value && LorentzPass(m, s).value["v"] == s["F"] / d)
  {
    var rules := LorentzRules(m);
    assert Fire(rules[0], s) == Ok(s);
    assert Fire(rules[1], s) == Ok(s);
    assert Fire(rules[2], s) == Ok(s);
    assert Fire(rules[3], s) == Ok(s);
    RuleValue(rules, 4, s);
    VelocityFromForceIs(m, s);
  }

  lemma LorentzAngleValueIs(m: Math, s: State)
    requires "F" in s && "q" in s && "v" in s && "B" in s
    ensures var d := s["q"] * s["v"] * s["B"];
      && (d == 0.0 ==> LorentzAngleValue(m, s) == Err(ZeroDivisionError))
      && (d != 0.0 && !(-1.0 <= s["F"] / d <= 1.0) ==> LorentzAngleValue(m, s) == Err(ValueError(AngleInvalid)))
      && (LorentzAngleValue(m, s).Ok? ==> d != 0.0 && LorentzAngleValue(m, s).value == Degrees(m.asin(s["F"] / d)))
  {
    var d := s["q"] * s["v"] * s["B"];
    if d != 0.0 {
      assert At(s, "q") * At(s, "v") * At(s, "B") == d;
      assert Div(At(s, "F"), d) == Ok(s["F"] / d);
      assert LorentzAngleValue(m, s) == AngleFromSine(m, s["F"] / d);
    }
  }

  /** θ = degrees(asin(F/(qvB))): a zero qvB raises ZeroDivisionError (the
      rule only catches ValueError), a sine outside [-1, 1] raises "Invalid
      combination", otherwise θ is the arcsine. */
  lemma LorentzEarlierRulesKnown(m: Math, s: State)
    requires "F" in s && "q" in s && "E" in s && "v" in s && "B" in s
    ensures forall j :: 0 <= j < 6 ==> Fire(LorentzRules(m)[j], s) == Ok(s)
  {
    var rules := LorentzRules(m);
    forall j | 0 <= j < 6
      ensures Fire(rules[j], s) == Ok(s)
    {
      assert rules[j].target in s;
    }
  }

  /** The last Lorentz rule derives θ from F, q, v and B. */
  lemma LorentzAngleRule(m: Math, s: State)
    ensures |LorentzRules(m)| == 7
    ensures var rule := LorentzRules(m)[6];
      rule.target == "theta" && rule.inputs == {"F", "q", "v", "B"} && rule.when(s) && rule.value(s) == LorentzAngleValue(m, s)
  {
  }

  lemma LorentzAngle(m: Math, s: State)
    requires "theta" !in s && "F" in s && "q" in s && "E" in s && "v" in s && "B" in s
    ensures var d := s["q"] * s["v"] * s["B"];
      && (d == 0.0 ==> LorentzPass(m, s) == Err(ZeroDivisionError))
      && (d != 0.0 && !(-1.0 <= s["F"] / d <= 1.0) ==> LorentzPass(m, s) == Err(ValueError(AngleInvalid)))
      && (LorentzPass(m, s).Ok? ==>
            d != 0.0 && "theta" in LorentzPass(m, s).value &&
            LorentzPass(m, s).value["theta"] == Degrees(m.asin(s["F"] / d)))
  {
    LorentzEarlierRulesKnown(m, s);
    LorentzAngleRule(m, s);
    LastRuleStores(LorentzRules(m), s);
    LorentzAngleValueIs(m, s);
  }

  lemma WireForceValueIs(m: Math, s: State)
    requires "I" in s && "L" in s && "B" in s && "theta" in s
    ensures WireForceValue(m, s).Ok?
    ensures WireForceValue(m, s).value == s["I"] * s["L"] * s["B"] * SinDeg(m, s["theta"])
  {
  }

  /** F = ILB sin θ. */
  lemma WireForce(m: Math, s: State)
    requires "F" !in s && "I" in s && "L" in s && "B" in s && "theta" in s
    ensures WirePass(m, s).Ok? ==>
      "F" in WirePass(m, s).value &&
      WirePass(m, s).value["F"] == s["I"] * s["L"] * s["B"] * SinDeg(m, s["theta"])
  {
    RuleValue(WireRules(m), 0, s);
    WireForceValueIs(m, s);
  }

  lemma WireCurrentValueIs(m: Math, s: State)
    requires "F" in s && "L" in s && "B" in s && "theta" in s
    ensures var d := s["L"] * s["B"] * SinDeg(m, s["theta"]);
      && (d == 0.0 ==> WireCurrentValue(m, s) == Err(ValueError("Cannot calculate current when L, B or sinθ is zero")))
      && (d != 0.0 ==> WireCurrentValue(m, s).Ok? && WireCurrentValue(m, s).value == s["F"] / d)
  {
  }

  /** I = F/(LB sin θ), with the source's message when the divisor is zero. */
  lemma WireCurrentLaw(m: Math, s: State)
    requires "I" !in s && "F" in s && "L" in s && "B" in s && "theta" in s
    ensures var d := s["L"] * s["B"] * SinDeg(m, s["theta"]);
      && (d == 0.0 ==> WirePass(m, s) == Err(ValueError("Cannot calculate current when L, B or sinθ is zero")))
      && (WirePass(m, s).Ok? ==> d != 0.0 && "I" in WirePass(m, s).value && WirePass(m, s).value["I"] == s["F"] / d)
  {
    var rules := WireRules(m);
    assert Fire(rules[0], s) == Ok(s);
    RuleValue(rules, 1, s);
    WireCurrentValueIs(m, s);
  }

  lemma ForcePerLengthIs(s: State)
    requires "I1" in s && "I2" in s && "r" in s
    ensures s["r"] <= 0.0 ==> ForcePerLength(s) == Err(ValueError("Separation distance must be positive"))
    ensures s["r"] > 0.0 ==>
      ForcePerLength(s).Ok? && ForcePerLength(s).value == Mu0 * s["I1"] * s["I2"] / (2.0 * Pi * s["r"])
  {
  }

  /** F/l = μ0 I1 I2 / (2πr), and a separation that is not positive is
      refused before anything is divided. */
  lemma ParallelWiresForce(s: State)
    requires "F_per_length" !in s && "I1" in s && "I2" in s && "r" in s
    ensures s["r"] <= 0.0 ==> ParallelPass(s) == Err(ValueError("Separation distance must be positive"))
    ensures ParallelPass(s).Ok? ==>
      s["r"] > 0.0 && "F_per_length" in ParallelPass(s).value &&
      ParallelPass(s).value["F_per_length"] == Mu0 * s["I1"] * s["I2"] / (2.0 * Pi * s["r"])
  {
    RuleValue(ParallelRules, 0, s);
    ForcePerLengthIs(s);
  }

  lemma SeparationIs(s: State)
    requires "F_per_length" in s && "I1" in s && "I2" in s
    ensures s["I1"] == 0.0 || s["I2"] == 0.0 ==> Separation(s) == Err(ValueError("Currents must be non-zero"))
    ensures s["I1"] != 0.0 && s["I2"] != 0.0 && s["F_per_length"] == 0.0 ==>
      Separation(s) == Err(ValueError("Force per length cannot be zero when calculating distance"))
    ensures s["I1"] != 0.0 && s["I2"] != 0.0 && s["F_per_length"] != 0.0 ==>
      Separation(s).Ok? && Separation(s).value == Mu0 * s["I1"] * s["I2"] / (2.0 * Pi * s["F_per_length"])
  {
    assert At(s, "I1") == s["I1"] && At(s, "I2") == s["I2"] && At(s, "F_per_length") == s["F_per_length"];
  }

  /** r = μ0 I1 I2 / (2π F/l), computed only for non-zero currents (checked
      first) and a non-zero force per length. */
  lemma ParallelWiresSeparation(s: State)
    requires "r" !in s && "F_per_length" in s && "I1" in s && "I2" in s
    ensures s["I1"] == 0.0 || s["I2"] == 0.0 ==> ParallelPass(s) == Err(ValueError("Currents must be non-zero"))
    ensures s["I1"] != 0.0 && s["I2"] != 0.0 && s["F_per_length"] == 0.0 ==>
      ParallelPass(s) == Err(ValueError("Force per length cannot be zero when calculating distance"))
    ensures ParallelPass(s).Ok? ==>
      s["I1"] != 0.0 && s["I2"] != 0.0 && s["F_per_length"] != 0.0 && "r" in ParallelPass(s).value &&
      ParallelPass(s).value["r"] == Mu0 * s["I1"] * s["I2"] / (2.0 * Pi * s["F_per_length"])
  {
    var rules := ParallelRules;
    assert Fire(rules[0], s) == Ok(s);
    assert Fire(rules[1], s) == Ok(s);
    assert Fire(rules[2], s) == Ok(s);
    assert rules[3].value(s) == Separation(s);
    RuleValue(rules, 3, s);
    SeparationIs(s);
  }

  lemma FluxIs(m: Math, s: State)
    requires "B" in s && "A" in s && "theta" !in s
    ensures Flux(m, s).Ok? && Flux(m, s).value == s["B"] * s["A"] * m.cos(0.0)
  {
  }

  /** Without θ the flux uses cos 0. */
  lemma FluxDefaultAngle(m: Math, s: State)
    requires "phi" !in s && "B" in s && "A" in s && "theta" !in s
    ensures EmfPass(m, s).Ok? ==>
      "phi" in EmfPass(m, s).value && EmfPass(m, s).value["phi"] == s["B"] * s["A"] * m.cos(0.0)
  {
    RuleValue(EmfRules(m), 0, s);
    FluxIs(m, s);
  }

  lemma InducedEmfIs(m: Math, s: State)
    requires "N" in s && "delta_phi" in s && "delta_t" in s
    ensures s["delta_t"] <= 0.0 ==> InducedEmf(m, s) == Err(ValueError("Time change must be positive"))
    ensures s["delta_t"] > 0.0 ==>
      InducedEmf(m, s).Ok? && InducedEmf(m, s).value == -s["N"] * s["delta_phi"] / s["delta_t"]
  {
  }

  /** Faraday's law ε = -NΔΦ/Δt, for a positive Δt only. */
  lemma FaradayLaw(m: Math, s: State)
    requires "phi" in s && "emf" !in s && "N" in s && "delta_phi" in s && "delta_t" in s
    ensures s["delta_t"] <= 0.0 ==> EmfPass(m, s) == Err(ValueError("Time change must be positive"))
    ensures EmfPass(m, s).Ok? ==>
      s["delta_t"] > 0.0 && "emf" in EmfPass(m, s).value &&
      EmfPass(m, s).value["emf"] == -s["N"] * s["delta_phi"] / s["delta_t"]
  {
    var rules := EmfRules(m);
    assert Fire(rules[0], s) == Ok(s);
    RuleValue(rules, 1, s);
    InducedEmfIs(m, s);
  }

  lemma FluxChangeIs(m: Math, s: State)
    requires "emf" in s && "N" in s && "delta_t" in s
    requires s["delta_t"] > 0.0 && s["N"] == 0.0
    ensures FluxChange(m, s) == Err(ZeroDivisionError)
  {
  }

  /** ΔΦ checks Δt but divides by N: zero turns raise ZeroDivisionError. */
  lemma FluxChangeZeroTurns(m: Math, s: State)
    requires "phi" in s && "emf" in s && "N" in s && "delta_phi" !in s && "delta_t" in s
    requires s["delta_t"] > 0.0 && s["N"] == 0.0
    ensures EmfPass(m, s) == Err(ZeroDivisionError)
  {
    var rules := EmfRules(m);
    assert Fire(rules[0], s) == Ok(s);
    assert Fire(rules[1], s) == Ok(s);
    assert Fire(rules[2], s) == Ok(s);
    RuleValue(rules, 3, s);
    FluxChangeIs(m, s);
  }

  lemma AngleFromFluxIs(m: Math, s: State)
    requires "phi" in s && "B" in s && "A" in s
    ensures var d := s["B"] * s["A"];
      && (d == 0.0 ==> AngleFromFlux(m, s) == Err(ValueError("Cannot calculate angle when B or A is zero")))
      && (d != 0.0 && Abs(s["phi"] / d) > 1.0 ==>
            AngleFromFlux(m, s) == Err(ValueError("Invalid combination of values - |cosθ| cannot exceed 1")))
      && (AngleFromFlux(m, s).Ok? ==> d != 0.0 && AngleFromFlux(m, s).value == Degrees(m.acos(s["phi"] / d)))
  {
    var d := s["B"] * s["A"];
    if d != 0.0 {
      assert At(s, "B") * At(s, "A") == d;
      assert Div(At(s, "phi"), d) == Ok(s["phi"] / d);
      assert AngleFromFlux(m, s) == Reject(Abs(s["phi"] / d) > 1.0, "Invalid combination of values - |cosθ| cannot exceed 1", Ok(Degrees(m.acos(s["phi"] / d))));
    }
  }

  /** With every other quantity of the EMF problem known, only the angle
      rule can fire. */
  lemma EmfEarlierRulesKnown(m: Math, s: State)
    requires "phi" in s && "emf" in s && "N" in s && "delta_phi" in s && "delta_t" in s && "B" in s && "A" in s
    ensures forall j :: 0 <= j < 7 ==> Fire(EmfRules(m)[j], s) == Ok(s)
  {
    var rules := EmfRules(m);
    forall j | 0 <= j < 7
      ensures Fire(rules[j], s) == Ok(s)
    {
      assert rules[j].target in s;
    }
  }

  /** θ = degrees(acos(Φ/(BA))), refused when BA is zero or the cosine
      leaves [-1, 1]. */
  lemma FluxAngle(m: Math, s: State)
    requires "theta" !in s && "phi" in s && "emf" in s && "N" in s && "delta_phi" in s && "delta_t" in s
    requires "B" in s && "A" in s
    ensures var d := s["B"] * s["A"];
      && (d == 0.0 ==> EmfPass(m, s) == Err(ValueError("Cannot calculate angle when B or A is zero")))
      && (d != 0.0 && Abs(s["phi"] / d) > 1.0 ==>
            EmfPass(m, s) == Err(ValueError("Invalid combination of values - |cosθ| cannot exceed 1")))
      && (EmfPass(m, s).Ok? ==>
            d != 0.0 && "theta" in EmfPass(m, s).value &&
            EmfPass(m, s).value["theta"] == Degrees(m.acos(s["phi"] / d)))
  {
    EmfPassIsAngle(m, s);
    AngleFromFluxIs(m, s);
  }

  /** With every other quantity known, the EMF pass is the angle rule alone. */
  /** The last emf rule derives θ from Φ, B and A. */
  lemma EmfAngleRule(m: Math, s: State)
    ensures |EmfRules(m)| == 8
    ensures var rule := EmfRules(m)[7];
      rule.target == "theta" && rule.inputs == {"phi", "B", "A"} && rule.when(s) && rule.value(s) == AngleFromFlux(m, s)
  {
  }

  lemma EmfPassIsAngle(m: Math, s: State)
    requires "theta" !in s && "phi" in s && "emf" in s && "N" in s && "delta_phi" in s && "delta_t" in s
    requires "B" in s && "A" in s
    ensures EmfPass(m, s) == Store(s, "theta", AngleFromFlux(m, s))
  {
    EmfEarlierRulesKnown(m, s);
    EmfAngleRule(m, s);
    LastRuleStores(EmfRules(m), s);
  }

  lemma SecondaryVoltageIs(s: State)
    requires "V_p" in s && "N_p" in s && "N_s" in s
    ensures s["N_s"] <= 0.0 ==> SecondaryVoltage(s) == Err(ValueError("Secondary turns must be positive"))
    ensures s["N_s"] > 0.0 && s["N_p"] == 0.0 ==> SecondaryVoltage(s) == Err(ZeroDivisionError)
    ensures s["N_s"] > 0.0 && s["N_p"] != 0.0 ==>
      SecondaryVoltage(s).Ok? && SecondaryVoltage(s).value == s["V_p"] * s["N_s"] / s["N_p"]
  {
  }

  /** V_s = V_p N_s / N_p.  The rule checks N_s but divides by N_p, so a zero
      primary count raises ZeroDivisionError instead of a message. */
  lemma TransformerVoltageRatio(s: State)
    requires "V_s" !in s && "V_p" in s && "N_p" in s && "N_s" in s
    ensures s["N_s"] <= 0.0 ==> TransformerPass(s) == Err(ValueError("Secondary turns must be positive"))
    ensures s["N_s"] > 0.0 && s["N_p"] == 0.0 ==> TransformerPass(s) == Err(ZeroDivisionError)
    ensures TransformerPass(s).Ok? ==>
      s["N_s"] > 0.0 && s["N_p"] != 0.0 && "V_s" in TransformerPass(s).value &&
      TransformerPass(s).value["V_s"] == s["V_p"] * s["N_s"] / s["N_p"]
  {
    RuleValue(TransformerRules, 0, s);
    SecondaryVoltageIs(s);
  }

  lemma SecondaryCurrentIs(s: State)
    requires "I_p" in s && "N_p" in s && "N_s" in s
    ensures s["N_p"] <= 0.0 ==> SecondaryCurrent(s) == Err(ValueError("Primary turns must be positive"))
    ensures s["N_p"] > 0.0 && s["N_s"] == 0.0 ==> SecondaryCurrent(s) == Err(ZeroDivisionError)
    ensures s["N_p"] > 0.0 && s["N_s"] != 0.0 ==>
      SecondaryCurrent(s).Ok? && SecondaryCurrent(s).value == s["I_p"] * s["N_p"] / s["N_s"]
  {
  }

  /** I_s = I_p N_p / N_s for a problem without voltages; the check is on N_p
      and the division by N_s. */
  lemma TransformerCurrentRatio(s: State)
    requires "V_p" !in s && "V_s" !in s && "I_s" !in s && "I_p" in s && "N_p" in s && "N_s" in s
    ensures s["N_p"] <= 0.0 ==> TransformerPass(s) == Err(ValueError("Primary turns must be positive"))
    ensures s["N_p"] > 0.0 && s["N_s"] == 0.0 ==> TransformerPass(s) == Err(ZeroDivisionError)
    ensures TransformerPass(s).Ok? ==>
      s["N_p"] > 0.0 && s["N_s"] != 0.0 && "I_s" in TransformerPass(s).value &&
      TransformerPass(s).value["I_s"] == s["I_p"] * s["N_p"] / s["N_s"]
  {
    var rules := TransformerRules;
    assert Fire(rules[0], s) == Ok(s);
    assert Fire(rules[1], s) == Ok(s);
    assert Fire(rules[2], s) == Ok(s);
    assert Fire(rules[3], s) == Ok(s);
    RuleValue(rules, 4, s);
    SecondaryCurrentIs(s);
  }

  lemma TorqueValueIs(m: Math, s: State)
    requires "n" in s && "I" in s && "A" in s && "B" in s && "theta" in s
    ensures TorqueValue(m, s).Ok?
    ensures TorqueValue(m, s).value == s["n"] * s["I"] * s["A"] * s["B"] * SinDeg(m, s["theta"])
  {
  }

  /** τ = nIAB sin θ. */
  lemma TorqueFormula(m: Math, s: State)
    requires "torque" !in s && "n" in s && "I" in s && "A" in s && "B" in s && "theta" in s
    ensures TorquePass(m, s).Ok? ==>
      "torque" in TorquePass(m, s).value &&
      TorquePass(m, s).value["torque"] == s["n"] * s["I"] * s["A"] * s["B"] * SinDeg(m, s["theta"])
  {
    RuleValue(TorqueRules(m), 0, s);
    TorqueValueIs(m, s);
  }

  /** What the torque rules write and compute, read off the list once. */
  lemma TorqueRuleFacts(m: Math, s: State)
    ensures |TorqueRules(m)| == 6
    ensures var r := TorqueRules(m);
      r[0].target == "torque" && r[1].target == "n" && r[2].target == "I" && r[3].target == "A" && r[4].target == "B"
    ensures var r := TorqueRules(m);
      && r[1].inputs == {"torque", "I", "A", "B", "theta"} && r[1].when(s) && r[1].value(s) == TurnsFromTorque(m, s)
      && r[2].inputs == {"torque", "n", "A", "B", "theta"} && r[2].when(s) && r[2].value(s) == CurrentFromTorque(m, s)
      && r[3].inputs == {"torque", "n", "I", "B", "theta"} && r[3].when(s) && r[3].value(s) == AreaFromTorque(m, s)
      && r[4].inputs == {"torque", "n", "I", "A", "theta"} && r[4].when(s) && r[4].value(s) == FieldFromTorque(m, s)
  {
  }

  lemma TurnsFromTorqueIs(m: Math, s: State)
    requires "torque" in s && "I" in s && "A" in s && "B" in s && "theta" in s
    ensures var d := s["I"] * s["A"] * s["B"] * SinDeg(m, s["theta"]);
      && (d == 0.0 ==> TurnsFromTorque(m, s) == Err(ValueError("Cannot calculate turns when I, A, B or sinθ is zero")))
      && (d != 0.0 ==> TurnsFromTorque(m, s).Ok? && TurnsFromTorque(m, s).value == s["torque"] / d)
  {
  }

  /** n = τ/(IAB sin θ), with the source's message when the divisor is zero. */
  lemma TorqueTurns(m: Math, s: State)
    requires "n" !in s && "torque" in s && "I" in s && "A" in s && "B" in s && "theta" in s
    ensures var d := s["I"] * s["A"] * s["B"] * SinDeg(m, s["theta"]);
      && (d == 0.0 ==> TorquePass(m, s) == Err(ValueError("Cannot calculate turns when I, A, B or sinθ is zero")))
      && (TorquePass(m, s).Ok? ==> d != 0.0 && "n" in TorquePass(m, s).value && TorquePass(m, s).value["n"] == s["torque"] / d)
  {
    TorqueRuleFacts(m, s);
    RuleValue(TorqueRules(m), 1, s);
    TurnsFromTorqueIs(m, s);
  }

  lemma WireLengthValueIs(m: Math, s: State)
    requires "F" in s && "I" in s && "B" in s && "theta" in s
    ensures var d := s["I"] * s["B"] * SinDeg(m, s["theta"]);
      && (d == 0.0 ==> WireLengthValue(m, s) == Err(ValueError("Cannot calculate length when I, B or sinθ is zero")))
      && (d != 0.0 ==> WireLengthValue(m, s).Ok? && WireLengthValue(m, s).value == s["F"] / d)
  {
  }

  /** L = F/(IB sin θ), with the source's message when the divisor is zero. */
  lemma WireLengthLaw(m: Math, s: State)
    requires "L" !in s && "F" in s && "I" in s && "B" in s && "theta" in s
    ensures var d := s["I"] * s["B"] * SinDeg(m, s["theta"]);
      && (d == 0.0 ==> WirePass(m, s) == Err(ValueError("Cannot calculate length when I, B or sinθ is zero")))
      && (WirePass(m, s).Ok? ==> d != 0.0 && "L" in WirePass(m, s).value && WirePass(m, s).value["L"] == s["F"] / d)
  {
    var rules := WireRules(m);
    assert Fire(rules[0], s) == Ok(s);
    assert Fire(rules[1], s) == Ok(s);
    assert rules[2].value(s) == WireLengthValue(m, s);
    RuleValue(rules, 2, s);
    WireLengthValueIs(m, s);
  }

  lemma WireFieldValueIs(m: Math, s: State)
    requires "F" in s && "I" in s && "L" in s && "theta" in s
    ensures var d := s["I"] * s["L"] * SinDeg(m, s["theta"]);
      && (d == 0.0 ==> WireFieldValue(m, s) == Err(ValueError("Cannot calculate B when I, L or sinθ is zero")))
      && (d != 0.0 ==> WireFieldValue(m, s).Ok? && WireFieldValue(m, s).value == s["F"] / d)
  {
  }

  /** B = F/(IL sin θ), with the source's message when the divisor is zero. */
  lemma WireFieldLaw(m: Math, s: State)
    requires "B" !in s && "F" in s && "I" in s && "L" in s && "theta" in s
    ensures var d := s["I"] * s["L"] * SinDeg(m, s["theta"]);
      && (d == 0.0 ==> WirePass(m, s) == Err(ValueError("Cannot calculate B when I, L or sinθ is zero")))
      && (WirePass(m, s).Ok? ==> d != 0.0 && "B" in WirePass(m, s).value && WirePass(m, s).value["B"] == s["F"] / d)
  {
    var rules := WireRules(m);
    assert Fire(rules[0], s) == Ok(s);
    assert Fire(rules[1], s) == Ok(s);
    assert Fire(rules[2], s) == Ok(s);
    assert rules[3].value(s) == WireFieldValue(m, s);
    RuleValue(rules, 3, s);
    WireFieldValueIs(m, s);
  }

  lemma CurrentFromTorqueIs(m: Math, s: State)
    requires "torque" in s && "n" in s && "A" in s && "B" in s && "theta" in s
    ensures var d := s["n"] * s["A"] * s["B"] * SinDeg(m, s["theta"]);
      && (d == 0.0 ==> CurrentFromTorque(m, s) == Err(ValueError("Cannot calculate current when n, A, B or sinθ is zero")))
      && (d != 0.0 ==> CurrentFromTorque(m, s).Ok? && CurrentFromTorque(m, s).value == s["torque"] / d)
  {
  }

  /** I = τ/(nAB sin θ), with the source's message when the divisor is zero. */
  lemma TorqueCurrent(m: Math, s: State)
    requires "I" !in s && "torque" in s && "n" in s && "A" in s && "B" in s && "theta" in s
    ensures var d := s["n"] * s["A"] * s["B"] * SinDeg(m, s["theta"]);
      && (d == 0.0 ==> TorquePass(m, s) == Err(ValueError("Cannot calculate current when n, A, B or sinθ is zero")))
      && (TorquePass(m, s).Ok? ==> d != 0.0 && "I" in TorquePass(m, s).value && TorquePass(m, s).value["I"] == s["torque"] / d)
  {
    TorqueRuleFacts(m, s);
    RuleValue(TorqueRules(m), 2, s);
    CurrentFromTorqueIs(m, s);
  }

  lemma AreaFromTorqueIs(m: Math, s: State)
    requires "torque" in s && "n" in s && "I" in s && "B" in s && "theta" in s
    ensures var d := s["n"] * s["I"] * s["B"] * SinDeg(m, s["theta"]);
      && (d == 0.0 ==> AreaFromTorque(m, s) == Err(ValueError("Cannot calculate area when n, I, B or sinθ is zero")))
      && (d != 0.0 ==> AreaFromTorque(m, s).Ok? && AreaFromTorque(m, s).value == s["torque"] / d)
  {
  }

  /** A = τ/(nIB sin θ), with the source's message when the divisor is zero. */
  lemma TorqueArea(m: Math, s: State)
    requires "A" !in s && "torque" in s && "n" in s && "I" in s && "B" in s && "theta" in s
    ensures var d := s["n"] * s["I"] * s["B"] * SinDeg(m, s["theta"]);
      && (d == 0.0 ==> TorquePass(m, s) == Err(ValueError("Cannot calculate area when n, I, B or sinθ is zero")))
      && (TorquePass(m, s).Ok? ==> d != 0.0 && "A" in TorquePass(m, s).value && TorquePass(m, s).value["A"] == s["torque"] / d)
  {
    TorqueRuleFacts(m, s);
    RuleValue(TorqueRules(m), 3, s);
    AreaFromTorqueIs(m, s);
  }

  lemma FieldFromTorqueIs(m: Math, s: State)
    requires "torque" in s && "n" in s && "I" in s && "A" in s && "theta" in s
    ensures var d := s["n"] * s["I"] * s["A"] * SinDeg(m, s["theta"]);
      && (d == 0.0 ==> FieldFromTorque(m, s) == Err(ValueError("Cannot calculate B when n, I, A or sinθ is zero")))
      && (d != 0.0 ==> FieldFromTorque(m, s).Ok? && FieldFromTorque(m, s).value == s["torque"] / d)
  {
  }

  /** B = τ/(nIA sin θ), with the source's message when the divisor is zero. */
  lemma TorqueField(m: Math, s: State)
    requires "B" !in s && "torque" in s && "n" in s && "I" in s && "A" in s && "theta" in s
    ensures var d := s["n"] * s["I"] * s["A"] * SinDeg(m, s["theta"]);
      && (d == 0.0 ==> TorquePass(m, s) == Err(ValueError("Cannot calculate B when n, I, A or sinθ is zero")))
      && (TorquePass(m, s).Ok? ==> d != 0.0 && "B" in TorquePass(m, s).value && TorquePass(m, s).value["B"] == s["torque"] / d)
  {
    TorqueRuleFacts(m, s);
    RuleValue(TorqueRules(m), 4, s);
    FieldFromTorqueIs(m, s);
  }

  lemma PrimaryVoltageIs(s: State)
    requires "V_s" in s && "N_p" in s && "N_s" in s
    ensures s["N_p"] <= 0.0 ==> PrimaryVoltage(s) == Err(ValueError("Primary turns must be positive"))
    ensures s["N_p"] > 0.0 && s["N_s"] == 0.0 ==> PrimaryVoltage(s) == Err(ZeroDivisionError)
    ensures s["N_p"] > 0.0 && s["N_s"] != 0.0 ==>
      PrimaryVoltage(s).Ok? && PrimaryVoltage(s).value == s["V_s"] * s["N_p"] / s["N_s"]
  {
  }

  /** V_p = V_s N_p / N_s; the check is on N_p and the division by N_s. */
  lemma TransformerPrimaryVoltage(s: State)
    requires "V_p" !in s && "V_s" in s && "N_p" in s && "N_s" in s
    ensures s["N_p"] <= 0.0 ==> TransformerPass(s) == Err(ValueError("Primary turns must be positive"))
    ensures s["N_p"] > 0.0 && s["N_s"] == 0.0 ==> TransformerPass(s) == Err(ZeroDivisionError)
    ensures TransformerPass(s).Ok? ==>
      s["N_p"] > 0.0 && s["N_s"] != 0.0 && "V_p" in TransformerPass(s).value &&
      TransformerPass(s).value["V_p"] == s["V_s"] * s["N_p"] / s["N_s"]
  {
    var rules := TransformerRules;
    assert Fire(rules[0], s) == Ok(s);
    assert rules[1].value(s) == PrimaryVoltage(s);
    RuleValue(rules, 1, s);
    PrimaryVoltageIs(s);
  }

  lemma PrimaryTurnsIs(s: State)
    requires "V_p" in s && "V_s" in s && "N_s" in s
    ensures s["V_p"] == 0.0 ==> PrimaryTurns(s) == Err(ValueError("Primary voltage cannot be zero"))
    ensures s["V_p"] != 0.0 && s["N_s"] <= 0.0 ==> PrimaryTurns(s) == Err(ValueError("Secondary turns must be positive"))
    ensures s["V_p"] != 0.0 && s["N_s"] > 0.0 && s["V_s"] == 0.0 ==> PrimaryTurns(s) == Err(ZeroDivisionError)
    ensures s["V_p"] != 0.0 && s["N_s"] > 0.0 && s["V_s"] != 0.0 ==>
      PrimaryTurns(s).Ok? && PrimaryTurns(s).value == s["N_s"] * s["V_p"] / s["V_s"]
  {
  }

  /** N_p = N_s V_p / V_s, refusing a zero V_p and a non-positive N_s first. */
  lemma TransformerPrimaryTurns(s: State)
    requires "N_p" !in s && "V_p" in s && "V_s" in s && "N_s" in s
    ensures s["V_p"] == 0.0 ==> TransformerPass(s) == Err(ValueError("Primary voltage cannot be zero"))
    ensures s["V_p"] != 0.0 && s["N_s"] <= 0.0 ==> TransformerPass(s) == Err(ValueError("Secondary turns must be positive"))
    ensures s["V_p"] != 0.0 && s["N_s"] > 0.0 && s["V_s"] == 0.0 ==> TransformerPass(s) == Err(ZeroDivisionError)
    ensures TransformerPass(s).Ok? ==>
      s["V_p"] != 0.0 && s["N_s"] > 0.0 && s["V_s"] != 0.0 && "N_p" in TransformerPass(s).value &&
      TransformerPass(s).value["N_p"] == s["N_s"] * s["V_p"] / s["V_s"]
  {
    var rules := TransformerRules;
    assert Fire(rules[0], s) == Ok(s);
    assert Fire(rules[1], s) == Ok(s);
    assert Fire(rules[2], s) == Ok(s);
    assert rules[3].value(s) == PrimaryTurns(s);
    RuleValue(rules, 3, s);
    PrimaryTurnsIs(s);
  }

  lemma PrimaryCurrentIs(s: State)
    requires "I_s" in s && "N_p" in s && "N_s" in s
    ensures s["N_s"] <= 0.0 ==> PrimaryCurrent(s) == Err(ValueError("Secondary turns must be positive"))
    ensures s["N_s"] > 0.0 && s["N_p"] == 0.0 ==> PrimaryCurrent(s) == Err(ZeroDivisionError)
    ensures s["N_s"] > 0.0 && s["N_p"] != 0.0 ==>
      PrimaryCurrent(s).Ok? && PrimaryCurrent(s).value == s["I_s"] * s["N_s"] / s["N_p"]
  {
  }

  /** I_p = I_s N_s / N_p for a problem without voltages; the check is on N_s
      and the division by N_p. */
  lemma TransformerPrimaryCurrent(s: State)
    requires "V_p" !in s && "V_s" !in s && "I_p" !in s && "I_s" in s && "N_p" in s && "N_s" in s
    ensures s["N_s"] <= 0.0 ==> TransformerPass(s) == Err(ValueError("Secondary turns must be positive"))
    ensures s["N_s"] > 0.0 && s["N_p"] == 0.0 ==> TransformerPass(s) == Err(ZeroDivisionError)
    ensures TransformerPass(s).Ok? ==>
      s["N_s"] > 0.0 && s["N_p"] != 0.0 && "I_p" in TransformerPass(s).value &&
      TransformerPass(s).value["I_p"] == s["I_s"] * s["N_s"] / s["N_p"]
  {
    var rules := TransformerRules;
    assert Fire(rules[0], s) == Ok(s);
    assert Fire(rules[1], s) == Ok(s);
    assert Fire(rules[2], s) == Ok(s);
    assert Fire(rules[3], s) == Ok(s);
    assert Fire(rules[4], s) == Ok(s);
    assert rules[5].value(s) == PrimaryCurrent(s);
    RuleValue(rules, 5, s);
    PrimaryCurrentIs(s);
  }
}
