/** `AdvancedMechanicsSolver` (core/advanced_mechanics.py): projectile motion,
    uniform circular motion, banked tracks and gravitation.  Each solver seeds
    its own dictionary from the keyword arguments, runs its guarded rules in a
    `while changed` loop and returns the set entries; the two that carry an
    angle θ rewrite it in place before and after the loop. */
module AdvancedMechanics {
  import opened Outcomes
  import opened Numerics
  import opened Knowns

  /** `self.g`, standard gravity in m/s^2. */
  const Gravity: real := 9.81

  /** `self.G`, the gravitational constant 6.67430e-11. */
  const BigG: real := 0.0000000000667430

  /** `earth_radius` of `solve_gravitation`, 6.371e6 m. */
  const EarthRadius: real := 6371000.0

  // =====================================================================
  // The angle convention of the projectile and banked-track solvers.

  /** Before the loop: a θ above 2π is taken to be in degrees and converted
      to radians; any smaller θ is used as radians. */
  function EnterRadians(s: State): (r: State)
    ensures r.Keys == s.Keys
    ensures forall k :: k in s && k != "θ" ==> r[k] == s[k]
    ensures "θ" in s ==> r["θ"] == (if s["θ"] > 2.0 * Pi then Radians(s["θ"]) else s["θ"])
  {
    if "θ" in s && s["θ"] > 2.0 * Pi then s["θ" := Radians(s["θ"])] else s
  }

  /** After the loop: whatever θ holds is converted to degrees. */
  function LeaveRadians(s: State): (r: State)
    ensures r.Keys == s.Keys
    ensures forall k :: k in s && k != "θ" ==> r[k] == s[k]
    ensures "θ" in s ==> r["θ"] == Degrees(s["θ"])
  {
    if "θ" in s then s["θ" := Degrees(s["θ"])] else s
  }

  /** The internal state behind a returned one: θ back in radians. */
  function InRadians(s: State): (r: State)
    ensures r.Keys == s.Keys
    ensures forall k :: k in s && k != "θ" ==> r[k] == s[k]
  {
    if "θ" in s then s["θ" := Radians(s["θ"])] else s
  }

  lemma InRadiansLeaveRadians(s: State)
    ensures InRadians(LeaveRadians(s)) == s
  {
    if "θ" in s {
      RadiansDegrees(s["θ"]);
    }
  }

  /** A θ converted on the way in and on the way out comes back as given
      when it was above 2π, and in degrees otherwise. */
  lemma AngleComesBack(s: State)
    ensures "θ" in s ==>
      Degrees(EnterRadians(s)["θ"]) == (if s["θ"] > 2.0 * Pi then s["θ"] else Degrees(s["θ"]))
  {
    if "θ" in s {
      RadiansDegrees(s["θ"]);
    }
  }

  /** A solver with an angle: seed, convert θ to radians if it looks like
      degrees, run the loop, convert θ to degrees.  Every argument other than
      θ comes back as given; a θ above 2π comes back as given, a smaller one
      comes back multiplied by 180/π; and the result, with θ read back in
      radians, is a fixed point of the pass. */
  function SolveWithAngle(pass: State -> Result<State>, schema: set<string>, kwargs: map<string, Option<real>>)
    : (r: Result<State>)
    requires Grows(pass, schema)
    ensures r.Ok? ==> r.value.Keys <= schema
    ensures r.Ok? ==> forall k :: k in schema && k != "θ" && k in kwargs && kwargs[k].Some? ==>
      k in r.value && r.value[k] == kwargs[k].value
    ensures r.Ok? && "θ" in schema && "θ" in kwargs && kwargs["θ"].Some? ==>
      "θ" in r.value &&
      r.value["θ"] == (if kwargs["θ"].value > 2.0 * Pi then kwargs["θ"].value else Degrees(kwargs["θ"].value))
    ensures r.Ok? ==> pass(InRadians(r.value)) == Ok(InRadians(r.value))
  {
    var seed := EnterRadians(Seed(schema, kwargs));
    FixProperties(pass, schema, seed);
    var t :- Fix(pass, schema, seed);
    InRadiansLeaveRadians(t);
    AngleComesBack(Seed(schema, kwargs));
    Ok(LeaveRadians(t))
  }

  /** The angle solvers, like the others, relate a symbol the caller did not
      give to the rest of the result (θ read back in radians) as every rule
      that writes it does. */
  lemma SolvedWithAngleEstablishes(rules: seq<Rule>, pass: State -> Result<State>, schema: set<string>,
                                   x: string, P: (State, real) -> bool, kwargs: map<string, Option<real>>)
    requires Grows(pass, schema) && forall t :: pass(t) == RunRules(rules, t)
    requires Stable(x, P) && Establishes(rules, x, P) && x != "θ"
    requires !(x in kwargs && kwargs[x].Some?)
    ensures var r := SolveWithAngle(pass, schema, kwargs);
      r.Ok? && x in r.value ==> P(InRadians(r.value), r.value[x])
  {
    var seed := EnterRadians(Seed(schema, kwargs));
    FixEstablishes(rules, pass, schema, x, P, seed);
    if Fix(pass, schema, seed).Ok? {
      InRadiansLeaveRadians(Fix(pass, schema, seed).value);
    }
  }

  // =====================================================================
  // Projectile motion.

  const ProjectileKeys: set<string> := {"u", "θ", "ux", "uy", "t_flight", "max_height", "range"}

  function LaunchX(m: Math, s: State): Result<real> { Ok(At(s, "u") * m.cos(At(s, "θ"))) }
  function LaunchY(m: Math, s: State): Result<real> { Ok(At(s, "u") * m.sin(At(s, "θ"))) }
  function LaunchSpeed(m: Math, s: State): Result<real> { Sqrt(m, At(s, "ux") * At(s, "ux") + At(s, "uy") * At(s, "uy")) }
  function LaunchAngle(m: Math, s: State): Result<real> { Ok(m.atan2(At(s, "uy"), At(s, "ux"))) }
  function FlightTime(s: State): Result<real> { Ok(2.0 * At(s, "uy") / Gravity) }
  function RiseFromTime(s: State): Result<real> { Ok(At(s, "t_flight") * Gravity / 2.0) }
  function MaxHeight(s: State): Result<real> { Ok(At(s, "uy") * At(s, "uy") / (2.0 * Gravity)) }
  function RiseFromHeight(m: Math, s: State): Result<real> { Sqrt(m, 2.0 * Gravity * At(s, "max_height")) }
  function Range(s: State): Result<real> { Ok(At(s, "ux") * At(s, "t_flight")) }
  function AcrossFromRange(s: State): Result<real> { Div(At(s, "range"), At(s, "t_flight")) }
  function TimeFromRange(s: State): Result<real> { Div(At(s, "range"), At(s, "ux")) }

  /** The rules of the projectile loop, in source order.  The two range
      inverses fire only for a non-zero divisor; the square root for uy
      raises on a negative height. */
  function ProjectileRules(m: Math): seq<Rule>
  {
    [ Plain("ux", {"u", "θ"}, s => LaunchX(m, s)),
      Plain("uy", {"u", "θ"}, s => LaunchY(m, s)),
      Plain("u", {"ux", "uy"}, s => LaunchSpeed(m, s)),
      Plain("θ", {"ux", "uy"}, s => LaunchAngle(m, s)),
      Plain("t_flight", {"uy"}, FlightTime),
      Plain("uy", {"t_flight"}, RiseFromTime),
      Plain("max_height", {"uy"}, MaxHeight),
      Plain("uy", {"max_height"}, s => RiseFromHeight(m, s)),
      Plain("range", {"ux", "t_flight"}, Range),
      Rule("ux", {"range", "t_flight"}, s => At(s, "t_flight") != 0.0, AcrossFromRange),
      Rule("t_flight", {"range", "ux"}, s => At(s, "ux") != 0.0, TimeFromRange)
    ]
  }

  /** One pass of the projectile loop. */
  function ProjectilePass(m: Math, s: State): Result<State>
  {
    RunRules(ProjectileRules(m), s)
  }

  /** The pass as a value, for the fixed-point drivers. */
  function ProjectileStep(m: Math): State -> Result<State>
  {
    s => ProjectilePass(m, s)
  }

  lemma ProjectileGrows(m: Math)
    ensures Grows(ProjectileStep(m), ProjectileKeys)
  {
    assert WritesWithin(ProjectileRules(m), ProjectileKeys);
    RulesGrow(ProjectileRules(m), ProjectileKeys);
  }

  /** `solve_projectile_motion(**kwargs)`. */
  function SolveProjectileMotion(m: Math, kwargs: map<string, Option<real>>): Result<State>
  {
    ProjectileGrows(m);
    SolveWithAngle(ProjectileStep(m), ProjectileKeys, kwargs)
  }

  /** The method itself: θ is rewritten in place around the loop. */
  method ProjectileMotion(m: Math, kwargs: map<string, Option<real>>) returns (r: Result<State>)
    ensures r == SolveProjectileMotion(m, kwargs)
  {
    ProjectileGrows(m);
    var s := Seed(ProjectileKeys, kwargs);
    if "θ" in s && s["θ"] > 2.0 * Pi {
      s := s["θ" := Radians(s["θ"])];
    }
    var f :- RunToFixpoint(ProjectileStep(m), ProjectileKeys, s);
    if "θ" in f {
      f := f["θ" := Degrees(f["θ"])];
    }
    r := Ok(f);
  }

  // =====================================================================
  // Uniform circular motion.

  const CircularKeys: set<string> := {"v", "r", "T", "f", "ω", "a_c", "F_c", "m"}

  function OmegaFromPeriod(s: State): Result<real> { Div(2.0 * Pi, At(s, "T")) }
  function OmegaFromFrequency(s: State): Result<real> { Ok(2.0 * Pi * At(s, "f")) }
  function PeriodFromOmega(s: State): Result<real> { Div(2.0 * Pi, At(s, "ω")) }
  function FrequencyFromPeriod(s: State): Result<real> { Div(1.0, At(s, "T")) }
  function SpeedFromOmega(s: State): Result<real> { Ok(At(s, "ω") * At(s, "r")) }
  function OmegaFromSpeed(s: State): Result<real> { Div(At(s, "v"), At(s, "r")) }
  function RadiusFromOmega(s: State): Result<real> { Div(At(s, "v"), At(s, "ω")) }
  function Centripetal(s: State): Result<real> { Div(At(s, "v") * At(s, "v"), At(s, "r")) }
  function SpeedFromCentripetal(m: Math, s: State): Result<real> { Sqrt(m, At(s, "a_c") * At(s, "r")) }
  function RadiusFromCentripetal(s: State): Result<real> { Div(At(s, "v") * At(s, "v"), At(s, "a_c")) }
  function CentripetalForce(s: State): Result<real> { Ok(At(s, "m") * At(s, "a_c")) }
  function MassFromForce(s: State): Result<real> { Div(At(s, "F_c"), At(s, "a_c")) }
  function CentripetalFromForce(s: State): Result<real> { Div(At(s, "F_c"), At(s, "m")) }

  /** The rules of the circular-motion loop, in source order.  ω comes from
      T when T is non-zero and only otherwise (the `elif`) from f; every
      division is guarded except inside the square root for v, which raises
      on a negative a_c*r. */
  function CircularRules(m: Math): seq<Rule>
  {
    [ Rule("ω", {"T"}, s => At(s, "T") != 0.0, OmegaFromPeriod),
      Rule("ω", {"f"}, s => !("T" in s && s["T"] != 0.0), OmegaFromFrequency),
      Rule("T", {"ω"}, s => At(s, "ω") != 0.0, PeriodFromOmega),
      Rule("f", {"T"}, s => At(s, "T") != 0.0, FrequencyFromPeriod),
      Plain("v", {"ω", "r"}, SpeedFromOmega),
      Rule("ω", {"v", "r"}, s => At(s, "r") != 0.0, OmegaFromSpeed),
      Rule("r", {"v", "ω"}, s => At(s, "ω") != 0.0, RadiusFromOmega),
      Rule("a_c", {"v", "r"}, s => At(s, "r") != 0.0, Centripetal),
      Plain("v", {"a_c", "r"}, s => SpeedFromCentripetal(m, s)),
      Rule("r", {"v", "a_c"}, s => At(s, "a_c") != 0.0, RadiusFromCentripetal),
      Plain("F_c", {"m", "a_c"}, CentripetalForce),
      Rule("m", {"F_c", "a_c"}, s => At(s, "a_c") != 0.0, MassFromForce),
      Rule("a_c", {"F_c", "m"}, s => At(s, "m") != 0.0, CentripetalFromForce)
    ]
  }

  /** One pass of the circular-motion loop. */
  function CircularPass(m: Math, s: State): Result<State>
  {
    RunRules(CircularRules(m), s)
  }

  /** The pass as a value, for the fixed-point drivers. */
  function CircularStep(m: Math): State -> Result<State>
  {
    s => CircularPass(m, s)
  }

  lemma CircularGrows(m: Math)
    ensures Grows(CircularStep(m), CircularKeys)
  {
    assert WritesWithin(CircularRules(m), CircularKeys);
    RulesGrow(CircularRules(m), CircularKeys);
  }

  /** `solve_circular_motion(**kwargs)`. */
  function SolveCircularMotion(m: Math, kwargs: map<string, Option<real>>): (r: Result<State>)
    ensures r.Ok? ==> Solved(CircularStep(m), CircularKeys, kwargs, r.value)
  {
    CircularGrows(m);
    SolveFrom(CircularStep(m), CircularKeys, kwargs)
  }

  method CircularMotion(m: Math, kwargs: map<string, Option<real>>) returns (r: Result<State>)
    ensures r == SolveCircularMotion(m, kwargs)
  {
    CircularGrows(m);
    r := RunToFixpoint(CircularStep(m), CircularKeys, Seed(CircularKeys, kwargs));
  }

  // =====================================================================
  // Banked tracks.

  const BankedKeys: set<string> := {"θ", "v", "r", "μ", "v_min", "v_max"}

  /** `tan_θ`, recomputed from θ whenever θ changes, so always tan of the
      current θ. */
  function TanTheta(m: Math, s: State): real { m.tan(At(s, "θ")) }

  function IdealAngle(m: Math, s: State): Result<real>
  {
    var x :- Div(At(s, "v") * At(s, "v"), Gravity * At(s, "r"));
    Ok(m.atan(x))
  }

  function IdealSpeed(m: Math, s: State): Result<real> { Sqrt(m, Gravity * At(s, "r") * TanTheta(m, s)) }

  /** The speeds with friction, sqrt(g r (tanθ - μ)/(1 + μ tanθ)) and
      sqrt(g r (tanθ + μ)/(1 - μ tanθ)), on the radius, tan θ and μ; each is
      computed only for a non-zero r, a non-zero denominator and a positive
      numerator. */
  predicate MinSpeedDefinedAt(r: real, tan: real, mu: real)
  {
    r != 0.0 && 1.0 + mu * tan != 0.0 && tan - mu > 0.0
  }

  predicate MaxSpeedDefinedAt(r: real, tan: real, mu: real)
  {
    r != 0.0 && 1.0 - mu * tan != 0.0 && tan + mu > 0.0
  }

  function MinSpeedAt(m: Math, r: real, tan: real, mu: real): Result<real>
  {
    var x :- Div(Gravity * r * (tan - mu), 1.0 + mu * tan);
    Sqrt(m, x)
  }

  function MaxSpeedAt(m: Math, r: real, tan: real, mu: real): Result<real>
  {
    var x :- Div(Gravity * r * (tan + mu), 1.0 - mu * tan);
    Sqrt(m, x)
  }

  predicate MinSpeedDefined(m: Math, s: State) { MinSpeedDefinedAt(At(s, "r"), TanTheta(m, s), At(s, "μ")) }
  predicate MaxSpeedDefined(m: Math, s: State) { MaxSpeedDefinedAt(At(s, "r"), TanTheta(m, s), At(s, "μ")) }
  function MinSpeed(m: Math, s: State): Result<real> { MinSpeedAt(m, At(s, "r"), TanTheta(m, s), At(s, "μ")) }
  function MaxSpeed(m: Math, s: State): Result<real> { MaxSpeedAt(m, At(s, "r"), TanTheta(m, s), At(s, "μ")) }

  /** The reverse calculation of μ from a speed v: lhs = v^2/(g r), then
      (tanθ - lhs)/(lhs tanθ + 1) from v_min, or (lhs - tanθ)/(lhs tanθ + 1)
      from v_max.  The 0.0 of a zero r or zero denominator is never stored:
      the rule's condition excludes both. */
  function SpeedRatio(v: real, r: real): real
  {
    if r == 0.0 then 0.0 else v * v / (Gravity * r)
  }

  function FrictionFromMinAt(v: real, r: real, tan: real): real
  {
    var lhs := SpeedRatio(v, r);
    if lhs * tan + 1.0 == 0.0 then 0.0 else (tan - lhs) / (lhs * tan + 1.0)
  }

  function FrictionFromMaxAt(v: real, r: real, tan: real): real
  {
    var lhs := SpeedRatio(v, r);
    if lhs * tan + 1.0 == 0.0 then 0.0 else (lhs - tan) / (lhs * tan + 1.0)
  }

  /** A candidate μ is stored only for a non-zero r, a non-zero denominator
      and a value that is not negative. */
  predicate FrictionFromMinAcceptedAt(v: real, r: real, tan: real)
  {
    r != 0.0 && SpeedRatio(v, r) * tan + 1.0 != 0.0 && FrictionFromMinAt(v, r, tan) >= 0.0
  }

  predicate FrictionFromMaxAcceptedAt(v: real, r: real, tan: real)
  {
    r != 0.0 && SpeedRatio(v, r) * tan + 1.0 != 0.0 && FrictionFromMaxAt(v, r, tan) >= 0.0
  }

  function FrictionFromMin(m: Math, s: State): real { FrictionFromMinAt(At(s, "v_min"), At(s, "r"), TanTheta(m, s)) }
  function FrictionFromMax(m: Math, s: State): real { FrictionFromMaxAt(At(s, "v_max"), At(s, "r"), TanTheta(m, s)) }
  predicate FrictionFromMinAccepted(m: Math, s: State) { FrictionFromMinAcceptedAt(At(s, "v_min"), At(s, "r"), TanTheta(m, s)) }
  predicate FrictionFromMaxAccepted(m: Math, s: State) { FrictionFromMaxAcceptedAt(At(s, "v_max"), At(s, "r"), TanTheta(m, s)) }

  /** The rules of the banked-track loop, in source order: v_min before
      v_max, and μ from v_min before μ from v_max. */
  function BankedRules(m: Math): seq<Rule>
  {
    [ Rule("θ", {"v", "r"}, s => At(s, "r") != 0.0, s => IdealAngle(m, s)),
      Plain("v", {"θ", "r"}, s => IdealSpeed(m, s)),
      Rule("v_min", {"μ", "θ", "r"}, s => MinSpeedDefined(m, s), s => MinSpeed(m, s)),
      Rule("v_max", {"μ", "θ", "r"}, s => MaxSpeedDefined(m, s), s => MaxSpeed(m, s)),
      Rule("μ", {"θ", "r", "v_min"}, s => FrictionFromMinAccepted(m, s), s => Ok(FrictionFromMin(m, s))),
      Rule("μ", {"θ", "r", "v_max"}, s => FrictionFromMaxAccepted(m, s), s => Ok(FrictionFromMax(m, s)))
    ]
  }

  /** One pass of the banked-track loop. */
  function BankedPass(m: Math, s: State): Result<State>
  {
    RunRules(BankedRules(m), s)
  }

  /** The pass as a value, for the fixed-point drivers. */
  function BankedStep(m: Math): State -> Result<State>
  {
    s => BankedPass(m, s)
  }

  lemma BankedGrows(m: Math)
    ensures Grows(BankedStep(m), BankedKeys)
  {
    assert WritesWithin(BankedRules(m), BankedKeys);
    RulesGrow(BankedRules(m), BankedKeys);
  }

  /** `solve_banked_tracks(**kwargs)`. */
  function SolveBankedTracks(m: Math, kwargs: map<string, Option<real>>): Result<State>
  {
    BankedGrows(m);
    SolveWithAngle(BankedStep(m), BankedKeys, kwargs)
  }

  method BankedTracks(m: Math, kwargs: map<string, Option<real>>) returns (r: Result<State>)
    ensures r == SolveBankedTracks(m, kwargs)
  {
    BankedGrows(m);
    var s := Seed(BankedKeys, kwargs);
    if "θ" in s && s["θ"] > 2.0 * Pi {
      s := s["θ" := Radians(s["θ"])];
    }
    var f :- RunToFixpoint(BankedStep(m), BankedKeys, s);
    if "θ" in f {
      f := f["θ" := Degrees(f["θ"])];
    }
    r := Ok(f);
  }

  // =====================================================================
  // Gravitation.

  const GravitationKeys: set<string> := {"M", "m", "r", "F_g", "g", "v_orbital", "T", "altitude"}

  function GravityForce(s: State): Result<real> { Div(BigG * At(s, "M") * At(s, "m"), At(s, "r") * At(s, "r")) }
  function MassFromGravityForce(s: State): Result<real> { Div(At(s, "F_g") * (At(s, "r") * At(s, "r")), BigG * At(s, "m")) }
  function SmallMassFromGravityForce(s: State): Result<real> { Div(At(s, "F_g") * (At(s, "r") * At(s, "r")), BigG * At(s, "M")) }
  function DistanceFromGravityForce(m: Math, s: State): Result<real>
  {
    var x :- Div(BigG * At(s, "M") * At(s, "m"), At(s, "F_g"));
    Sqrt(m, x)
  }
  function FieldStrength(s: State): Result<real> { Div(BigG * At(s, "M"), At(s, "r") * At(s, "r")) }
  function MassFromField(s: State): Result<real> { Div(At(s, "g") * (At(s, "r") * At(s, "r")), BigG) }
  function DistanceFromField(m: Math, s: State): Result<real>
  {
    var x :- Div(BigG * At(s, "M"), At(s, "g"));
    Sqrt(m, x)
  }
  function OrbitalSpeed(m: Math, s: State): Result<real>
  {
    var x :- Div(BigG * At(s, "M"), At(s, "r"));
    Sqrt(m, x)
  }
  function MassFromOrbit(s: State): Result<real> { Div(At(s, "v_orbital") * At(s, "v_orbital") * At(s, "r"), BigG) }
  function DistanceFromOrbit(s: State): Result<real> { Div(BigG * At(s, "M"), At(s, "v_orbital") * At(s, "v_orbital")) }
  function OrbitalPeriod(s: State): Result<real> { Div(2.0 * Pi * At(s, "r"), At(s, "v_orbital")) }
  function SpeedFromPeriod(s: State): Result<real> { Div(2.0 * Pi * At(s, "r"), At(s, "T")) }
  function DistanceFromPeriod(s: State): Result<real> { Div(At(s, "T") * At(s, "v_orbital"), 2.0 * Pi) }
  function Altitude(s: State): Result<real> { Ok(At(s, "r") - EarthRadius) }
  function DistanceFromAltitude(s: State): Result<real> { Ok(At(s, "altitude") + EarthRadius) }

  /** The rules of the gravitation loop, in source order.  The period rule
      T = 2πr/v_orbital has no guard; v_orbital = 2πr/T is guarded by r, not
      by its divisor T. */
  function GravitationRules(m: Math): seq<Rule>
  {
    [ Rule("F_g", {"M", "m", "r"}, s => At(s, "r") != 0.0, GravityForce),
      Rule("M", {"F_g", "m", "r"}, s => At(s, "r") != 0.0 && At(s, "m") != 0.0, MassFromGravityForce),
      Rule("m", {"F_g", "M", "r"}, s => At(s, "r") != 0.0 && At(s, "M") != 0.0, SmallMassFromGravityForce),
      Rule("r", {"F_g", "M", "m"}, s => At(s, "F_g") != 0.0, s => DistanceFromGravityForce(m, s)),
      Rule("g", {"M", "r"}, s => At(s, "r") != 0.0, FieldStrength),
      Rule("M", {"g", "r"}, s => At(s, "r") != 0.0, MassFromField),
      Rule("r", {"g", "M"}, s => At(s, "g") != 0.0, s => DistanceFromField(m, s)),
      Rule("v_orbital", {"M", "r"}, s => At(s, "r") != 0.0, s => OrbitalSpeed(m, s)),
      Rule("M", {"v_orbital", "r"}, s => At(s, "r") != 0.0, MassFromOrbit),
      Rule("r", {"v_orbital", "M"}, s => At(s, "v_orbital") != 0.0, DistanceFromOrbit),
      Plain("T", {"v_orbital", "r"}, OrbitalPeriod),
      Rule("v_orbital", {"T", "r"}, s => At(s, "r") != 0.0, SpeedFromPeriod),
      Rule("r", {"T", "v_orbital"}, s => At(s, "v_orbital") != 0.0, DistanceFromPeriod),
      Plain("altitude", {"r"}, Altitude),
      Plain("r", {"altitude"}, DistanceFromAltitude)
    ]
  }

  /** One pass of the gravitation loop. */
  function GravitationPass(m: Math, s: State): Result<State>
  {
    RunRules(GravitationRules(m), s)
  }

  /** The pass as a value, for the fixed-point drivers. */
  function GravitationStep(m: Math): State -> Result<State>
  {
    s => GravitationPass(m, s)
  }

  lemma GravitationGrows(m: Math)
    ensures Grows(GravitationStep(m), GravitationKeys)
  {
    assert WritesWithin(GravitationRules(m), GravitationKeys);
    RulesGrow(GravitationRules(m), GravitationKeys);
  }

  /** `solve_gravitation(**kwargs)`. */
  function SolveGravitation(m: Math, kwargs: map<string, Option<real>>): (r: Result<State>)
    ensures r.Ok? ==> Solved(GravitationStep(m), GravitationKeys, kwargs, r.value)
  {
    GravitationGrows(m);
    SolveFrom(GravitationStep(m), GravitationKeys, kwargs)
  }

  method GravitationMotion(m: Math, kwargs: map<string, Option<real>>) returns (r: Result<State>)
    ensures r == SolveGravitation(m, kwargs)
  {
    GravitationGrows(m);
    r := RunToFixpoint(GravitationStep(m), GravitationKeys, Seed(GravitationKeys, kwargs));
  }

  // =====================================================================
  // Properties.

  // Projectile motion.

  /** The relations the projectile rules establish between a derived symbol
      and the state it is derived in. */
  const FlightTimeLaw: (State, real) -> bool := (t: State, v: real) =>
    || ("uy" in t && v == 2.0 * t["uy"] / Gravity)
    || ("range" in t && "ux" in t && t["ux"] != 0.0 && v == t["range"] / t["ux"])

  const MaxHeightLaw: (State, real) -> bool := (t: State, v: real) =>
    "uy" in t && v == t["uy"] * t["uy"] / (2.0 * Gravity)

  const RangeLaw: (State, real) -> bool := (t: State, v: real) =>
    "ux" in t && "t_flight" in t && v == t["ux"] * t["t_flight"]

  function HorizontalSpeedLaw(m: Math): (State, real) -> bool
  {
    (t: State, v: real) =>
      || ("u" in t && "θ" in t && v == t["u"] * m.cos(t["θ"]))
      || ("range" in t && "t_flight" in t && t["t_flight"] != 0.0 && v == t["range"] / t["t_flight"])
  }

  lemma FlightTimeLawStable()
    ensures Stable("t_flight", FlightTimeLaw)
  {
  }

  lemma FlightTimeLawEstablished(m: Math)
    ensures Establishes(ProjectileRules(m), "t_flight", FlightTimeLaw)
  {
  }

  lemma MaxHeightLawStable()
    ensures Stable("max_height", MaxHeightLaw)
  {
  }

  lemma MaxHeightLawEstablished(m: Math)
    ensures Establishes(ProjectileRules(m), "max_height", MaxHeightLaw)
  {
  }

  lemma RangeLawStable()
    ensures Stable("range", RangeLaw)
  {
  }

  lemma RangeLawEstablished(m: Math)
    ensures Establishes(ProjectileRules(m), "range", RangeLaw)
  {
  }

  lemma HorizontalSpeedLawStable(m: Math)
    ensures Stable("ux", HorizontalSpeedLaw(m))
  {
  }

  lemma HorizontalSpeedLawEstablished(m: Math)
    ensures Establishes(ProjectileRules(m), "ux", HorizontalSpeedLaw(m))
  {
  }

  /** A derived flight time is 2uy/g, or, where uy was not known when it was
      derived, range/ux for a non-zero ux. */
  lemma DerivedFlightTime(m: Math, kwargs: map<string, Option<real>>)
    requires !("t_flight" in kwargs && kwargs["t_flight"].Some?)
    ensures var r := SolveProjectileMotion(m, kwargs);
      r.Ok? && "t_flight" in r.value ==> FlightTimeLaw(InRadians(r.value), r.value["t_flight"])
  {
    ProjectileGrows(m);
    FlightTimeLawStable();
    FlightTimeLawEstablished(m);
    SolvedWithAngleEstablishes(ProjectileRules(m), ProjectileStep(m), ProjectileKeys, "t_flight", FlightTimeLaw, kwargs);
  }

  /** A derived maximum height is uy^2/(2g). */
  lemma DerivedMaxHeight(m: Math, kwargs: map<string, Option<real>>)
    requires !("max_height" in kwargs && kwargs["max_height"].Some?)
    ensures var r := SolveProjectileMotion(m, kwargs);
      r.Ok? && "max_height" in r.value ==> MaxHeightLaw(InRadians(r.value), r.value["max_height"])
  {
    ProjectileGrows(m);
    MaxHeightLawStable();
    MaxHeightLawEstablished(m);
    SolvedWithAngleEstablishes(ProjectileRules(m), ProjectileStep(m), ProjectileKeys, "max_height", MaxHeightLaw, kwargs);
  }

  /** A derived range is ux * t_flight. */
  lemma DerivedRange(m: Math, kwargs: map<string, Option<real>>)
    requires !("range" in kwargs && kwargs["range"].Some?)
    ensures var r := SolveProjectileMotion(m, kwargs);
      r.Ok? && "range" in r.value ==> RangeLaw(InRadians(r.value), r.value["range"])
  {
    ProjectileGrows(m);
    RangeLawStable();
    RangeLawEstablished(m);
    SolvedWithAngleEstablishes(ProjectileRules(m), ProjectileStep(m), ProjectileKeys, "range", RangeLaw, kwargs);
  }

  /** A derived horizontal speed is u cos θ (θ in radians), or range/t_flight
      for a non-zero flight time: the range inverse never divides by zero. */
  lemma DerivedHorizontalSpeed(m: Math, kwargs: map<string, Option<real>>)
    requires !("ux" in kwargs && kwargs["ux"].Some?)
    ensures var r := SolveProjectileMotion(m, kwargs);
      r.Ok? && "ux" in r.value ==> HorizontalSpeedLaw(m)(InRadians(r.value), r.value["ux"])
  {
    ProjectileGrows(m);
    HorizontalSpeedLawStable(m);
    HorizontalSpeedLawEstablished(m);
    SolvedWithAngleEstablishes(ProjectileRules(m), ProjectileStep(m), ProjectileKeys, "ux", HorizontalSpeedLaw(m), kwargs);
  }

  /** A fixed point of the projectile pass is closed under its rules: a known
      uy gives the flight time and the maximum height, known ux and t_flight
      the range, known u and θ both components. */
  lemma ProjectileFixedPointClosed(m: Math, t: State)
    requires ProjectilePass(m, t) == Ok(t)
    ensures "uy" in t ==> "t_flight" in t && "max_height" in t
    ensures "ux" in t && "t_flight" in t ==> "range" in t
    ensures "u" in t && "θ" in t ==> "ux" in t && "uy" in t
  {
    var rules := ProjectileRules(m);
    if "uy" in t {
      FixedPointClosed(rules, t, 4);
      FixedPointClosed(rules, t, 6);
    }
    if "ux" in t && "t_flight" in t {
      FixedPointClosed(rules, t, 8);
    }
    if "u" in t && "θ" in t {
      FixedPointClosed(rules, t, 0);
      FixedPointClosed(rules, t, 1);
    }
  }

  /** So the solver's result is closed under them too. */
  lemma ProjectileClosed(m: Math, kwargs: map<string, Option<real>>)
    ensures var r := SolveProjectileMotion(m, kwargs);
      r.Ok? ==>
        && ("uy" in r.value ==> "t_flight" in r.value && "max_height" in r.value)
        && ("ux" in r.value && "t_flight" in r.value ==> "range" in r.value)
        && ("u" in r.value && "θ" in r.value ==> "ux" in r.value && "uy" in r.value)
  {
    var r := SolveProjectileMotion(m, kwargs);
    if r.Ok? {
      ProjectileFixedPointClosed(m, InRadians(r.value));
    }
  }

  /** A negative maximum height, with neither u nor t_flight to give uy
      first, raises the square root's ValueError. */
  lemma NegativeHeightPass(m: Math, s: State)
    requires "uy" !in s && "u" !in s && "t_flight" !in s
    requires "max_height" in s && s["max_height"] < 0.0
    ensures ProjectilePass(m, s) == Err(MathDomainError)
  {
    var rules := ProjectileRules(m);
    assert forall j :: 0 <= j < 7 ==> Fire(rules[j], s) == Ok(s);
    RuleValue(rules, 7, s);
    assert RiseFromHeight(m, s) == Err(MathDomainError);
  }

  lemma NegativeHeightRaises(m: Math, h: real)
    requires h < 0.0
    ensures SolveProjectileMotion(m, map["max_height" := Some(h)]) == Err(MathDomainError)
  {
    var seed := Seed(ProjectileKeys, map["max_height" := Some(h)]);
    assert seed == map["max_height" := h];
    NegativeHeightPass(m, seed);
    ProjectileGrows(m);
  }

  // Circular motion.

  /** ω comes from a non-zero T in preference to f. */
  lemma OmegaPrefersPeriod(m: Math, s: State)
    requires "ω" !in s && "T" in s && s["T"] != 0.0
    ensures CircularPass(m, s).Ok? ==>
      "ω" in CircularPass(m, s).value && CircularPass(m, s).value["ω"] == 2.0 * Pi / s["T"]
  {
    RuleValue(CircularRules(m), 0, s);
    assert OmegaFromPeriod(s) == Ok(2.0 * Pi / s["T"]);
  }

  /** Without a non-zero T, ω comes from f. */
  lemma OmegaFromFrequencyOtherwise(m: Math, s: State)
    requires "ω" !in s && "f" in s && !("T" in s && s["T"] != 0.0)
    ensures CircularPass(m, s).Ok? ==>
      "ω" in CircularPass(m, s).value && CircularPass(m, s).value["ω"] == 2.0 * Pi * s["f"]
  {
    var rules := CircularRules(m);
    assert Fire(rules[0], s) == Ok(s);
    RuleValue(rules, 1, s);
  }

  const CentripetalLaw: (State, real) -> bool := (t: State, v: real) =>
    || ("v" in t && "r" in t && t["r"] != 0.0 && v == t["v"] * t["v"] / t["r"])
    || ("F_c" in t && "m" in t && t["m"] != 0.0 && v == t["F_c"] / t["m"])

  const CentripetalForceLaw: (State, real) -> bool := (t: State, v: real) =>
    "m" in t && "a_c" in t && v == t["m"] * t["a_c"]

  const PeriodLaw: (State, real) -> bool := (t: State, v: real) =>
    "ω" in t && t["ω"] != 0.0 && v == 2.0 * Pi / t["ω"]

  const FrequencyLaw: (State, real) -> bool := (t: State, v: real) =>
    "T" in t && t["T"] != 0.0 && v == 1.0 / t["T"]

  lemma CentripetalLawStable()
    ensures Stable("a_c", CentripetalLaw)
  {
  }

  lemma CentripetalLawEstablished(m: Math)
    ensures Establishes(CircularRules(m), "a_c", CentripetalLaw)
  {
  }

  lemma CentripetalForceLawStable()
    ensures Stable("F_c", CentripetalForceLaw)
  {
  }

  lemma CentripetalForceLawEstablished(m: Math)
    ensures Establishes(CircularRules(m), "F_c", CentripetalForceLaw)
  {
  }

  lemma PeriodLawStable()
    ensures Stable("T", PeriodLaw)
  {
  }

  lemma PeriodLawEstablished(m: Math)
    ensures Establishes(CircularRules(m), "T", PeriodLaw)
  {
  }

  lemma FrequencyLawStable()
    ensures Stable("f", FrequencyLaw)
  {
  }

  lemma FrequencyLawEstablished(m: Math)
    ensures Establishes(CircularRules(m), "f", FrequencyLaw)
  {
  }

  /** A derived centripetal acceleration is v^2/r for a non-zero r, or
      F_c/m for a non-zero m. */
  lemma DerivedCentripetal(m: Math, kwargs: map<string, Option<real>>)
    requires !("a_c" in kwargs && kwargs["a_c"].Some?)
    ensures var r := SolveCircularMotion(m, kwargs);
      r.Ok? && "a_c" in r.value ==> CentripetalLaw(r.value, r.value["a_c"])
  {
    CircularGrows(m);
    CentripetalLawStable();
    CentripetalLawEstablished(m);
    SolvedEstablishes(CircularRules(m), CircularStep(m), CircularKeys, "a_c", CentripetalLaw, kwargs);
  }

  /** A derived centripetal force is m * a_c. */
  lemma DerivedCentripetalForce(m: Math, kwargs: map<string, Option<real>>)
    requires !("F_c" in kwargs && kwargs["F_c"].Some?)
    ensures var r := SolveCircularMotion(m, kwargs);
      r.Ok? && "F_c" in r.value ==> CentripetalForceLaw(r.value, r.value["F_c"])
  {
    CircularGrows(m);
    CentripetalForceLawStable();
    CentripetalForceLawEstablished(m);
    SolvedEstablishes(CircularRules(m), CircularStep(m), CircularKeys, "F_c", CentripetalForceLaw, kwargs);
  }

  /** A derived period is 2π/ω for a non-zero ω. */
  lemma DerivedPeriod(m: Math, kwargs: map<string, Option<real>>)
    requires !("T" in kwargs && kwargs["T"].Some?)
    ensures var r := SolveCircularMotion(m, kwargs);
      r.Ok? && "T" in r.value ==> PeriodLaw(r.value, r.value["T"])
  {
    CircularGrows(m);
    PeriodLawStable();
    PeriodLawEstablished(m);
    SolvedEstablishes(CircularRules(m), CircularStep(m), CircularKeys, "T", PeriodLaw, kwargs);
  }

  /** A derived frequency is 1/T for a non-zero T. */
  lemma DerivedFrequency(m: Math, kwargs: map<string, Option<real>>)
    requires !("f" in kwargs && kwargs["f"].Some?)
    ensures var r := SolveCircularMotion(m, kwargs);
      r.Ok? && "f" in r.value ==> FrequencyLaw(r.value, r.value["f"])
  {
    CircularGrows(m);
    FrequencyLawStable();
    FrequencyLawEstablished(m);
    SolvedEstablishes(CircularRules(m), CircularStep(m), CircularKeys, "f", FrequencyLaw, kwargs);
  }

  /** None of the rules before v = sqrt(a_c r) fires when v, ω, T and f are
      unknown and a_c and r known. */
  lemma CircularSkipsToCentripetalSpeed(m: Math, s: State)
    requires "v" !in s && "ω" !in s && "T" !in s && "f" !in s && "a_c" in s && "r" in s
    ensures forall j :: 0 <= j < 8 ==> Fire(CircularRules(m)[j], s) == Ok(s)
  {
    var rules := CircularRules(m);
    forall j | 0 <= j < 8
      ensures Fire(rules[j], s) == Ok(s)
    {
      assert rules[j].target in s || !(rules[j].inputs <= s.Keys);
    }
  }

  /** v = sqrt(a_c r) raises for a negative a_c * r when v cannot come from
      ω first. */
  lemma CentripetalSpeedRaises(m: Math, s: State)
    requires "v" !in s && "ω" !in s && "T" !in s && "f" !in s
    requires "a_c" in s && "r" in s && s["a_c"] * s["r"] < 0.0
    ensures CircularPass(m, s) == Err(MathDomainError)
  {
    CircularSkipsToCentripetalSpeed(m, s);
    RuleValue(CircularRules(m), 8, s);
    assert SpeedFromCentripetal(m, s) == Err(MathDomainError);
  }

  // Banked tracks.

  function FrictionLaw(m: Math): (State, real) -> bool
  {
    (t: State, v: real) =>
      && v >= 0.0
      && "θ" in t && "r" in t
      && (|| ("v_min" in t && FrictionFromMinAccepted(m, t) && v == FrictionFromMin(m, t))
          || ("v_max" in t && FrictionFromMaxAccepted(m, t) && v == FrictionFromMax(m, t)))
  }

  function MinSpeedLaw(m: Math): (State, real) -> bool
  {
    (t: State, v: real) => "μ" in t && "θ" in t && "r" in t && MinSpeedDefined(m, t) && MinSpeed(m, t) == Ok(v)
  }

  function MaxSpeedLaw(m: Math): (State, real) -> bool
  {
    (t: State, v: real) => "μ" in t && "θ" in t && "r" in t && MaxSpeedDefined(m, t) && MaxSpeed(m, t) == Ok(v)
  }

  /** The banked-track quantities read only θ, r, μ, v_min and v_max, so an
      extension of the state keeps them. */
  lemma SpeedsAgree(m: Math, s: State, t: State)
    requires Extends(s, t) && "θ" in s && "r" in s && "μ" in s
    ensures MinSpeedDefined(m, t) == MinSpeedDefined(m, s) && MinSpeed(m, t) == MinSpeed(m, s)
    ensures MaxSpeedDefined(m, t) == MaxSpeedDefined(m, s) && MaxSpeed(m, t) == MaxSpeed(m, s)
  {
    assert t["θ"] == s["θ"] && t["r"] == s["r"] && t["μ"] == s["μ"];
  }

  lemma FrictionAgrees(m: Math, s: State, t: State)
    requires Extends(s, t) && "θ" in s && "r" in s
    ensures "v_min" in s ==>
      FrictionFromMinAccepted(m, t) == FrictionFromMinAccepted(m, s) && FrictionFromMin(m, t) == FrictionFromMin(m, s)
    ensures "v_max" in s ==>
      FrictionFromMaxAccepted(m, t) == FrictionFromMaxAccepted(m, s) && FrictionFromMax(m, t) == FrictionFromMax(m, s)
  {
    assert t["θ"] == s["θ"] && t["r"] == s["r"];
    if "v_min" in s {
      assert t["v_min"] == s["v_min"];
    }
    if "v_max" in s {
      assert t["v_max"] == s["v_max"];
    }
  }

  lemma FrictionLawStable(m: Math)
    ensures Stable("μ", FrictionLaw(m))
  {
    forall s: State, t: State | Extends(s, t) && "μ" in s && FrictionLaw(m)(s, s["μ"])
      ensures "μ" in t && FrictionLaw(m)(t, t["μ"])
    {
      FrictionAgrees(m, s, t);
    }
  }

  lemma FrictionLawEstablished(m: Math)
    ensures Establishes(BankedRules(m), "μ", FrictionLaw(m))
  {
    var rules := BankedRules(m);
    forall j, t: State | 0 <= j < |rules| && rules[j].target == "μ" && "μ" !in t && rules[j].inputs <= t.Keys &&
                         rules[j].when(t) && rules[j].value(t).Ok?
      ensures FrictionLaw(m)(t["μ" := rules[j].value(t).value], rules[j].value(t).value)
    {
      FrictionAgrees(m, t, t["μ" := rules[j].value(t).value]);
    }
  }

  lemma MinSpeedLawStable(m: Math)
    ensures Stable("v_min", MinSpeedLaw(m))
  {
    forall s: State, t: State | Extends(s, t) && "v_min" in s && MinSpeedLaw(m)(s, s["v_min"])
      ensures "v_min" in t && MinSpeedLaw(m)(t, t["v_min"])
    {
      SpeedsAgree(m, s, t);
    }
  }

  lemma MinSpeedLawEstablished(m: Math)
    ensures Establishes(BankedRules(m), "v_min", MinSpeedLaw(m))
  {
    var rules := BankedRules(m);
    forall j, t: State | 0 <= j < |rules| && rules[j].target == "v_min" && "v_min" !in t && rules[j].inputs <= t.Keys &&
                         rules[j].when(t) && rules[j].value(t).Ok?
      ensures MinSpeedLaw(m)(t["v_min" := rules[j].value(t).value], rules[j].value(t).value)
    {
      assert j == 2;
      SpeedsAgree(m, t, t["v_min" := rules[j].value(t).value]);
    }
  }

  lemma MaxSpeedLawStable(m: Math)
    ensures Stable("v_max", MaxSpeedLaw(m))
  {
    forall s: State, t: State | Extends(s, t) && "v_max" in s && MaxSpeedLaw(m)(s, s["v_max"])
      ensures "v_max" in t && MaxSpeedLaw(m)(t, t["v_max"])
    {
      SpeedsAgree(m, s, t);
    }
  }

  lemma MaxSpeedLawEstablished(m: Math)
    ensures Establishes(BankedRules(m), "v_max", MaxSpeedLaw(m))
  {
    var rules := BankedRules(m);
    forall j, t: State | 0 <= j < |rules| && rules[j].target == "v_max" && "v_max" !in t && rules[j].inputs <= t.Keys &&
                         rules[j].when(t) && rules[j].value(t).Ok?
      ensures MaxSpeedLaw(m)(t["v_max" := rules[j].value(t).value], rules[j].value(t).value)
    {
      assert j == 3;
      SpeedsAgree(m, t, t["v_max" := rules[j].value(t).value]);
    }
  }

  /** A μ the solver derives is never negative, and is the reverse
      calculation from v_min or from v_max; which of the two a single pass
      prefers is FrictionPrefersMinSpeed. */
  lemma DerivedFriction(m: Math, kwargs: map<string, Option<real>>)
    requires !("μ" in kwargs && kwargs["μ"].Some?)
    ensures var r := SolveBankedTracks(m, kwargs);
      r.Ok? && "μ" in r.value ==> FrictionLaw(m)(InRadians(r.value), r.value["μ"])
  {
    BankedGrows(m);
    FrictionLawStable(m);
    FrictionLawEstablished(m);
    SolvedWithAngleEstablishes(BankedRules(m), BankedStep(m), BankedKeys, "μ", FrictionLaw(m), kwargs);
  }

  /** A derived v_min exists only where its numerator is positive and its
      denominator non-zero, and is sqrt(g r (tanθ - μ)/(1 + μ tanθ)). */
  lemma DerivedMinSpeed(m: Math, kwargs: map<string, Option<real>>)
    requires !("v_min" in kwargs && kwargs["v_min"].Some?)
    ensures var r := SolveBankedTracks(m, kwargs);
      r.Ok? && "v_min" in r.value ==> MinSpeedLaw(m)(InRadians(r.value), r.value["v_min"])
  {
    BankedGrows(m);
    MinSpeedLawStable(m);
    MinSpeedLawEstablished(m);
    SolvedWithAngleEstablishes(BankedRules(m), BankedStep(m), BankedKeys, "v_min", MinSpeedLaw(m), kwargs);
  }

  /** The same for v_max = sqrt(g r (tanθ + μ)/(1 - μ tanθ)). */
  lemma DerivedMaxSpeed(m: Math, kwargs: map<string, Option<real>>)
    requires !("v_max" in kwargs && kwargs["v_max"].Some?)
    ensures var r := SolveBankedTracks(m, kwargs);
      r.Ok? && "v_max" in r.value ==> MaxSpeedLaw(m)(InRadians(r.value), r.value["v_max"])
  {
    BankedGrows(m);
    MaxSpeedLawStable(m);
    MaxSpeedLawEstablished(m);
    SolvedWithAngleEstablishes(BankedRules(m), BankedStep(m), BankedKeys, "v_max", MaxSpeedLaw(m), kwargs);
  }

  /** With v_min known and its reverse calculation acceptable, μ comes from
      v_min, whether or not v_max is known too. */
  lemma FrictionPrefersMinSpeed(m: Math, s: State)
    requires "μ" !in s && "θ" in s && "r" in s && "v_min" in s
    requires FrictionFromMinAccepted(m, s)
    ensures BankedPass(m, s).Ok? ==>
      "μ" in BankedPass(m, s).value && BankedPass(m, s).value["μ"] == FrictionFromMin(m, s)
  {
    if "v" in s {
      FrictionFromMinWithSpeed(m, s);
    } else {
      // The ideal-speed rule writes v first; the μ rules do not read v.
      var rules := BankedRules(m);
      assert Fire(rules[0], s) == Ok(s);
      assert rules[0..] == rules;
      RunRulesStep(rules, 0, s);
      RunRulesStep(rules, 1, s);
      var f := Fire(rules[1], s);
      if f.Ok? {
        var t := f.value;
        assert "v" in t;
        assert At(t, "v_min") == At(s, "v_min") && At(t, "r") == At(s, "r") && At(t, "θ") == At(s, "θ");
        FrictionFromMinWithSpeed(m, t);
        assert Fire(rules[0], t) == Ok(t) && Fire(rules[1], t) == Ok(t);
        RunRulesStep(rules, 0, t);
        RunRulesStep(rules, 1, t);
      }
    }
  }

  /** The same once v is known: the four rules before the μ rules do not fire. */
  lemma FrictionFromMinWithSpeed(m: Math, s: State)
    requires "μ" !in s && "θ" in s && "r" in s && "v" in s && "v_min" in s
    requires FrictionFromMinAccepted(m, s)
    ensures BankedPass(m, s).Ok? ==>
      "μ" in BankedPass(m, s).value && BankedPass(m, s).value["μ"] == FrictionFromMin(m, s)
  {
    var rules := BankedRules(m);
    assert Fire(rules[0], s) == Ok(s);
    assert Fire(rules[1], s) == Ok(s);
    assert Fire(rules[2], s) == Ok(s);
    assert Fire(rules[3], s) == Ok(s);
    RuleValue(rules, 4, s);
  }

  // Gravitation.

  const AltitudeLaw: (State, real) -> bool := (t: State, v: real) =>
    "r" in t && v == t["r"] - EarthRadius

  const FieldStrengthLaw: (State, real) -> bool := (t: State, v: real) =>
    "M" in t && "r" in t && t["r"] != 0.0 && v * (t["r"] * t["r"]) == BigG * t["M"]

  lemma AltitudeLawStable()
    ensures Stable("altitude", AltitudeLaw)
  {
  }

  lemma AltitudeLawEstablished(m: Math)
    ensures Establishes(GravitationRules(m), "altitude", AltitudeLaw)
  {
  }

  lemma FieldStrengthLawStable()
    ensures Stable("g", FieldStrengthLaw)
  {
  }

  lemma FieldStrengthLawEstablished(m: Math)
    ensures Establishes(GravitationRules(m), "g", FieldStrengthLaw)
  {
  }

  /** A derived altitude is r minus the Earth's radius, 6.371e6 m. */
  lemma AltitudeFromRadius(m: Math, kwargs: map<string, Option<real>>)
    requires !("altitude" in kwargs && kwargs["altitude"].Some?)
    ensures var r := SolveGravitation(m, kwargs);
      r.Ok? && "altitude" in r.value ==> AltitudeLaw(r.value, r.value["altitude"])
  {
    GravitationGrows(m);
    AltitudeLawStable();
    AltitudeLawEstablished(m);
    SolvedEstablishes(GravitationRules(m), GravitationStep(m), GravitationKeys, "altitude", AltitudeLaw, kwargs);
  }

  /** A derived field strength is G M / r^2 for a non-zero r. */
  lemma DerivedFieldStrength(m: Math, kwargs: map<string, Option<real>>)
    requires !("g" in kwargs && kwargs["g"].Some?)
    ensures var r := SolveGravitation(m, kwargs);
      r.Ok? && "g" in r.value ==> FieldStrengthLaw(r.value, r.value["g"])
  {
    GravitationGrows(m);
    FieldStrengthLawStable();
    FieldStrengthLawEstablished(m);
    SolvedEstablishes(GravitationRules(m), GravitationStep(m), GravitationKeys, "g", FieldStrengthLaw, kwargs);
  }

  /** With r unknown and only an altitude to give it, the pass sets
      r = altitude + 6.371e6 m. */
  lemma RadiusFromAltitude(m: Math, s: State)
    requires "r" !in s && "altitude" in s
    requires "M" !in s && "g" !in s && "v_orbital" !in s
    ensures GravitationPass(m, s).Ok? ==>
      "r" in GravitationPass(m, s).value && GravitationPass(m, s).value["r"] == s["altitude"] + EarthRadius
  {
    var rules := GravitationRules(m);
    GravitationSkipsToRadius(m, s);
    RuleValue(rules, 14, s);
  }

  lemma GravitationSkipsToRadius(m: Math, s: State)
    requires "r" !in s && "altitude" in s && "M" !in s && "g" !in s && "v_orbital" !in s
    ensures forall j :: 0 <= j < 14 ==> Fire(GravitationRules(m)[j], s) == Ok(s)
  {
    var rules := GravitationRules(m);
    forall j | 0 <= j < 14
      ensures Fire(rules[j], s) == Ok(s)
    {
      assert !(rules[j].inputs <= s.Keys);
    }
  }

  /** T = 2πr/v_orbital has no guard: a zero orbital speed with r known and T
      unknown makes the pass raise. */
  lemma OrbitalPeriodUnguarded(m: Math, s: State)
    requires "T" !in s && "v_orbital" in s && s["v_orbital"] == 0.0 && "r" in s
    ensures GravitationPass(m, s).Err?
  {
    var rules := GravitationRules(m);
    forall t | Extends(s, t)
      ensures rules[10].inputs <= t.Keys && rules[10].when(t) && rules[10].value(t).Err?
    {
      assert OrbitalPeriod(t) == Div(2.0 * Pi * t["r"], 0.0);
    }
    RuleRaises(rules, 10, s);
  }

  /** So does the whole solver when the caller gives v_orbital = 0 and r. */
  lemma ZeroOrbitalSpeedRaises(m: Math, kwargs: map<string, Option<real>>)
    requires "v_orbital" in kwargs && kwargs["v_orbital"] == Some(0.0)
    requires "r" in kwargs && kwargs["r"].Some?
    requires !("T" in kwargs && kwargs["T"].Some?)
    ensures SolveGravitation(m, kwargs).Err?
  {
    var seed := Seed(GravitationKeys, kwargs);
    OrbitalPeriodUnguarded(m, seed);
    GravitationGrows(m);
  }

  lemma GravitationSkipsToSpeedFromPeriod(m: Math, s: State)
    requires "M" !in s && "F_g" !in s && "g" !in s && "v_orbital" !in s && "T" in s && "r" in s
    ensures forall j :: 0 <= j < 11 ==> Fire(GravitationRules(m)[j], s) == Ok(s)
  {
    var rules := GravitationRules(m);
    forall j | 0 <= j < 11
      ensures Fire(rules[j], s) == Ok(s)
    {
      assert rules[j].target in s || !(rules[j].inputs <= s.Keys);
    }
  }

  /** v_orbital = 2πr/T checks r, not its divisor T: a zero period raises
      ZeroDivisionError when nothing else gives v_orbital first. */
  lemma ZeroPeriodRaises(m: Math, s: State)
    requires "M" !in s && "F_g" !in s && "g" !in s && "v_orbital" !in s
    requires "T" in s && s["T"] == 0.0 && "r" in s && s["r"] != 0.0
    ensures GravitationPass(m, s) == Err(ZeroDivisionError)
  {
    GravitationSkipsToSpeedFromPeriod(m, s);
    RuleValue(GravitationRules(m), 11, s);
    assert SpeedFromPeriod(s) == Err(ZeroDivisionError);
  }
}
