/** `WaveSolver` (core/waves.py): one dictionary of 19 symbols, reset by every
    `solve`, and three passes of which `solve` runs only the one named after
    its category, until a pass reports no change. */
module Waves {
  import opened Outcomes
  import opened Numerics
  import opened Knowns

  /** The keys of `self.solutions`. */
  const Schema: set<string> := {
    "v", "f", "λ", "T", "k", "ω",
    "f_observed", "f_source", "v_source", "v_observer", "v_medium", "θ_source", "θ_observer",
    "n1", "n2", "θ1", "θ2", "I1", "I2"}

  /** `self.speed_of_sound`, 343 m/s. */
  const SpeedOfSound: real := 343.0

  // =====================================================================
  // `_solve_wave_properties`: nine guarded assignments in source order.

  function WaveRules(): seq<Rule>
  {
    [ Plain("v", {"λ", "f"}, s => Ok(At(s, "λ") * At(s, "f"))),
      Plain("λ", {"v", "f"}, s => Div(At(s, "v"), At(s, "f"))),
      Plain("f", {"v", "λ"}, s => Div(At(s, "v"), At(s, "λ"))),
      Plain("T", {"f"}, s => Div(1.0, At(s, "f"))),
      Plain("f", {"T"}, s => Div(1.0, At(s, "T"))),
      Plain("ω", {"f"}, s => Ok(2.0 * Pi * At(s, "f"))),
      Plain("f", {"ω"}, s => Ok(At(s, "ω") / (2.0 * Pi))),
      Plain("k", {"λ"}, s => Div(2.0 * Pi, At(s, "λ"))),
      Plain("λ", {"k"}, s => Div(2.0 * Pi, At(s, "k")))
    ]
  }

  function WavePass(s: State): Result<State>
  {
    RunRules(WaveRules(), s)
  }

  // =====================================================================
  // `_solve_light_properties`: Snell's law both ways, then intensity.

  /** n_a sin(θ_a)/n_b, the sine of the refracted angle; only read where
      n_b is not zero. */
  function SnellSine(m: Math, s: State, na: string, angle: string, nb: string): real
  {
    if At(s, nb) == 0.0 then 0.0 else At(s, na) * m.sin(Radians(At(s, angle))) / At(s, nb)
  }

  /** The refracted angle in degrees; a zero n_b raises ZeroDivisionError. */
  function Refracted(m: Math, s: State, na: string, angle: string, nb: string): Result<real>
  {
    var x :- Div(At(s, na) * m.sin(Radians(At(s, angle))), At(s, nb));
    Ok(Degrees(m.asin(x)))
  }

  /** The angle is stored only when the sine lies in [-1, 1]; past that
      (total internal reflection) the block writes nothing and raises
      nothing.  The division comes first, so a zero n_b raises either way. */
  predicate Refracts(m: Math, s: State, na: string, angle: string, nb: string)
  {
    At(s, nb) == 0.0 || Abs(SnellSine(m, s, na, angle, nb)) <= 1.0
  }

  function LightRules(m: Math): seq<Rule>
  {
    [ Rule("θ2", {"n1", "n2", "θ1"}, s => Refracts(m, s, "n1", "θ1", "n2"), s => Refracted(m, s, "n1", "θ1", "n2")),
      Rule("θ1", {"n1", "n2", "θ2"}, s => Refracts(m, s, "n2", "θ2", "n1"), s => Refracted(m, s, "n2", "θ2", "n1")),
      Plain("I2", {"I1", "n1", "n2"}, s => var q :- Div(At(s, "n2"), At(s, "n1")); Ok(At(s, "I1") * q)),
      Plain("I1", {"I2", "n1", "n2"}, s => var q :- Div(At(s, "n1"), At(s, "n2")); Ok(At(s, "I2") * q))
    ]
  }

  function LightPass(m: Math, s: State): Result<State>
  {
    RunRules(LightRules(m), s)
  }

  // =====================================================================
  // `_solve_sound_waves`: the default medium speed, then three blocks that
  // read the values the symbols had once that default was in place.

  /** v_medium is 343 unless already set. */
  function WithMedium(s: State): (r: State)
    ensures Extends(s, r) && "v_medium" in r && r.Keys == s.Keys + {"v_medium"}
    ensures "v_medium" !in s ==> r["v_medium"] == SpeedOfSound
  {
    if "v_medium" in s then s else s["v_medium" := SpeedOfSound]
  }

  /** `θ is None or math.isclose(θ, 0, abs_tol=1e-6)`: with the default
      relative tolerance, a non-zero angle is close to 0 exactly when it is
      within 1e-6 of it. */
  predicate HeadOn(p: State, angle: string)
  {
    angle !in p || Abs(p[angle]) <= 0.000001
  }

  /** The Doppler shift, from the snapshot p: source approaching head-on
      first, then observer approaching head-on, then a source at an angle. */
  function ObservedFrequency(m: Math, p: State): (r: Result<State>)
    ensures r.Ok? ==> Extends(p, r.value) && r.value.Keys <= p.Keys + {"f_observed"}
  {
    if "f_observed" in p || "f_source" !in p || "v_medium" !in p then Ok(p)
    else if "v_source" in p && HeadOn(p, "θ_source") then
      var q :- Div(p["v_medium"], p["v_medium"] - p["v_source"]);
      Ok(p["f_observed" := q * p["f_source"]])
    else if "v_observer" in p && HeadOn(p, "θ_observer") then
      var q :- Div(p["v_medium"] + p["v_observer"], p["v_medium"]);
      Ok(p["f_observed" := q * p["f_source"]])
    else if "v_source" in p && "θ_source" in p then
      var q :- Div(p["v_medium"], p["v_medium"] - p["v_source"] * m.cos(Radians(p["θ_source"])));
      Ok(p["f_observed" := q * p["f_source"]])
    else Ok(p)
  }

  /** A reverse-Doppler candidate is kept only below 1.5 times v_medium. */
  predicate Plausible(candidate: real, medium: real)
  {
    Abs(candidate) < 1.5 * medium
  }

  /** The head-on reverse-Doppler candidates on the snapshot p:
      v(1 - f_source/f_observed) for the source, v(f_observed/f_source - 1)
      for the observer. */
  function SourceCandidate(p: State): real
    requires "v_medium" in p && "f_source" in p && "f_observed" in p && p["f_observed"] != 0.0
  {
    p["v_medium"] * (1.0 - p["f_source"] / p["f_observed"])
  }

  function ObserverCandidate(p: State): real
    requires "v_medium" in p && "f_source" in p && "f_observed" in p && p["f_source"] != 0.0
  {
    p["v_medium"] * (p["f_observed"] / p["f_source"] - 1.0)
  }

  /** The reverse rule for v_source: guarded by the snapshot p, written into
      cur; a zero f_observed raises ZeroDivisionError. */
  function SourceSpeed(p: State, cur: State): (r: Result<State>)
    ensures r.Ok? ==> r.value == cur || ("v_source" !in p && "v_source" in r.value && r.value == cur["v_source" := r.value["v_source"]])
  {
    if "v_source" !in p && "f_observed" in p && "f_source" in p && "v_medium" in p && HeadOn(p, "θ_source") then
      if p["f_observed"] == 0.0 then Err(ZeroDivisionError)
      else if Plausible(SourceCandidate(p), p["v_medium"]) then Ok(cur["v_source" := SourceCandidate(p)])
      else Ok(cur)
    else Ok(cur)
  }

  /** The reverse rule for v_observer, likewise; a zero f_source raises. */
  function ObserverSpeed(p: State, cur: State): (r: Result<State>)
    ensures r.Ok? ==> r.value == cur || ("v_observer" !in p && "v_observer" in r.value && r.value == cur["v_observer" := r.value["v_observer"]])
  {
    if "v_observer" !in p && "f_observed" in p && "f_source" in p && "v_medium" in p && HeadOn(p, "θ_observer") then
      if p["f_source"] == 0.0 then Err(ZeroDivisionError)
      else if Plausible(ObserverCandidate(p), p["v_medium"]) then Ok(cur["v_observer" := ObserverCandidate(p)])
      else Ok(cur)
    else Ok(cur)
  }

  function SoundPass(m: Math, s: State): (r: Result<State>)
    ensures r.Ok? ==> Extends(s, r.value)
    ensures r.Ok? ==> r.value.Keys <= s.Keys + {"v_medium", "f_observed", "v_source", "v_observer"}
  {
    var p := WithMedium(s);
    var s1 :- ObservedFrequency(m, p);
    var s2 :- SourceSpeed(p, s1);
    ObserverSpeed(p, s2)
  }

  // =====================================================================
  // The driver.

  /** One pass of `for equation in self.equations`: only the method named
      `_solve_<category>` runs; any other category runs nothing. */
  function CategoryPass(m: Math, category: string, s: State): Result<State>
  {
    if category == "wave_properties" then WavePass(s)
    else if category == "sound_waves" then SoundPass(m, s)
    else if category == "light_properties" then LightPass(m, s)
    else Ok(s)
  }

  /** The pass as a value, for the fixed-point loop. */
  function WaveStep(m: Math, category: string): State -> Result<State>
  {
    s => CategoryPass(m, category, s)
  }

  lemma WaveRulesGrow()
    ensures Grows(s => WavePass(s), Schema)
  {
    assert WritesWithin(WaveRules(), Schema);
    RulesGrow(WaveRules(), Schema);
  }

  lemma LightRulesGrow(m: Math)
    ensures Grows(s => LightPass(m, s), Schema)
  {
    assert WritesWithin(LightRules(m), Schema);
    RulesGrow(LightRules(m), Schema);
  }

  lemma WaveGrows(m: Math, category: string)
    ensures Grows(WaveStep(m, category), Schema)
  {
    WaveRulesGrow();
    LightRulesGrow(m);
    forall s: State | s.Keys <= Schema && CategoryPass(m, category, s).Ok?
      ensures Extends(s, CategoryPass(m, category, s).value) && CategoryPass(m, category, s).value.Keys <= Schema
    {
      if category == "wave_properties" {
        assert (s => WavePass(s))(s) == WavePass(s);
      } else if category == "light_properties" {
        assert (s => LightPass(m, s))(s) == LightPass(m, s);
      }
    }
  }

  /** `solve(category, **kwargs)`: reset to all 19 symbols unset, copy the
      recognised arguments, loop, and return the entries that are set. */
  function SolveWaves(m: Math, category: string, kwargs: map<string, Option<real>>): (r: Result<State>)
    ensures r.Ok? ==> Solved(WaveStep(m, category), Schema, kwargs, r.value)
  {
    WaveGrows(m, category);
    SolveFrom(WaveStep(m, category), Schema, kwargs)
  }

  class WaveSolver {
    var solutions: State

    constructor ()
      ensures solutions == map[]
    {
      solutions := map[];
    }

    /** The guarded assignments of a pass, one `if` block per rule, in order;
        `changed` records that some block wrote. */
    method ApplyRules(rules: seq<Rule>) returns (r: Result<bool>)
      modifies this
      ensures r.Err? <==> RunRules(rules, old(solutions)).Err?
      ensures r.Err? ==> r.error == RunRules(rules, old(solutions)).error
      ensures r.Ok? ==> solutions == RunRules(rules, old(solutions)).value
      ensures r.Ok? ==> r.value == (solutions != old(solutions))
    {
      ghost var start := solutions;
      var changed := false;
      for i := 0 to |rules|
        invariant RunRules(rules, start) == RunRules(rules[i..], solutions)
        invariant Extends(start, solutions)
        invariant changed == (solutions != start)
      {
        RunRulesStep(rules, i, solutions);
        var next := Fire(rules[i], solutions);
        if next.Err? {
          return Err(next.error);
        }
        ChainChanged(start, solutions, next.value);
        changed := changed || next.value != solutions;
        solutions := next.value;
      }
      assert rules[|rules|..] == [];
      return Ok(changed);
    }

    /** `_solve_wave_properties`. */
    method WaveProperties() returns (r: Result<bool>)
      modifies this
      ensures r.Err? <==> WavePass(old(solutions)).Err?
      ensures r.Err? ==> r.error == WavePass(old(solutions)).error
      ensures r.Ok? ==> solutions == WavePass(old(solutions)).value
      ensures r.Ok? ==> r.value == (solutions != old(solutions))
    {
      r := ApplyRules(WaveRules());
    }

    /** `_solve_light_properties`. */
    method LightProperties(m: Math) returns (r: Result<bool>)
      modifies this
      ensures r.Err? <==> LightPass(m, old(solutions)).Err?
      ensures r.Err? ==> r.error == LightPass(m, old(solutions)).error
      ensures r.Ok? ==> solutions == LightPass(m, old(solutions)).value
      ensures r.Ok? ==> r.value == (solutions != old(solutions))
    {
      r := ApplyRules(LightRules(m));
    }

    /** `_solve_sound_waves`: the default, the snapshot locals, then the
        three blocks, which test the snapshot and write `solutions`. */
    method SoundWaves(m: Math) returns (r: Result<bool>)
      modifies this
      ensures r.Err? <==> SoundPass(m, old(solutions)).Err?
      ensures r.Err? ==> r.error == SoundPass(m, old(solutions)).error
      ensures r.Ok? ==> solutions == SoundPass(m, old(solutions)).value
      ensures r.Ok? ==> r.value == (solutions != old(solutions))
    {
      var changed := false;
      if "v_medium" !in solutions {
        solutions := solutions["v_medium" := SpeedOfSound];
        changed := true;
      }
      var p := solutions;
      var s1 :- ObservedFrequency(m, p);
      changed := changed || s1 != p;
      solutions := s1;
      var s2 :- SourceSpeed(p, s1);
      changed := changed || s2 != s1;
      solutions := s2;
      var s3 :- ObserverSpeed(p, s2);
      changed := changed || s3 != s2;
      solutions := s3;
      ChainChanged(old(solutions), p, s1);
      ChainChanged(old(solutions), s1, s2);
      ChainChanged(old(solutions), s2, s3);
      return Ok(changed);
    }

    /** `solve(category, **kwargs)`. */
    method Solve(m: Math, category: string, kwargs: map<string, Option<real>>) returns (r: Result<State>)
      modifies this
      ensures r == SolveWaves(m, category, kwargs)
      ensures r.Ok? ==> solutions == r.value
    {
      WaveGrows(m, category);
      solutions := Seed(Schema, kwargs);
      ghost var seed := solutions;
      var changed := true;
      while changed
        invariant solutions.Keys <= Schema
        invariant changed ==> Fix(WaveStep(m, category), Schema, solutions) == Fix(WaveStep(m, category), Schema, seed)
        invariant !changed ==> Fix(WaveStep(m, category), Schema, seed) == Ok(solutions)
        decreases Unset(Schema, solutions), changed
      {
        ghost var before := solutions;
        changed := false;
        if category == "wave_properties" {
          changed :- WaveProperties();
        } else if category == "sound_waves" {
          changed :- SoundWaves(m);
        } else if category == "light_properties" {
          changed :- LightProperties(m);
        }
        assert WaveStep(m, category)(before) == Ok(solutions);
        if changed {
          ChangeDecreasesUnset(Schema, before, solutions);
        }
      }
      return Ok(solutions);
    }
  }

  // =====================================================================
  // Properties.

  // Wave properties.

  /** The relations the wave-property rules establish. */
  const SpeedLaw: (State, real) -> bool := (t: State, x: real) =>
    "λ" in t && "f" in t && x == t["λ"] * t["f"]

  const PeriodLaw: (State, real) -> bool := (t: State, x: real) =>
    "f" in t && t["f"] != 0.0 && x == 1.0 / t["f"]

  lemma SpeedLawStable()
    ensures Stable("v", SpeedLaw)
  {
  }

  lemma SpeedLawEstablished()
    ensures Establishes(WaveRules(), "v", SpeedLaw)
  {
    var rules := WaveRules();
    forall j, t: State | 0 <= j < |rules| && rules[j].target == "v" && "v" !in t && rules[j].inputs <= t.Keys &&
                         rules[j].when(t) && rules[j].value(t).Ok?
      ensures SpeedLaw(t["v" := rules[j].value(t).value], rules[j].value(t).value)
    {
      assert j == 0;
    }
  }

  lemma PeriodLawStable()
    ensures Stable("T", PeriodLaw)
  {
  }

  lemma PeriodLawEstablished()
    ensures Establishes(WaveRules(), "T", PeriodLaw)
  {
  }

  /** A wave speed the solver derives is λ f. */
  lemma DerivedWaveSpeed(m: Math, kwargs: map<string, Option<real>>)
    requires !("v" in kwargs && kwargs["v"].Some?)
    ensures var r := SolveWaves(m, "wave_properties", kwargs);
      r.Ok? && "v" in r.value ==> SpeedLaw(r.value, r.value["v"])
  {
    WaveGrows(m, "wave_properties");
    SpeedLawStable();
    SpeedLawEstablished();
    SolvedEstablishes(WaveRules(), WaveStep(m, "wave_properties"), Schema, "v", SpeedLaw, kwargs);
  }

  /** A period the solver derives is the reciprocal of the frequency. */
  lemma DerivedPeriod(m: Math, kwargs: map<string, Option<real>>)
    requires !("T" in kwargs && kwargs["T"].Some?)
    ensures var r := SolveWaves(m, "wave_properties", kwargs);
      r.Ok? && "T" in r.value ==> PeriodLaw(r.value, r.value["T"])
  {
    WaveGrows(m, "wave_properties");
    PeriodLawStable();
    PeriodLawEstablished();
    SolvedEstablishes(WaveRules(), WaveStep(m, "wave_properties"), Schema, "T", PeriodLaw, kwargs);
  }

  /** λ = v/f or λ = 2π/k; f = v/λ, f = 1/T or f = ω/2π; ω = 2πf; k = 2π/λ.
      Where two rules write the same symbol the law is their disjunction. */
  const WavelengthLaw: (State, real) -> bool := (t: State, x: real) =>
    ("v" in t && "f" in t && t["f"] != 0.0 && x * t["f"] == t["v"]) ||
    ("k" in t && t["k"] != 0.0 && x * t["k"] == 2.0 * Pi)

  predicate IsFrequency(t: State, x: real)
  {
    ("v" in t && "λ" in t && t["λ"] != 0.0 && x * t["λ"] == t["v"]) ||
    ("T" in t && t["T"] != 0.0 && x * t["T"] == 1.0) ||
    ("ω" in t && 2.0 * Pi * x == t["ω"])
  }

  const FrequencyLaw: (State, real) -> bool := (t: State, x: real) => IsFrequency(t, x)

  const AngularFrequencyLaw: (State, real) -> bool := (t: State, x: real) =>
    "f" in t && x == 2.0 * Pi * t["f"]

  const WavenumberLaw: (State, real) -> bool := (t: State, x: real) =>
    "λ" in t && t["λ"] != 0.0 && x * t["λ"] == 2.0 * Pi

  lemma WavelengthLawStable()
    ensures Stable("λ", WavelengthLaw)
  {
  }

  lemma WavelengthLawEstablished()
    ensures Establishes(WaveRules(), "λ", WavelengthLaw)
  {
    var rules := WaveRules();
    forall j, t: State | 0 <= j < |rules| && rules[j].target == "λ" && "λ" !in t && rules[j].inputs <= t.Keys &&
                         rules[j].when(t) && rules[j].value(t).Ok?
      ensures WavelengthLaw(t["λ" := rules[j].value(t).value], rules[j].value(t).value)
    {
      assert j == 1 || j == 8;
    }
  }

  lemma FrequencyLawStable()
    ensures Stable("f", FrequencyLaw)
  {
    forall s: State, t: State | Extends(s, t) && "f" in s && FrequencyLaw(s, s["f"])
      ensures "f" in t && FrequencyLaw(t, t["f"])
    {
      assert t["f"] == s["f"];
      var x := s["f"];
      if "v" in s && "λ" in s && s["λ"] != 0.0 && x * s["λ"] == s["v"] {
        assert t["v"] == s["v"] && t["λ"] == s["λ"];
        assert t["f"] * t["λ"] == t["v"];
      } else if "T" in s && s["T"] != 0.0 && x * s["T"] == 1.0 {
        assert t["T"] == s["T"];
        assert t["f"] * t["T"] == 1.0;
      } else {
        assert "ω" in s && 2.0 * Pi * x == s["ω"];
        assert 2.0 * Pi * t["f"] == t["ω"];
      }
    }
  }

  lemma FrequencyLawEstablished()
    ensures Establishes(WaveRules(), "f", FrequencyLaw)
  {
    var rules := WaveRules();
    forall j, t: State | 0 <= j < |rules| && rules[j].target == "f" && "f" !in t && rules[j].inputs <= t.Keys &&
                         rules[j].when(t) && rules[j].value(t).Ok?
      ensures FrequencyLaw(t["f" := rules[j].value(t).value], rules[j].value(t).value)
    {
      var x := rules[j].value(t).value;
      var t' := t["f" := x];
      assert t'["f"] == x;
      if j == 2 {
        assert x * t["λ"] == t["v"];
        assert t'["f"] * t'["λ"] == t'["v"];
      } else if j == 4 {
        assert x * t["T"] == 1.0;
        assert t'["f"] * t'["T"] == 1.0;
      } else {
        assert j == 6;
        assert x == t["ω"] / (2.0 * Pi);
        assert 2.0 * Pi * t'["f"] == t'["ω"];
      }
    }
  }

  lemma AngularFrequencyLawStable()
    ensures Stable("ω", AngularFrequencyLaw)
  {
  }

  lemma AngularFrequencyLawEstablished()
    ensures Establishes(WaveRules(), "ω", AngularFrequencyLaw)
  {
    var rules := WaveRules();
    forall j, t: State | 0 <= j < |rules| && rules[j].target == "ω" && "ω" !in t && rules[j].inputs <= t.Keys &&
                         rules[j].when(t) && rules[j].value(t).Ok?
      ensures AngularFrequencyLaw(t["ω" := rules[j].value(t).value], rules[j].value(t).value)
    {
      assert j == 5;
    }
  }

  lemma WavenumberLawStable()
    ensures Stable("k", WavenumberLaw)
  {
  }

  lemma WavenumberLawEstablished()
    ensures Establishes(WaveRules(), "k", WavenumberLaw)
  {
    var rules := WaveRules();
    forall j, t: State | 0 <= j < |rules| && rules[j].target == "k" && "k" !in t && rules[j].inputs <= t.Keys &&
                         rules[j].when(t) && rules[j].value(t).Ok?
      ensures WavenumberLaw(t["k" := rules[j].value(t).value], rules[j].value(t).value)
    {
      assert j == 7;
    }
  }

  /** A wavelength the solver derives is v/f or 2π/k. */
  lemma DerivedWavelength(m: Math, kwargs: map<string, Option<real>>)
    requires !("λ" in kwargs && kwargs["λ"].Some?)
    ensures var r := SolveWaves(m, "wave_properties", kwargs);
      r.Ok? && "λ" in r.value ==> WavelengthLaw(r.value, r.value["λ"])
  {
    WaveGrows(m, "wave_properties");
    WavelengthLawStable();
    WavelengthLawEstablished();
    SolvedEstablishes(WaveRules(), WaveStep(m, "wave_properties"), Schema, "λ", WavelengthLaw, kwargs);
  }

  /** A frequency the solver derives is v/λ, 1/T or ω/2π. */
  lemma DerivedFrequency(m: Math, kwargs: map<string, Option<real>>)
    requires !("f" in kwargs && kwargs["f"].Some?)
    ensures var r := SolveWaves(m, "wave_properties", kwargs);
      r.Ok? && "f" in r.value ==> FrequencyLaw(r.value, r.value["f"])
  {
    WaveGrows(m, "wave_properties");
    FrequencyLawStable();
    FrequencyLawEstablished();
    SolvedEstablishes(WaveRules(), WaveStep(m, "wave_properties"), Schema, "f", FrequencyLaw, kwargs);
  }

  /** An angular frequency the solver derives is 2πf. */
  lemma DerivedAngularFrequency(m: Math, kwargs: map<string, Option<real>>)
    requires !("ω" in kwargs && kwargs["ω"].Some?)
    ensures var r := SolveWaves(m, "wave_properties", kwargs);
      r.Ok? && "ω" in r.value ==> AngularFrequencyLaw(r.value, r.value["ω"])
  {
    WaveGrows(m, "wave_properties");
    AngularFrequencyLawStable();
    AngularFrequencyLawEstablished();
    SolvedEstablishes(WaveRules(), WaveStep(m, "wave_properties"), Schema, "ω", AngularFrequencyLaw, kwargs);
  }

  /** A wavenumber the solver derives is 2π/λ. */
  lemma DerivedWavenumber(m: Math, kwargs: map<string, Option<real>>)
    requires !("k" in kwargs && kwargs["k"].Some?)
    ensures var r := SolveWaves(m, "wave_properties", kwargs);
      r.Ok? && "k" in r.value ==> WavenumberLaw(r.value, r.value["k"])
  {
    WaveGrows(m, "wave_properties");
    WavenumberLawStable();
    WavenumberLawEstablished();
    SolvedEstablishes(WaveRules(), WaveStep(m, "wave_properties"), Schema, "k", WavenumberLaw, kwargs);
  }

  /** The divisions are unguarded: with v and a zero f given and λ unknown,
      λ = v/f raises ZeroDivisionError. */
  lemma ZeroFrequencyRaises(s: State)
    requires "λ" !in s && "v" in s && "f" in s && s["f"] == 0.0
    ensures WavePass(s) == Err(ZeroDivisionError)
  {
    var rules := WaveRules();
    assert Fire(rules[0], s) == Ok(s);
    assert rules[1].value(s) == Err(ZeroDivisionError);
    RuleValue(rules, 1, s);
  }

  /** A category with no `_solve_<category>` method runs nothing: the result
      is the recognised arguments. */
  lemma UnknownCategoryKeepsArguments(m: Math, category: string, kwargs: map<string, Option<real>>)
    requires category !in {"wave_properties", "sound_waves", "light_properties"}
    ensures SolveWaves(m, category, kwargs) == Ok(Seed(Schema, kwargs))
  {
    WaveGrows(m, category);
    assert WaveStep(m, category)(Seed(Schema, kwargs)) == Ok(Seed(Schema, kwargs));
  }

  // Sound.

  /** Every sound result holds v_medium: a pass adds it when it is unset, so
      no fixed point lacks it. */
  lemma SoundHasMedium(m: Math, kwargs: map<string, Option<real>>)
    ensures var r := SolveWaves(m, "sound_waves", kwargs);
      r.Ok? ==> "v_medium" in r.value
  {
    var r := SolveWaves(m, "sound_waves", kwargs);
    if r.Ok? {
      assert WaveStep(m, "sound_waves")(r.value) == Ok(r.value);
      assert SoundPass(m, r.value) == Ok(r.value);
      assert Extends(WithMedium(r.value), r.value);
    }
  }

  /** The v_medium entry is 343 whenever the caller did not give one. */
  predicate DefaultMedium(t: State)
  {
    "v_medium" in t ==> t["v_medium"] == SpeedOfSound
  }

  lemma SoundPassKeepsDefault(m: Math, t: State)
    requires DefaultMedium(t)
    ensures SoundPass(m, t).Ok? ==> DefaultMedium(SoundPass(m, t).value)
  {
    if SoundPass(m, t).Ok? {
      var p := WithMedium(t);
      var s1 := ObservedFrequency(m, p).value;
      var s2 := SourceSpeed(p, s1).value;
      assert Extends(p, s1);
      assert "v_medium" in s2 && s2["v_medium"] == p["v_medium"];
    }
  }

  lemma SoundMediumDefault(m: Math, kwargs: map<string, Option<real>>)
    requires !("v_medium" in kwargs && kwargs["v_medium"].Some?)
    ensures var r := SolveWaves(m, "sound_waves", kwargs);
      r.Ok? ==> "v_medium" in r.value && r.value["v_medium"] == SpeedOfSound
  {
    var pass := WaveStep(m, "sound_waves");
    WaveGrows(m, "sound_waves");
    SoundHasMedium(m, kwargs);
    forall t: State | t.Keys <= Schema && DefaultMedium(t) && pass(t).Ok?
      ensures DefaultMedium(pass(t).value)
    {
      assert pass(t) == SoundPass(m, t);
      SoundPassKeepsDefault(m, t);
    }
    FixKeeps(pass, Schema, DefaultMedium, Seed(Schema, kwargs));
  }

  /** The source-approach formula wins: with v_source given head-on, f' is
      v/(v - v_s) f even when v_observer is also known, and v = v_s raises
      ZeroDivisionError. */
  lemma DopplerPrefersSource(m: Math, s: State)
    requires "f_observed" !in s && "f_source" in s && "v_source" in s && HeadOn(s, "θ_source")
    ensures var v := WithMedium(s)["v_medium"];
      && (v == s["v_source"] ==> SoundPass(m, s) == Err(ZeroDivisionError))
      && (SoundPass(m, s).Ok? ==>
            "f_observed" in SoundPass(m, s).value &&
            SoundPass(m, s).value["f_observed"] == v / (v - s["v_source"]) * s["f_source"])
  {
    var p := WithMedium(s);
    assert HeadOn(p, "θ_source");
  }

  /** Otherwise an observer approaching head-on gives f' = (v + v_o)/v f. */
  lemma DopplerObserver(m: Math, s: State)
    requires "f_observed" !in s && "f_source" in s && "v_observer" in s && HeadOn(s, "θ_observer")
    requires !("v_source" in s && HeadOn(s, "θ_source"))
    ensures var v := WithMedium(s)["v_medium"];
      && (v == 0.0 ==> SoundPass(m, s) == Err(ZeroDivisionError))
      && (SoundPass(m, s).Ok? ==>
            "f_observed" in SoundPass(m, s).value &&
            SoundPass(m, s).value["f_observed"] == (v + s["v_observer"]) / v * s["f_source"])
  {
    var p := WithMedium(s);
    assert HeadOn(p, "θ_observer") && !("v_source" in p && HeadOn(p, "θ_source"));
  }

  /** Otherwise a source moving at an angle gives
      f' = v/(v - v_s cos θ_s) f, and raises when that denominator is zero. */
  lemma DopplerAngledSource(m: Math, s: State)
    requires "f_observed" !in s && "f_source" in s && "v_source" in s && "θ_source" in s
    requires !HeadOn(s, "θ_source") && !("v_observer" in s && HeadOn(s, "θ_observer"))
    ensures var v := WithMedium(s)["v_medium"];
      var d := v - s["v_source"] * m.cos(Radians(s["θ_source"]));
      && (d == 0.0 ==> SoundPass(m, s) == Err(ZeroDivisionError))
      && (SoundPass(m, s).Ok? ==>
            "f_observed" in SoundPass(m, s).value &&
            SoundPass(m, s).value["f_observed"] == v / d * s["f_source"])
  {
    var p := WithMedium(s);
    assert !HeadOn(p, "θ_source") && !("v_observer" in p && HeadOn(p, "θ_observer"));
  }

  lemma SourceSpeedBound(p: State, cur: State)
    requires "v_source" !in cur
    ensures var r := SourceSpeed(p, cur);
      r.Ok? && "v_source" in r.value ==>
        && "v_medium" in p && "f_source" in p && "f_observed" in p && p["f_observed"] != 0.0
        && r.value["v_source"] == SourceCandidate(p)
        && Plausible(r.value["v_source"], p["v_medium"])
  {
  }

  lemma ObserverSpeedBound(p: State, cur: State)
    requires "v_observer" !in cur
    ensures var r := ObserverSpeed(p, cur);
      r.Ok? && "v_observer" in r.value ==>
        && "v_medium" in p && "f_source" in p && "f_observed" in p && p["f_source"] != 0.0
        && r.value["v_observer"] == ObserverCandidate(p)
        && Plausible(r.value["v_observer"], p["v_medium"])
  {
  }

  /** A plausible head-on candidate is written. */
  lemma ObserverSpeedWrites(p: State, cur: State)
    requires "f_observed" in p && "f_source" in p && p["f_source"] != 0.0 && "v_medium" in p
    requires "v_observer" !in p && HeadOn(p, "θ_observer")
    requires Plausible(ObserverCandidate(p), p["v_medium"])
    ensures ObserverSpeed(p, cur) == Ok(cur["v_observer" := ObserverCandidate(p)])
  {
  }

  /** A reverse-Doppler v_source the pass stores is the head-on formula on the
      values known at the start of the pass (after the default), and is below
      1.5 v_medium. */
  lemma ReverseSourceBound(m: Math, s: State)
    requires "v_source" !in s
    ensures var r := SoundPass(m, s);
      r.Ok? && "v_source" in r.value ==>
        var p := WithMedium(s);
        && "f_source" in p && "f_observed" in p && p["f_observed"] != 0.0
        && r.value["v_source"] == SourceCandidate(p)
        && "v_medium" in r.value && Plausible(r.value["v_source"], r.value["v_medium"])
  {
    var r := SoundPass(m, s);
    if r.Ok? && "v_source" in r.value {
      var p := WithMedium(s);
      var s1 := ObservedFrequency(m, p).value;
      var s2 := SourceSpeed(p, s1).value;
      SourceSpeedBound(p, s1);
      assert "v_source" in s2;
      assert r.value["v_source"] == s2["v_source"] && r.value["v_medium"] == p["v_medium"];
    }
  }

  /** The same for v_observer. */
  lemma ReverseObserverBound(m: Math, s: State)
    requires "v_observer" !in s
    ensures var r := SoundPass(m, s);
      r.Ok? && "v_observer" in r.value ==>
        var p := WithMedium(s);
        && "f_source" in p && "f_observed" in p && p["f_source"] != 0.0
        && r.value["v_observer"] == ObserverCandidate(p)
        && "v_medium" in r.value && Plausible(r.value["v_observer"], r.value["v_medium"])
  {
    var r := SoundPass(m, s);
    if r.Ok? && "v_observer" in r.value {
      var p := WithMedium(s);
      var s1 := ObservedFrequency(m, p).value;
      var s2 := SourceSpeed(p, s1).value;
      assert "v_observer" !in s2;
      ObserverSpeedBound(p, s2);
      assert r.value["v_medium"] == p["v_medium"];
    }
  }

  /** The snapshot delay: in the pass that computes f_observed, the reverse
      rules still see it unset, so neither v_source nor v_observer is derived
      in that pass. */
  lemma SnapshotDelay(m: Math, s: State)
    requires "f_observed" !in s
    ensures var r := SoundPass(m, s);
      r.Ok? ==> ("v_source" in r.value <==> "v_source" in s) && ("v_observer" in r.value <==> "v_observer" in s)
  {
    var p := WithMedium(s);
    assert "f_observed" !in p;
  }

  /** On the next pass, with f_observed known, a head-on observer speed is
      derived when it is plausible. */
  lemma ObserverSpeedNextPass(m: Math, s: State)
    requires "f_observed" in s && "f_source" in s && s["f_source"] != 0.0 && "v_medium" in s
    requires "v_observer" !in s && HeadOn(s, "θ_observer")
    requires Plausible(ObserverCandidate(s), s["v_medium"])
    ensures var r := SoundPass(m, s);
      r.Ok? ==> "v_observer" in r.value && r.value["v_observer"] == ObserverCandidate(s)
  {
    assert WithMedium(s) == s;
    assert ObservedFrequency(m, s) == Ok(s);
    var r := SoundPass(m, s);
    if r.Ok? {
      ObserverSpeedWrites(s, SourceSpeed(s, s).value);
    }
  }

  /** What the solver returns keeps the bound: a v_source or v_observer the
      caller did not give is below 1.5 v_medium. */
  lemma SolvedReverseDopplerBound(m: Math, kwargs: map<string, Option<real>>, x: string)
    requires x in {"v_source", "v_observer"}
    requires !(x in kwargs && kwargs[x].Some?)
    ensures var r := SolveWaves(m, "sound_waves", kwargs);
      r.Ok? && x in r.value ==> "v_medium" in r.value && Plausible(r.value[x], r.value["v_medium"])
  {
    var pass := WaveStep(m, "sound_waves");
    WaveGrows(m, "sound_waves");
    var inv := (t: State) => x in t ==> "v_medium" in t && Plausible(t[x], t["v_medium"]);
    forall t: State | t.Keys <= Schema && inv(t) && pass(t).Ok?
      ensures inv(pass(t).value)
    {
      assert pass(t) == SoundPass(m, t);
      if x !in t {
        if x == "v_source" {
          ReverseSourceBound(m, t);
        } else {
          ReverseObserverBound(m, t);
        }
      }
    }
    FixKeeps(pass, Schema, inv, Seed(Schema, kwargs));
  }

  // Light.

  /** Snell's law: for a non-zero n2, θ2 is set to asin(n1 sin θ1/n2) in
      degrees when that sine is in [-1, 1], and left unset with no error
      otherwise; a zero n2 raises ZeroDivisionError. */
  lemma SnellsLaw(m: Math, s: State)
    requires "θ2" !in s && "n1" in s && "n2" in s && "θ1" in s
    ensures s["n2"] == 0.0 ==> LightPass(m, s) == Err(ZeroDivisionError)
    ensures var x := SnellSine(m, s, "n1", "θ1", "n2");
      s["n2"] != 0.0 ==>
        && (Abs(x) <= 1.0 && LightPass(m, s).Ok? ==>
              "θ2" in LightPass(m, s).value && LightPass(m, s).value["θ2"] == Degrees(m.asin(x)))
        && (Abs(x) > 1.0 && LightPass(m, s).Ok? ==> "θ2" !in LightPass(m, s).value)
  {
    var rules := LightRules(m);
    if s["n2"] == 0.0 {
      RuleAt(rules, 0, s);
    } else {
      var x := SnellSine(m, s, "n1", "θ1", "n2");
      if Abs(x) <= 1.0 {
        RuleValue(rules, 0, s);
        assert Refracted(m, s, "n1", "θ1", "n2") == Ok(Degrees(m.asin(x)));
      } else {
        assert Fire(rules[0], s) == Ok(s);
        assert Fire(rules[1], s) == Ok(s);
        SkipRules(rules, 2, s);
        assert WritesWithin(rules[2..], s.Keys + {"I1", "I2"});
        RunRulesWithin(rules[2..], s.Keys + {"I1", "I2"}, s);
      }
    }
  }

  /** n1 = 1.5, n2 = 1.0, θ1 = 50 degrees: sin θ2 would be 1.5 sin 50° > 1,
      so light solving returns the three arguments and no θ2. */
  lemma TotalInternalReflection(m: Math)
    requires 1.5 * m.sin(Radians(50.0)) > 1.0
    ensures SolveWaves(m, "light_properties", map["n1" := Some(1.5), "n2" := Some(1.0), "θ1" := Some(50.0)])
         == Ok(map["n1" := 1.5, "n2" := 1.0, "θ1" := 50.0])
  {
    var kwargs := map["n1" := Some(1.5), "n2" := Some(1.0), "θ1" := Some(50.0)];
    var seed := map["n1" := 1.5, "n2" := 1.0, "θ1" := 50.0];
    assert Seed(Schema, kwargs) == seed;
    ReflectionPass(m, seed);
    WaveGrows(m, "light_properties");
    assert WaveStep(m, "light_properties")(seed) == Ok(seed);
  }

  /** The light pass on those three values derives nothing. */
  lemma ReflectionPass(m: Math, seed: State)
    requires 1.5 * m.sin(Radians(50.0)) > 1.0
    requires seed == map["n1" := 1.5, "n2" := 1.0, "θ1" := 50.0]
    ensures LightPass(m, seed) == Ok(seed)
  {
    var rules := LightRules(m);
    assert SnellSine(m, seed, "n1", "θ1", "n2") == 1.5 * m.sin(Radians(50.0));
    assert Fire(rules[0], seed) == Ok(seed);
    assert Fire(rules[1], seed) == Ok(seed);
    assert Fire(rules[2], seed) == Ok(seed);
    assert Fire(rules[3], seed) == Ok(seed);
    SkipRules(rules, 4, seed);
  }

  const IntensityLaw: (State, real) -> bool := (t: State, x: real) =>
    "I1" in t && "n1" in t && "n2" in t && t["n1"] != 0.0 && x == t["I1"] * (t["n2"] / t["n1"])

  lemma IntensityLawStable()
    ensures Stable("I2", IntensityLaw)
  {
  }

  lemma IntensityLawEstablished(m: Math)
    ensures Establishes(LightRules(m), "I2", IntensityLaw)
  {
    var rules := LightRules(m);
    forall j, t: State | 0 <= j < |rules| && rules[j].target == "I2" && "I2" !in t && rules[j].inputs <= t.Keys &&
                         rules[j].when(t) && rules[j].value(t).Ok?
      ensures IntensityLaw(t["I2" := rules[j].value(t).value], rules[j].value(t).value)
    {
      assert j == 2;
      assert Div(t["n2"], t["n1"]).Ok?;
    }
  }

  const IncidentIntensityLaw: (State, real) -> bool := (t: State, x: real) =>
    "I2" in t && "n1" in t && "n2" in t && t["n2"] != 0.0 && x == t["I2"] * (t["n1"] / t["n2"])

  lemma IncidentIntensityLawStable()
    ensures Stable("I1", IncidentIntensityLaw)
  {
  }

  lemma IncidentIntensityLawEstablished(m: Math)
    ensures Establishes(LightRules(m), "I1", IncidentIntensityLaw)
  {
    var rules := LightRules(m);
    forall j, t: State | 0 <= j < |rules| && rules[j].target == "I1" && "I1" !in t && rules[j].inputs <= t.Keys &&
                         rules[j].when(t) && rules[j].value(t).Ok?
      ensures IncidentIntensityLaw(t["I1" := rules[j].value(t).value], rules[j].value(t).value)
    {
      assert j == 3;
      assert Div(t["n1"], t["n2"]).Ok?;
    }
  }

  /** A transmitted intensity the solver derives is I1 n2/n1. */
  lemma DerivedIntensity(m: Math, kwargs: map<string, Option<real>>)
    requires !("I2" in kwargs && kwargs["I2"].Some?)
    ensures var r := SolveWaves(m, "light_properties", kwargs);
      r.Ok? && "I2" in r.value ==> IntensityLaw(r.value, r.value["I2"])
  {
    WaveGrows(m, "light_properties");
    IntensityLawStable();
    IntensityLawEstablished(m);
    SolvedEstablishes(LightRules(m), WaveStep(m, "light_properties"), Schema, "I2", IntensityLaw, kwargs);
  }

  /** An incident intensity the solver derives is I2 n1/n2. */
  lemma DerivedIncidentIntensity(m: Math, kwargs: map<string, Option<real>>)
    requires !("I1" in kwargs && kwargs["I1"].Some?)
    ensures var r := SolveWaves(m, "light_properties", kwargs);
      r.Ok? && "I1" in r.value ==> IncidentIntensityLaw(r.value, r.value["I1"])
  {
    WaveGrows(m, "light_properties");
    IncidentIntensityLawStable();
    IncidentIntensityLawEstablished(m);
    SolvedEstablishes(LightRules(m), WaveStep(m, "light_properties"), Schema, "I1", IncidentIntensityLaw, kwargs);
  }

  /** The refraction law on the angle x written from n_a and angle θ_a into a
      medium n_b: n_b is not zero, the sine n_a sin θ_a/n_b lies in [-1, 1],
      and x is its arcsine in degrees. */
  function RefractionLaw(m: Math, na: string, angle: string, nb: string): (State, real) -> bool
  {
    (t: State, x: real) =>
      na in t && angle in t && nb in t && t[nb] != 0.0 &&
      Abs(SnellSine(m, t, na, angle, nb)) <= 1.0 && x == Degrees(m.asin(SnellSine(m, t, na, angle, nb)))
  }

  lemma RefractionLawStable(m: Math, x: string, na: string, angle: string, nb: string)
    ensures Stable(x, RefractionLaw(m, na, angle, nb))
  {
    var P := RefractionLaw(m, na, angle, nb);
    forall s: State, t: State | Extends(s, t) && x in s && P(s, s[x])
      ensures x in t && P(t, t[x])
    {
      assert SnellSine(m, t, na, angle, nb) == SnellSine(m, s, na, angle, nb);
    }
  }

  lemma RefractedAngleLawEstablished(m: Math)
    ensures Establishes(LightRules(m), "θ2", RefractionLaw(m, "n1", "θ1", "n2"))
  {
    var rules := LightRules(m);
    forall j, t: State | 0 <= j < |rules| && rules[j].target == "θ2" && "θ2" !in t && rules[j].inputs <= t.Keys &&
                         rules[j].when(t) && rules[j].value(t).Ok?
      ensures RefractionLaw(m, "n1", "θ1", "n2")(t["θ2" := rules[j].value(t).value], rules[j].value(t).value)
    {
      assert j == 0;
      assert Div(t["n1"] * m.sin(Radians(t["θ1"])), t["n2"]).Ok?;
      var u := t["θ2" := rules[j].value(t).value];
      assert SnellSine(m, u, "n1", "θ1", "n2") == SnellSine(m, t, "n1", "θ1", "n2");
    }
  }

  lemma IncidentAngleLawEstablished(m: Math)
    ensures Establishes(LightRules(m), "θ1", RefractionLaw(m, "n2", "θ2", "n1"))
  {
    var rules := LightRules(m);
    forall j, t: State | 0 <= j < |rules| && rules[j].target == "θ1" && "θ1" !in t && rules[j].inputs <= t.Keys &&
                         rules[j].when(t) && rules[j].value(t).Ok?
      ensures RefractionLaw(m, "n2", "θ2", "n1")(t["θ1" := rules[j].value(t).value], rules[j].value(t).value)
    {
      assert j == 1;
      assert Div(t["n2"] * m.sin(Radians(t["θ2"])), t["n1"]).Ok?;
      var u := t["θ1" := rules[j].value(t).value];
      assert SnellSine(m, u, "n2", "θ2", "n1") == SnellSine(m, t, "n2", "θ2", "n1");
    }
  }

  /** A refracted angle the solver derives obeys Snell's law: n2 is not zero,
      n1 sin θ1/n2 lies in [-1, 1] and θ2 is its arcsine in degrees. */
  lemma DerivedRefractedAngle(m: Math, kwargs: map<string, Option<real>>)
    requires !("θ2" in kwargs && kwargs["θ2"].Some?)
    ensures var r := SolveWaves(m, "light_properties", kwargs);
      r.Ok? && "θ2" in r.value ==> RefractionLaw(m, "n1", "θ1", "n2")(r.value, r.value["θ2"])
  {
    WaveGrows(m, "light_properties");
    RefractionLawStable(m, "θ2", "n1", "θ1", "n2");
    RefractedAngleLawEstablished(m);
    SolvedEstablishes(LightRules(m), WaveStep(m, "light_properties"), Schema, "θ2", RefractionLaw(m, "n1", "θ1", "n2"), kwargs);
  }

  /** An incident angle the solver derives obeys Snell's law read backwards:
      n1 is not zero, n2 sin θ2/n1 lies in [-1, 1] and θ1 is its arcsine. */
  lemma DerivedIncidentAngle(m: Math, kwargs: map<string, Option<real>>)
    requires !("θ1" in kwargs && kwargs["θ1"].Some?)
    ensures var r := SolveWaves(m, "light_properties", kwargs);
      r.Ok? && "θ1" in r.value ==> RefractionLaw(m, "n2", "θ2", "n1")(r.value, r.value["θ1"])
  {
    WaveGrows(m, "light_properties");
    RefractionLawStable(m, "θ1", "n2", "θ2", "n1");
    IncidentAngleLawEstablished(m);
    SolvedEstablishes(LightRules(m), WaveStep(m, "light_properties"), Schema, "θ1", RefractionLaw(m, "n2", "θ2", "n1"), kwargs);
  }
}
