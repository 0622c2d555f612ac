/** The physics interpreter's two pieces of logic: converting the quantities
    found in a problem's text to SI units, and classifying the problem into
    one of the solver domains.

    The regular-expression scan that finds quantities is not modelled: the
    matches it yields arrive as a sequence, in the order the interpreter's
    nested loops visit them (domain, then pattern, then position in the
    text). */
module PhysicsInterpreter {
  import opened Outcomes

  datatype ProblemType =
    | Kinematics
    | Dynamics
    | Waves
    | Electricity
    | Electromagnetism
    | AdvancedMechanics
    | Unknown

  // ---------------------------------------------------------------------
  // Unit conversion
  // ---------------------------------------------------------------------

  /** `UNIT_CONVERSIONS.get(unit)`: the factor to SI of a unit as it appears
      in the text, or None for a unit the table does not list. */
  function UnitConversion(unit: string): (r: Option<real>)
    ensures r.Some? ==> r.value > 0.0
  {
    match unit
    // length
    case "m" => Some(1.0)
    case "km" => Some(1000.0)
    case "cm" => Some(0.01)
    case "mm" => Some(0.001)
    case "ft" => Some(0.3048)
    // time
    case "s" => Some(1.0)
    case "ms" => Some(1e-3)
    case "min" => Some(60.0)
    case "h" => Some(3600.0)
    // mass
    case "kg" => Some(1.0)
    case "g" => Some(1e-3)
    case "mg" => Some(1e-6)
    // velocity
    case "m/s" => Some(1.0)
    case "km/h" => Some(0.277778)
    case "ft/s" => Some(0.3048)
    // acceleration
    case "m/s²" => Some(1.0)
    case "ft/s²" => Some(0.3048)
    // force
    case "N" => Some(1.0)
    case "kN" => Some(1e3)
    case "lb" => Some(4.44822)
    // energy
    case "J" => Some(1.0)
    case "kJ" => Some(1e3)
    case "eV" => Some(1.60218e-19)
    // electricity
    case "V" => Some(1.0)
    case "kV" => Some(1e3)
    case "mV" => Some(1e-3)
    case "A" => Some(1.0)
    case "mA" => Some(1e-3)
    case "μA" => Some(1e-6)
    case "Ω" => Some(1.0)
    case "kΩ" => Some(1e3)
    case "MΩ" => Some(1e6)
    case "F" => Some(1.0)
    case "μF" => Some(1e-6)
    case "nF" => Some(1e-9)
    // electromagnetism
    case "T" => Some(1.0)
    case "mT" => Some(1e-3)
    case "μT" => Some(1e-6)
    case "C" => Some(1.0)
    case "μC" => Some(1e-6)
    case "nC" => Some(1e-9)
    case "Wb" => Some(1.0)
    case "H" => Some(1.0)
    case _ => None
  }

  /** `UNIT_CONVERSIONS.get(unit, 1.0)`: a unit missing from the table is
      taken as already in SI.  Every factor is positive, so a conversion
      keeps the sign of the value and maps only 0 to 0. */
  function Factor(unit: string): (r: real)
    ensures r > 0.0
    ensures UnitConversion(unit).None? ==> r == 1.0
  {
    match UnitConversion(unit)
    case Some(f) => f
    case None => 1.0
  }

  /** The SI value of a matched quantity. */
  function ToSI(value: real, unit: string): (r: real)
    ensures r == 0.0 <==> value == 0.0
    ensures r > 0.0 <==> value > 0.0
  {
    value * Factor(unit)
  }

  /** Kilometres are scaled to metres; the table lookup is exact, so an
      upper-case spelling that the case-insensitive scan accepts ("KM") is a
      different, unknown unit and is left unscaled. */
  lemma Kilometres(v: real)
    ensures ToSI(v, "km") == 1000.0 * v
    ensures ToSI(v, "KM") == v
  {
  }

  /** Several units that the variable patterns accept have no table entry and
      so are not scaled: kilohertz stay as given, as do nanometres, kilowatts
      and degrees. */
  lemma UnscaledPatternUnits(v: real)
    ensures ToSI(v, "kHz") == v && ToSI(v, "MHz") == v
    ensures ToSI(v, "nm") == v && ToSI(v, "μm") == v
    ensures ToSI(v, "kW") == v && ToSI(v, "MW") == v
    ensures ToSI(v, "deg") == v && ToSI(v, "rpm") == v
  {
  }

  // ---------------------------------------------------------------------
  // Variable extraction
  // ---------------------------------------------------------------------

  /** One regex match for the variable `name`: the matched text, the number
      `float` made of its first group (None when `float` raised), and the
      unit of its second group. */
  datatype Match = Match(name: string, text: string, number: Option<real>, unit: string)

  /** The line collected for a match whose number did not parse. */
  function FailureLine(m: Match): string
  {
    "Failed to parse " + m.name + ": " + m.text
  }

  /** The variables the scan of ms writes: each parsed match stores its SI
      value under its name, a later one overwriting an earlier. */
  function Assigned(ms: seq<Match>): map<string, real>
  {
    if ms == [] then map[]
    else
      var m := ms[|ms| - 1];
      var v := Assigned(ms[..|ms| - 1]);
      if m.number.Some? then v[m.name := ToSI(m.number.value, m.unit)] else v
  }

  /** The failure lines the scan of ms collects, in scan order. */
  function Failures(ms: seq<Match>): seq<string>
  {
    if ms == [] then []
    else
      var m := ms[|ms| - 1];
      Failures(ms[..|ms| - 1]) + (if m.number.None? then [FailureLine(m)] else [])
  }

  /** `"\n".join(lines)`. */
  function JoinLines(lines: seq<string>): string
  {
    if lines == [] then ""
    else if |lines| == 1 then lines[0]
    else lines[0] + "\n" + JoinLines(lines[1..])
  }

  /** The outcome of `extract_variables` on the matches ms: one ValueError
      listing every failure, or the variables. */
  function Extracted(ms: seq<Match>): Result<map<string, real>>
  {
    var errors := Failures(ms);
    if errors != [] then Err(ValueError("Variable extraction errors:\n" + JoinLines(errors)))
    else Ok(Assigned(ms))
  }

  /** The scan loop: a parse failure is recorded and the loop goes on; the
      error is raised only after the last match. */
  method ExtractVariables(ms: seq<Match>) returns (r: Result<map<string, real>>)
    ensures r == Extracted(ms)
  {
    var variables: map<string, real> := map[];
    var errors: seq<string> := [];
    for i := 0 to |ms|
      invariant variables == Assigned(ms[..i])
      invariant errors == Failures(ms[..i])
    {
      var m := ms[i];
      assert ms[..i + 1][..i] == ms[..i];
      if m.number.Some? {
        variables := variables[m.name := ToSI(m.number.value, m.unit)];
      } else {
        errors := errors + [FailureLine(m)];
      }
    }
    assert ms[..|ms|] == ms;
    if errors != [] {
      r := Err(ValueError("Variable extraction errors:\n" + JoinLines(errors)));
    } else {
      r := Ok(variables);
    }
  }

  /** A name is extracted exactly when some match for it parsed. */
  lemma {:induction false} AssignedNames(ms: seq<Match>, n: string)
    ensures n in Assigned(ms) <==> exists k :: 0 <= k < |ms| && ms[k].name == n && ms[k].number.Some?
  {
    if ms != [] {
      var init := ms[..|ms| - 1];
      AssignedNames(init, n);
      if n in Assigned(init) {
        var k :| 0 <= k < |init| && init[k].name == n && init[k].number.Some?;
        assert ms[k] == init[k];
      }
      if exists k :: 0 <= k < |ms| && ms[k].name == n && ms[k].number.Some? {
        var k :| 0 <= k < |ms| && ms[k].name == n && ms[k].number.Some?;
        if k < |init| {
          assert init[k] == ms[k];
        }
      }
    }
  }

  /** The last parsed match for a name decides its value. */
  lemma {:induction false} LastMatchWins(ms: seq<Match>, k: int)
    requires 0 <= k < |ms| && ms[k].number.Some?
    requires forall j :: k < j < |ms| ==> ms[j].name != ms[k].name || ms[j].number.None?
    ensures ms[k].name in Assigned(ms)
    ensures Assigned(ms)[ms[k].name] == ToSI(ms[k].number.value, ms[k].unit)
  {
    var init := ms[..|ms| - 1];
    if k < |ms| - 1 {
      forall j | k < j < |init|
        ensures init[j].name != init[k].name || init[j].number.None?
      {
        assert init[j] == ms[j];
      }
      LastMatchWins(init, k);
      assert init[k] == ms[k];
    }
  }

  /** Scanning more matches after a failure still collects their failures:
      the report of a concatenated scan is the two reports in order. */
  lemma {:induction false} FailuresConcat(ms: seq<Match>, more: seq<Match>)
    ensures Failures(ms + more) == Failures(ms) + Failures(more)
  {
    if more != [] {
      var init := more[..|more| - 1];
      assert (ms + more)[..|ms + more| - 1] == ms + init;
      FailuresConcat(ms, init);
    } else {
      assert ms + more == ms;
    }
  }

  /** Every failing match is reported, not only the first. */
  lemma {:induction false} EveryFailureReported(ms: seq<Match>, k: int)
    requires 0 <= k < |ms| && ms[k].number.None?
    ensures FailureLine(ms[k]) in Failures(ms)
  {
    var init := ms[..|ms| - 1];
    if k < |ms| - 1 {
      assert init[k] == ms[k];
      EveryFailureReported(init, k);
    }
  }

  /** Extraction fails exactly when some match fails, whatever the other
      matches parsed. */
  lemma {:induction false} ExtractionFails(ms: seq<Match>)
    ensures Extracted(ms).Err? <==> exists k :: 0 <= k < |ms| && ms[k].number.None?
  {
    if exists k :: 0 <= k < |ms| && ms[k].number.None? {
      var k :| 0 <= k < |ms| && ms[k].number.None?;
      EveryFailureReported(ms, k);
    } else {
      NoFailures(ms);
    }
  }

  lemma {:induction false} NoFailures(ms: seq<Match>)
    requires forall k :: 0 <= k < |ms| ==> ms[k].number.Some?
    ensures Failures(ms) == []
  {
    if ms != [] {
      var init := ms[..|ms| - 1];
      assert forall k :: 0 <= k < |init| ==> init[k] == ms[k];
      NoFailures(init);
    }
  }

  // ---------------------------------------------------------------------
  // Problem classification
  // ---------------------------------------------------------------------

  /** `str.lower` on one character, for the ASCII letters. */
  function LowerChar(c: char): (r: char)
    ensures 'A' <= c <= 'Z' ==> 'a' <= r <= 'z' && r as int - 'a' as int == c as int - 'A' as int
    ensures !('A' <= c <= 'Z') ==> r == c
  {
    if 'A' <= c <= 'Z' then (c as int + 32) as char else c
  }

  /** `str.upper` on one character, for the ASCII letters. */
  function UpperChar(c: char): (r: char)
    ensures 'a' <= c <= 'z' ==> 'A' <= r <= 'Z' && r as int - 'A' as int == c as int - 'a' as int
    ensures !('a' <= c <= 'z') ==> r == c
  {
    if 'a' <= c <= 'z' then (c as int - 32) as char else c
  }

  function Lower(s: string): (r: string)
    ensures |r| == |s|
    ensures forall i :: 0 <= i < |s| ==> r[i] == LowerChar(s[i])
  {
    seq(|s|, i requires 0 <= i < |s| => LowerChar(s[i]))
  }

  function Upper(s: string): (r: string)
    ensures |r| == |s|
    ensures forall i :: 0 <= i < |s| ==> r[i] == UpperChar(s[i])
  {
    seq(|s|, i requires 0 <= i < |s| => UpperChar(s[i]))
  }

  /** Raising a lowered capital, or lowering a raised small letter, gives the
      letter back. */
  lemma CaseRoundTrip(c: char)
    ensures 'A' <= c <= 'Z' ==> UpperChar(LowerChar(c)) == c
    ensures 'a' <= c <= 'z' ==> LowerChar(UpperChar(c)) == c
  {
  }

  /** Python's `kw in text`: kw is a contiguous piece of text. */
  ghost predicate OccursAt(text: string, kw: string, i: int)
  {
    0 <= i && i + |kw| <= |text| && text[i..i + |kw|] == kw
  }

  ghost predicate Occurs(text: string, kw: string)
  {
    exists i :: OccursAt(text, kw, i)
  }

  /** The substring test, by trying each start position in turn. */
  function Contains(text: string, kw: string): bool
    decreases |text|
  {
    if |text| < |kw| then false
    else text[..|kw|] == kw || Contains(text[1..], kw)
  }

  /** An occurrence in the tail is an occurrence one position further on,
      and back. */
  lemma OccursInTail(text: string, kw: string, i: int)
    requires 0 < |text| && 0 <= i
    ensures OccursAt(text[1..], kw, i) <==> OccursAt(text, kw, i + 1)
  {
    if i + 1 + |kw| <= |text| {
      assert text[1..][i..i + |kw|] == text[i + 1..i + 1 + |kw|];
    }
  }

  lemma {:induction false} ContainsOccurs(text: string, kw: string)
    ensures Contains(text, kw) <==> Occurs(text, kw)
    decreases |text|
  {
    if |text| < |kw| {
    } else if text[..|kw|] == kw {
      assert OccursAt(text, kw, 0);
    } else {
      ContainsOccurs(text[1..], kw);
      if Occurs(text[1..], kw) {
        var i :| OccursAt(text[1..], kw, i);
        OccursInTail(text, kw, i);
      }
      if Occurs(text, kw) {
        var i :| OccursAt(text, kw, i);
        OccursInTail(text, kw, i - 1);
      }
    }
  }

  /** A domain's keywords and the names of its variable patterns. */
  datatype Domain = Domain(kind: ProblemType, keywords: seq<string>, names: seq<string>)

  const ElectromagnetismDomain := Domain(Electromagnetism,
    ["magnetic field", "lorentz force", "motor effect", "faraday", "emf", "flux"],
    ["charge", "magnetic_field", "emf", "flux"])
  const ElectricityDomain := Domain(Electricity,
    ["circuit", "ohm", "resistor", "capacitor", "voltage", "current", "power"],
    ["voltage", "current", "resistance", "power"])
  const AdvancedMechanicsDomain := Domain(AdvancedMechanics,
    ["projectile", "trajectory", "circular motion", "banked track", "gravitation"],
    ["angle", "angular_velocity", "torque"])
  const DynamicsDomain := Domain(Dynamics,
    ["force", "momentum", "friction", "impulse"],
    ["mass", "force", "momentum"])
  const KinematicsDomain := Domain(Kinematics,
    ["velocity", "acceleration", "displacement", "kinematics"],
    ["velocity", "acceleration", "time", "displacement"])
  const WavesDomain := Domain(Waves,
    ["wavelength", "frequency", "doppler", "snell", "refraction"],
    ["frequency", "wavelength", "period"])

  /** The domains in the order they are tried. */
  const Priority: seq<Domain> := [ElectromagnetismDomain, ElectricityDomain,
    AdvancedMechanicsDomain, DynamicsDomain, KinematicsDomain, WavesDomain]

  /** `any(kw in text_lower ...) or any(v in variables ...)`. */
  predicate Matches(d: Domain, lower: string, variables: map<string, real>)
  {
    (exists kw | kw in d.keywords :: Contains(lower, kw)) || (exists n | n in d.names :: n in variables)
  }

  /** The same test stated on the raw text: some keyword occurs in the text
      once lower-cased, or some pattern name is a known variable. */
  ghost predicate Mentions(d: Domain, text: string, variables: map<string, real>)
  {
    (exists kw :: kw in d.keywords && Occurs(Lower(text), kw)) || (exists n :: n in d.names && n in variables)
  }

  function IdentifyProblemType(text: string, variables: map<string, real>): ProblemType
  {
    var lower := Lower(text);
    if Matches(ElectromagnetismDomain, lower, variables) then Electromagnetism
    else if Matches(ElectricityDomain, lower, variables) then Electricity
    else if Matches(AdvancedMechanicsDomain, lower, variables) then AdvancedMechanics
    else if Matches(DynamicsDomain, lower, variables) then Dynamics
    else if Matches(KinematicsDomain, lower, variables) then Kinematics
    else if Matches(WavesDomain, lower, variables) then Waves
    else Unknown
  }

  lemma MatchesMentions(d: Domain, text: string, variables: map<string, real>)
    ensures Matches(d, Lower(text), variables) <==> Mentions(d, text, variables)
  {
    forall kw | kw in d.keywords
      ensures Contains(Lower(text), kw) <==> Occurs(Lower(text), kw)
    {
      ContainsOccurs(Lower(text), kw);
    }
  }

  /** The six domain tests, each on the decision and the stated side. */
  lemma DomainsMentioned(text: string, variables: map<string, real>)
    ensures forall j :: 0 <= j < |Priority| ==>
      (Matches(Priority[j], Lower(text), variables) <==> Mentions(Priority[j], text, variables))
  {
    forall j | 0 <= j < |Priority|
      ensures Matches(Priority[j], Lower(text), variables) <==> Mentions(Priority[j], text, variables)
    {
      MatchesMentions(Priority[j], text, variables);
    }
  }

  /** The classification is the first domain, in priority order, that the
      text mentions. */
  lemma ClassificationPriority(text: string, variables: map<string, real>, k: int)
    requires 0 <= k < |Priority|
    ensures IdentifyProblemType(text, variables) == Priority[k].kind <==>
      Mentions(Priority[k], text, variables) && forall j :: 0 <= j < k ==> !Mentions(Priority[j], text, variables)
  {
    IdentifyIsFirstMentioned(text, variables);
    FirstMentionedAt(MentionFlags(text, variables), k);
  }

  /** Which of the six domains, in priority order, the text mentions. */
  ghost function MentionFlags(text: string, variables: map<string, real>): (r: seq<bool>)
    ensures |r| == |Priority|
    ensures forall j :: 0 <= j < |Priority| ==> r[j] == Mentions(Priority[j], text, variables)
  {
    seq(|Priority|, j requires 0 <= j < |Priority| => Mentions(Priority[j], text, variables))
  }

  /** The elif chain picks the first mentioned domain. */
  lemma IdentifyIsFirstMentioned(text: string, variables: map<string, real>)
    ensures IdentifyProblemType(text, variables) == FirstMentioned(MentionFlags(text, variables))
  {
    var f := MentionFlags(text, variables);
    MatchesMentions(ElectromagnetismDomain, text, variables);
    MatchesMentions(ElectricityDomain, text, variables);
    MatchesMentions(AdvancedMechanicsDomain, text, variables);
    MatchesMentions(DynamicsDomain, text, variables);
    MatchesMentions(KinematicsDomain, text, variables);
    MatchesMentions(WavesDomain, text, variables);
    assert f[0] == Mentions(ElectromagnetismDomain, text, variables);
    assert f[1] == Mentions(ElectricityDomain, text, variables);
    assert f[2] == Mentions(AdvancedMechanicsDomain, text, variables);
    assert f[3] == Mentions(DynamicsDomain, text, variables);
    assert f[4] == Mentions(KinematicsDomain, text, variables);
    assert f[5] == Mentions(WavesDomain, text, variables);
  }

  lemma FirstMentionedAt(mentioned: seq<bool>, k: int)
    requires |mentioned| == |Priority| && 0 <= k < |Priority|
    ensures FirstMentioned(mentioned) == Priority[k].kind <==> mentioned[k] && forall j :: 0 <= j < k ==> !mentioned[j]
  {
    if k == 0 {
    } else if k == 1 {
    } else if k == 2 {
    } else if k == 3 {
    } else if k == 4 {
    } else {
    }
  }

  /** The kind chosen by the flags of the six domains, in priority order. */
  function FirstMentioned(mentioned: seq<bool>): ProblemType
    requires |mentioned| == |Priority|
  {
    if mentioned[0] then Electromagnetism
    else if mentioned[1] then Electricity
    else if mentioned[2] then AdvancedMechanics
    else if mentioned[3] then Dynamics
    else if mentioned[4] then Kinematics
    else if mentioned[5] then Waves
    else Unknown
  }

  /** A text that mentions no domain is UNKNOWN, and only such a text. */
  lemma UnknownIffNoMention(text: string, variables: map<string, real>)
    ensures IdentifyProblemType(text, variables) == Unknown <==>
      forall j :: 0 <= j < |Priority| ==> !Mentions(Priority[j], text, variables)
  {
    IdentifyIsFirstMentioned(text, variables);
  }

  lemma LowerUpper(s: string)
    ensures Lower(Upper(s)) == Lower(s)
  {
    forall i | 0 <= i < |s|
      ensures Lower(Upper(s))[i] == Lower(s)[i]
    {
      assert Upper(s)[i] == UpperChar(s[i]);
    }
  }

  /** Keyword matching ignores letter case: the same question written in
      capitals is classified the same. */
  lemma CaseInsensitive(text: string, variables: map<string, real>)
    ensures IdentifyProblemType(Upper(text), variables) == IdentifyProblemType(text, variables)
  {
    LowerUpper(text);
  }
}
