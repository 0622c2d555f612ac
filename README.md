# A verified model of the physics solvers, problem classifier and sign-up checks

The application answers physics questions. It recognises the kind of problem in a
question, extracts the quantities it names, and hands them to a solver for that
domain. Each solver is an iterative "fill in the unknowns" loop. The loop keeps a
dictionary of symbols, each either set or `None`, and runs its equations over and
over. An equation fires when its target is unset and its inputs are set, and the
loop stops once a whole pass changes nothing. This project models:

- the generic shape of those loops (`Knowns`): seeding from the keyword arguments,
  a pass as a sequence of guarded rules, the loop to a fixed point, and what every
  solver therefore promises;
- `solve_kinematics`, the `elif` chain over the five SUVAT symbols (`Kinematics`);
- the `EMSolver` class, a stateful object with `solutions` and `changed`, with its
  electrostatics, circuits and magnetism rule sets (`ElectricityMagnetism`);
- the six electromagnetism solvers: Lorentz force, force on a wire, parallel
  wires, EMF induction, transformer and motor torque (`Electromagnetism`);
- the four advanced-mechanics solvers: projectile, circular motion, banked track
  and gravitation, including their degree/radian handling (`AdvancedMechanics`);
- the `WaveSolver` class with its wave, sound (Doppler) and light (Snell)
  rule sets (`Waves`);
- `identify_problem_type` and the unit conversion and error collection of
  `extract_variables` (`PhysicsInterpreter`);
- the validation chain of the sign-up dialog: stripping, required fields,
  username rule, email pattern and password strength (`Signup`).

Python floats are modelled as `real`. Python exceptions are modelled as the
`Error` values of `Outcomes.Result`, which propagate with `:-` just as an
exception propagates out of the loop. `math.sin`, `math.cos`, `math.asin`,
`math.acos`, `math.tan`, `math.atan`, `math.atan2` and `math.sqrt` are supplied as a `Math`
value of uninterpreted functions (`Numerics.Math`). Where a property depends on
them, the lemma states exactly what it needs about them as a hypothesis. Only
`math.pi` is a fixed constant here (`Numerics.Pi`).

Each solver is modelled twice. The first form is a function: one pass is a list
of rules (`Knowns.RunRules`) and the loop is its fixed point (`Knowns.Fix`). The
second form is the imperative code itself: a method with a `while` loop
(`Knowns.RunToFixpoint`, `Kinematics.Solve`), or a class whose methods update
`solutions` in place (`ElectricityMagnetism.EMSolver`, `Waves.WaveSolver`). Each
method is proved equal to the function, and the physics is proved about the
function.

## Model

| member | source | states |
|---|---|---|
| Outcomes.OnZeroDivision | core/electromagnetism.py:44-49 | a ZeroDivisionError from the computation becomes ValueError(reason); any other outcome passes through unchanged (a case split on the input that fixes what the Python primitive does; the rule lemmas below rely on it) |
| Outcomes.OnValueError | core/electromagnetism.py:58-64 | a ValueError from the computation is replaced by ValueError(reason); any other outcome passes through unchanged (a case split on the input that fixes what the Python primitive does; the rule lemmas below rely on it) |
| Outcomes.Reject | core/electromagnetism.py:67-68 | the rejected case is ValueError(reason) whatever the computation; otherwise the computation's own outcome (a case split on the input that fixes what the Python primitive does; the rule lemmas below rely on it) |
| Numerics.Abs | core/waves.py:166 | abs is never negative and equals x or -x |
| Numerics.RadiansDegrees | core/advanced_mechanics.py:22-23 | math.radians undoes math.degrees |
| Numerics.Sqrt | core/advanced_mechanics.py:59-61 | math.sqrt raises ValueError("math domain error") exactly for a negative argument, and otherwise gives the root function's value (a case split on the input that fixes what the Python primitive does; the rule lemmas below rely on it) |
| Numerics.Asin | core/electromagnetism.py:58-64 | math.asin raises ValueError exactly outside [-1, 1], and otherwise gives the arcsine (a case split on the input that fixes what the Python primitive does; the rule lemmas below rely on it) |
| Numerics.Div | core/advanced_mechanics.py:281-283 | a / b raises ZeroDivisionError exactly when b is zero, and otherwise gives the q with q*b = a |
| Knowns.Seed | core/advanced_mechanics.py:82-89 | the starting dictionary has a symbol set exactly when it is in the solver's dictionary and the caller passed it as a value, not None, and with the value passed |
| Knowns.Derive | core/advanced_mechanics.py:96-99 | a guarded rule only adds its target, sets it when the target is unset and its inputs are set, and otherwise leaves the state alone |
| Knowns.DeriveOrRaise | core/advanced_mechanics.py:281-283 | a guarded rule whose computation may raise only adds its target, propagates the error only when its guard holds, and otherwise leaves the state alone |
| Knowns.Store | core/advanced_mechanics.py:97-98 | writing a computed value succeeds exactly when the computation does, sets that symbol to it, and otherwise raises the computation's error |
| Knowns.SameEntries | core/waves.py:36-41 | two states with the same symbols and the same values are equal, which is how a pass that wrote nothing leaves `changed` false |
| Knowns.ChainChanged | core/waves.py:36-41 | along a chain of extensions the end differs from the start exactly when some step changed something: `changed \|=` is the right flag |
| Knowns.ExtendsTransitive | core/advanced_mechanics.py:91-93 | extension of the known symbols is transitive |
| Knowns.Plain | core/advanced_mechanics.py:96-102 | a rule with no condition beyond its inputs being set: its condition holds in every state |
| Knowns.Fire | core/advanced_mechanics.py:96-102 | one `if` block does nothing when its target is set or its inputs or condition fail, and otherwise stores its computed value in its target alone |
| Knowns.RunRules | core/advanced_mechanics.py:93-143 | a pass never changes or removes a known value; it only adds entries |
| Knowns.RulesGrow | core/advanced_mechanics.py:93-143 | a pass whose rules write only dictionary symbols keeps the state within the dictionary and only grows it |
| Knowns.RunRulesWithin | core/advanced_mechanics.py:93-143 | a pass whose rules write only dictionary symbols keeps the state within the dictionary |
| Knowns.SkipRules | core/advanced_mechanics.py:93-143 | leading rules that do not fire can be skipped: the pass equals the pass of the remaining rules |
| Knowns.RuleAt | core/advanced_mechanics.py:93-143 | when the first k rules leave the state alone, an error of rule k is the error of the pass, and what rule k sets survives the rest of the pass |
| Knowns.RuleValue | core/advanced_mechanics.py:93-143 | when rule k is the first to act and it applies, the pass raises what its computation raises, or ends with its value in its target |
| Knowns.LastRuleStores | core/advanced_mechanics.py:93-143 | when every earlier rule leaves the state alone and the last rule applies, the pass stores that rule's value in its target, or raises its error |
| Knowns.RuleRaises | core/advanced_mechanics.py:93-143 | a rule whose inputs are set in every extension of the state, with no earlier rule writing its target, and whose computation raises, makes the pass raise |
| Knowns.FixedPointFiresNothing | core/advanced_mechanics.py:91-93 | at a state the loop stops on, no rule fires |
| Knowns.FixedPointClosed | core/advanced_mechanics.py:91-93 | the loop's result is closed under every rule: a rule whose inputs are set and whose condition holds has its target set |
| Knowns.RunRulesEstablishes | core/advanced_mechanics.py:93-143 | a pass keeps a stable relation between a symbol and the rest of the state when each rule writing that symbol establishes it |
| Knowns.FixEstablishes | core/advanced_mechanics.py:91-93 | the loop keeps such a relation through every pass |
| Knowns.SolvedEstablishes | core/advanced_mechanics.py:80-145 | every symbol a solver derives, rather than receives, satisfies the law of the rules that write it |
| Knowns.RunRulesStep | core/advanced_mechanics.py:93-143 | a pass from rule i on is rule i followed by the rest |
| Knowns.ProperSubsetSmaller | core/advanced_mechanics.py:91-93 | adding a symbol strictly shrinks the set of unset symbols, so the loop terminates |
| Knowns.ChangeDecreasesUnset | core/advanced_mechanics.py:91-93 | a pass that changes something leaves fewer symbols unset |
| Knowns.FixProperties | core/advanced_mechanics.py:91-145 | the loop's result keeps every seeded entry, stays within the dictionary, and is a fixed point: one more pass changes nothing |
| Knowns.FixKeeps | core/advanced_mechanics.py:91-93 | any property of the state that every pass keeps holds of the loop's result |
| Knowns.PassesBound | core/advanced_mechanics.py:91-93 | the loop runs at most one more pass than there are unset symbols |
| Knowns.RunToFixpoint | core/advanced_mechanics.py:91-93 | the `changed = True; while changed:` loop, run in place, returns the fixed point of the pass |
| Knowns.SolveFrom | core/advanced_mechanics.py:80-145 | a solver's result holds only dictionary symbols, keeps every argument given as a value, and is a fixed point of the pass |
| Kinematics.PowHalf | core/kinematics.py:44-47 | `x ** 0.5` has a real value exactly when x >= 0, and that value is the supplied square root of x; a negative x stops with ComplexValue |
| Kinematics.QuadraticTime | core/kinematics.py:53-66 | the quadratic branch sets t only to a non-negative root; with a negative discriminant or no non-negative root t stays unknown |
| Kinematics.QuadraticTimeSolves | core/kinematics.py:58-66 | a time the quadratic branch keeps satisfies s = ut + at^2/2 |
| Kinematics.RootSolves | core/kinematics.py:61 | (-u + sqrt(u^2 + 2as))/a solves s = ut + at^2/2 |
| Kinematics.SelectSound | core/kinematics.py:18-70 | the chain takes a branch only when that branch's target is unknown and its inputs are known; this is the specification of `Select` |
| Kinematics.ApplyShape | core/kinematics.py:18-70 | a branch writes only its own target, or leaves the knowns alone; with ApplyLaw below, the specification of `Apply` |
| Kinematics.StepShape | core/kinematics.py:18-70 | a pass adds at most the target of the branch it took and keeps every known value; this is the specification of `Step` |
| Kinematics.StepAddsAtMostOne | core/kinematics.py:16-73 | a pass adds at most one symbol |
| Kinematics.StepGrows | core/kinematics.py:16-73 | a pass keeps the knowns within the five symbols and only grows them |
| Kinematics.DeadBranches | core/kinematics.py:38-40 | equation 6, the quadratic for t (53-66) and t = 2s/(u + v) (68-70) are never taken, because an earlier branch of the chain always covers their inputs |
| Kinematics.VelocityFromDisplacementFirst | core/kinematics.py:42-44 | with u, a and s known and v and t unknown, v comes from v^2 = u^2 + 2as |
| Kinematics.Known | core/kinematics.py:8 | the knowns are exactly the parameters that are not None, with their values |
| Kinematics.Select | core/kinematics.py:18-70 | the elif chain's choice of branch, with no contract of its own; SelectSound, DeadBranches and VelocityFromDisplacementFirst specify it |
| Kinematics.Apply | core/kinematics.py:18-70 | one branch's assignment, with no contract of its own; ApplyShape and ApplyLaw with the BranchLaw lemmas specify it |
| Kinematics.Step | core/kinematics.py:16-73 | one run of the chain, with no contract of its own; StepShape, StepAddsAtMostOne and StepKeepsLaws specify it |
| Kinematics.SolveKinematics | core/kinematics.py:1-79 | `solve_kinematics`, with no contract of its own; SolveKinematicsKeepsInputs, DerivedSymbolsObeyLaws, Example, ZeroDivisors and NegativeRadicand specify it, and Solve computes it with the source's loop |
| Kinematics.Solutions | core/kinematics.py:75-79 | the result has all five keys, None exactly where a symbol stayed unknown |
| Kinematics.UnsetAtMostFive | core/kinematics.py:12 | at most five symbols are missing |
| Kinematics.RoundsBound | core/kinematics.py:11-73 | the loop runs the chain at most once per unknown symbol |
| Kinematics.Solve | core/kinematics.py:1-79 | the `while True` loop with its `missing` and `initial_count` exits returns the fixed point of the chain |
| Kinematics.AllKnownIsFixed | core/kinematics.py:12-14 | with all five symbols known, a pass changes nothing |
| Kinematics.SameSizeIsSame | core/kinematics.py:72-73 | the `len(known_vars) == initial_count` exit means the pass changed nothing |
| Kinematics.SolveKinematicsKeepsInputs | core/kinematics.py:1-79 | `SolveKinematics` returns all five keys, every given parameter unchanged, and knowns that are closed: reading them back from the result, no branch of the chain would fire |
| Kinematics.ClosureIsClosed | core/kinematics.py:72-73 | at the loop's exit no branch's condition holds |
| Kinematics.Example | core/kinematics.py:19-36 | u = 0, a = 5, t = 10 give v = 50 and s = 250 |
| Kinematics.ZeroDivisors | core/kinematics.py:26-32 | t = 0 in a = (v - u)/t, a = 0 in t = (v - u)/a and s = 0 in a = (v^2 - u^2)/(2s) raise ZeroDivisionError |
| Kinematics.NegativeRadicand | core/kinematics.py:42-44 | u = 1, a = -5, s = 100 gives a negative radicand, so v has no real value |
| Kinematics.LawStable | core/kinematics.py:18-51 | an equation that holds between known symbols keeps holding as more symbols become known, since the chain never overwrites a known value |
| Kinematics.ApplyLaw | core/kinematics.py:18-70 | the branch the chain takes reads only known symbols, and the value it writes satisfies the equation of that branch |
| Kinematics.BranchLawVFromUAT | core/kinematics.py:19-20 | v written by equation 1 satisfies v = u + at |
| Kinematics.BranchLawUFromVAT | core/kinematics.py:23-24 | u written by equation 2 satisfies u = v - at |
| Kinematics.BranchLawAFromVUT | core/kinematics.py:27-28 | a written by equation 3 satisfies at = v - u |
| Kinematics.BranchLawTFromVUA | core/kinematics.py:31-32 | t written by equation 4 satisfies ta = v - u |
| Kinematics.BranchLawSFromUVT | core/kinematics.py:35-36 | s written by equation 5 satisfies s = ((u + v)/2)t |
| Kinematics.BranchLawVFromUAS | core/kinematics.py:43-44 | v written by equation 7 is (u^2 + 2as) ** 0.5: the square root of a non-negative u^2 + 2as |
| Kinematics.BranchLawUFromVAS | core/kinematics.py:46-47 | u written by the reverse of equation 7 is (v^2 - 2as) ** 0.5: the square root of a non-negative v^2 - 2as |
| Kinematics.BranchLawAFromVUS | core/kinematics.py:50-51 | a written by equation 8 satisfies a(2s) = v^2 - u^2 |
| Kinematics.StepKeepsLaws | core/kinematics.py:16-73 | one pass of the chain keeps every derived symbol satisfying the equation that produced it |
| Kinematics.ClosureKeepsLaws | core/kinematics.py:11-73 | so does the whole loop |
| Kinematics.DerivedSymbolsObeyLaws | core/kinematics.py:1-79 | every symbol the caller passed as None and `SolveKinematics` determines satisfies, with the returned values, an equation of a branch that writes it: v = u + at or v = sqrt(u^2 + 2as); u = v - at or u = sqrt(v^2 - 2as); at = v - u or a(2s) = v^2 - u^2; ta = v - u; s = ((u + v)/2)t |
| Kinematics.Determined | core/kinematics.py:75-79 | reading a returned dictionary back: a symbol is known exactly when its entry is not None, with that value |
| Kinematics.DeterminedSolutions | core/kinematics.py:75-79 | filling in None for the unknown symbols loses nothing: the knowns are read back exactly |
| ElectricityMagnetism.ChargeForce | core/electricity_magnetism.py:51-55 | F is known afterwards exactly when it was, or q and E are known; a newly derived F is qE, and nothing else changes |
| ElectricityMagnetism.FieldFromPotential | core/electricity_magnetism.py:57-61 | raises ZeroDivisionError exactly when E is unset, V and d are known and d = 0; otherwise E is known afterwards exactly when it was or V and d are, and a derived E satisfies E d = V |
| ElectricityMagnetism.PotentialFromField | core/electricity_magnetism.py:63-67 | V is known afterwards exactly when it was, or E and d are known; a newly derived V is Ed |
| ElectricityMagnetism.ElectrostaticsPass | core/electricity_magnetism.py:47-69 | a pass that succeeds keeps every known value and adds no key other than F, E and V; the values it derives are stated by ElectrostaticsLaws, and the `changed` flag (true exactly when the pass set something) by EMSolver.Electrostatics |
| ElectricityMagnetism.OhmVoltage | core/electricity_magnetism.py:75-78 | V_circuit is known afterwards exactly when it was, or I and R are known; a newly derived V_circuit is IR |
| ElectricityMagnetism.OhmCurrent | core/electricity_magnetism.py:79-83 | raises ZeroDivisionError exactly when I is unset, V_circuit and R are known and R = 0; otherwise I is known afterwards exactly when it was or V_circuit and R are, and a derived I satisfies IR = V_circuit |
| ElectricityMagnetism.OhmResistance | core/electricity_magnetism.py:84-89 | raises ZeroDivisionError exactly when R is unset, V_circuit and I are known and I = 0; otherwise R is known afterwards exactly when it was or V_circuit and I are, and a derived R satisfies IR = V_circuit |
| ElectricityMagnetism.Power | core/electricity_magnetism.py:91-101 | a derived P is V_circuit I when both are known, else I^2 R when both are known, else satisfies P R = V_circuit^2; only that last form raises, exactly when R = 0; P is known afterwards exactly when it was or one of the three pairs is known |
| ElectricityMagnetism.Energy | core/electricity_magnetism.py:103-112 | a derived E_energy is Pt when P and t are known, and V_circuit I t otherwise; it is known afterwards exactly when it was or one of those sets of inputs is known |
| ElectricityMagnetism.SeriesResistance | core/electricity_magnetism.py:114-119 | a derived R_series is R1 + R2, and R_series is known afterwards exactly when it was or both resistors are known |
| ElectricityMagnetism.ParallelResistance | core/electricity_magnetism.py:121-126 | raises ZeroDivisionError exactly when R1 = 0, R2 = 0 or 1/R1 + 1/R2 = 0; otherwise a derived R_parallel satisfies R_parallel (1/R1 + 1/R2) = 1, and R_parallel is known afterwards exactly when it was or both resistors are known |
| ElectricityMagnetism.CircuitsPass | core/electricity_magnetism.py:71-128 | the seven rules in order keep every known value |
| ElectricityMagnetism.MagnetismPass | core/electricity_magnetism.py:130-159 | a pass that succeeds keeps every known value, adds no key other than B and I_wire, and leaves the whole snapshot ('type' included) unchanged when it adds no value; the straight-wire-first order, the derived B or I_wire and the 'type' each branch sets are stated by StraightWireField and SolenoidField |
| ElectricityMagnetism.MagnetismAsWritten | core/electricity_magnetism.py:130-159 | the method as written returns `changed` only from the solenoid branch, and None on every other path |
| ElectricityMagnetism.OrAssign | core/electricity_magnetism.py:43 | `changed \|= None` raises TypeError; otherwise it is the disjunction |
| ElectricityMagnetism.Pass | core/electricity_magnetism.py:40-43 | only the rule set named after the category runs; any other category changes nothing |
| ElectricityMagnetism.EMSolver.constructor | core/electricity_magnetism.py:5-15 | a new solver has an empty dictionary and no type |
| ElectricityMagnetism.EMSolver.Apply | core/electricity_magnetism.py:51-55 | one block updates `solutions` in place exactly as the pure rule does, with `changed` set when it wrote |
| ElectricityMagnetism.EMSolver.Fire | core/electricity_magnetism.py:57-61 | likewise for a block whose computation may raise |
| ElectricityMagnetism.EMSolver.Electrostatics | core/electricity_magnetism.py:47-69 | `_solve_electrostatics` leaves `solutions` as the electrostatics pass does and returns whether it changed anything |
| ElectricityMagnetism.EMSolver.Circuits | core/electricity_magnetism.py:71-128 | `_solve_circuits` likewise for the circuits pass |
| ElectricityMagnetism.EMSolver.Magnetism | core/electricity_magnetism.py:130-159 | `_solve_magnetism`, corrected to return `changed` on every path, likewise for the magnetism pass |
| ElectricityMagnetism.EMSolver.Solve | core/electricity_magnetism.py:18-45 | reset, seed and loop leave the object's dictionary at the fixed point that the pure solver computes, and return its set entries |
| ElectricityMagnetism.ElectrostaticsLaws | core/electricity_magnetism.py:47-69 | F = qE and V = Ed are derived from what was given, E*d = V, and the pass fails exactly when E = V/d has d = 0 |
| ElectricityMagnetism.OhmsLaw | core/electricity_magnetism.py:75-89 | Ohm's law fires in all three directions, and each division raises on a zero divisor |
| ElectricityMagnetism.AfterOhm | core/electricity_magnetism.py:75-89 | the state after the three Ohm's-law rules keeps every known value |
| ElectricityMagnetism.OhmCompletes | core/electricity_magnetism.py:75-89 | after Ohm's law, two known quantities of V_circuit, I and R mean all three are known |
| ElectricityMagnetism.CircuitsPassSplits | core/electricity_magnetism.py:71-128 | the circuits pass is Ohm's law followed by the remaining four rules |
| ElectricityMagnetism.PowerFromVoltageAndCurrent | core/electricity_magnetism.py:91-101 | a derived P is always V_circuit*I, so the I^2R and V^2/R alternatives never fire, and P is derived whenever two of V_circuit, I and R are known |
| ElectricityMagnetism.EnergyFromPower | core/electricity_magnetism.py:103-112 | a derived E_energy is always Pt, never VIt |
| ElectricityMagnetism.ResistorCombinations | core/electricity_magnetism.py:114-126 | R_series = R1 + R2; R_parallel (1/R1 + 1/R2) = 1; a zero R1 or R2 raises ZeroDivisionError |
| ElectricityMagnetism.StraightWireField | core/electricity_magnetism.py:133-138 | a straight wire gives B = μ0 I/(2πr), r = 0 raises, and 'type' becomes 'straight_wire' |
| ElectricityMagnetism.SolenoidField | core/electricity_magnetism.py:147-157 | a solenoid gives B = μ0 N I/L, or I_wire from B, and 'type' becomes 'solenoid' |
| ElectricityMagnetism.StraightWireCurrentNeverDerived | core/electricity_magnetism.py:139-144 | the branch that would invert the straight-wire formula can never be entered: with I_wire unset and no solenoid the pass changes nothing |
| ElectricityMagnetism.RunProperties | core/electricity_magnetism.py:36-45 | the loop keeps every argument, adds only symbols of the category's rule set, touches 'type' only for magnetism, and ends at a fixed point |
| ElectricityMagnetism.Run | core/electricity_magnetism.py:36-45 | the `while changed` loop, with no contract of its own; RunProperties specifies it, and EMSolver.Solve computes it in place |
| ElectricityMagnetism.SolveEMKeepsInputs | core/electricity_magnetism.py:18-45 | every recognised argument comes back with its value, and a category with no rule set returns just the arguments; with RunProperties, the specification of `SolveEM` |
| ElectricityMagnetism.SolveEM | core/electricity_magnetism.py:18-45 | `solve`, with no contract of its own; SolveEMKeepsInputs and RunProperties specify it, and EMSolver.Solve computes it in place |
| ElectricityMagnetism.MagnetismAsWrittenRaises | core/electricity_magnetism.py:159 | as written, magnetism solving raises TypeError whenever the solenoid branch is not taken |
| ElectricityMagnetism.MagnetismAsWrittenAgrees | core/electricity_magnetism.py:147-159 | on the solenoid path the code as written and the corrected code agree |
| ElectricityMagnetism.StraightWireExample | core/electricity_magnetism.py:130-159 | I_wire = 10, r_wire = 0.05: as written this raises TypeError; corrected, B*2π*0.05 = μ0*10 with type 'straight_wire' |
| Electromagnetism.CheckAngle | core/electromagnetism.py:67-68 | a θ outside [0, 180] raises ValueError, and any other state is returned unchanged |
| Electromagnetism.AngleFromSine | core/electromagnetism.py:58-64 | θ = degrees(asin x), and an x outside [-1, 1] is reported as "Invalid combination" |
| Electromagnetism.LorentzGrows | core/electromagnetism.py:11-70 | the pass keeps every known value and writes only symbols of its dictionary |
| Electromagnetism.LorentzRules | core/electromagnetism.py:22-69 | the loop's `if` blocks as rules in source order, with no contract of their own; LorentzGrows, LorentzElectricFirst, LorentzMagnetic, LorentzCharge, LorentzVelocity and LorentzAngle specify them |
| Electromagnetism.SolveLorentzForce | core/electromagnetism.py:11-70 | the result keeps the arguments, holds only dictionary symbols, is a fixed point of the pass, and any θ in it lies in [0, 180] |
| Electromagnetism.LorentzForce | core/electromagnetism.py:11-70 | the method's loop returns exactly what the solver function does |
| Electromagnetism.WireGrows | core/electromagnetism.py:72-125 | the pass keeps every known value and writes only symbols of its dictionary |
| Electromagnetism.WireRules | core/electromagnetism.py:83-124 | the loop's `if` blocks as rules in source order, with no contract of their own; WireGrows, WireForce, WireCurrentLaw, WireLengthLaw and WireFieldLaw specify them |
| Electromagnetism.SolveForceOnWire | core/electromagnetism.py:72-125 | the result keeps the arguments, holds only dictionary symbols, is a fixed point of the pass, and any θ in it lies in [0, 180] |
| Electromagnetism.ForceOnWire | core/electromagnetism.py:72-125 | the method's loop returns exactly what the solver function does |
| Electromagnetism.ParallelGrows | core/electromagnetism.py:127-166 | the pass keeps every known value and writes only symbols of its dictionary |
| Electromagnetism.ParallelRules | core/electromagnetism.py:135-165 | the loop's `if` blocks as rules in source order, with no contract of their own; ParallelGrows, ParallelWiresForce and ParallelWiresSeparation specify them |
| Electromagnetism.SolveParallelWires | core/electromagnetism.py:127-166 | the result keeps the arguments, holds only dictionary symbols, and is a fixed point of the pass |
| Electromagnetism.ParallelWires | core/electromagnetism.py:127-166 | the method's loop returns exactly what the solver function does |
| Electromagnetism.EmfGrows | core/electromagnetism.py:168-249 | the pass keeps every known value and writes only symbols of its dictionary |
| Electromagnetism.EmfRules | core/electromagnetism.py:179-248 | the loop's `if` blocks as rules in source order, with no contract of their own; EmfGrows, FluxDefaultAngle, FaradayLaw, FluxChangeZeroTurns and FluxAngle specify them |
| Electromagnetism.SolveEmfInduction | core/electromagnetism.py:168-249 | the result keeps the arguments, holds only dictionary symbols, is a fixed point of the pass, and any θ in it lies in [0, 180] |
| Electromagnetism.EmfInduction | core/electromagnetism.py:168-249 | the method's loop returns exactly what the solver function does |
| Electromagnetism.TransformerGrows | core/electromagnetism.py:251-304 | the pass keeps every known value and writes only symbols of its dictionary |
| Electromagnetism.TransformerRules | core/electromagnetism.py:259-303 | the loop's `if` blocks as rules in source order, with no contract of their own; TransformerGrows, TransformerVoltageRatio, TransformerCurrentRatio and the TransformerPrimary* lemmas specify them |
| Electromagnetism.SolveTransformer | core/electromagnetism.py:251-304 | the result keeps the arguments, holds only dictionary symbols, and is a fixed point of the pass |
| Electromagnetism.Transformer | core/electromagnetism.py:251-304 | the method's loop returns exactly what the solver function does |
| Electromagnetism.TorqueGrows | core/electromagnetism.py:306-366 | the pass keeps every known value and writes only symbols of its dictionary |
| Electromagnetism.TorqueRules | core/electromagnetism.py:317-365 | the loop's `if` blocks as rules in source order, with no contract of their own; TorqueGrows, TorqueFormula, TorqueTurns, TorqueCurrent, TorqueArea and TorqueField specify them |
| Electromagnetism.SolveMotorTorque | core/electromagnetism.py:306-366 | the result keeps the arguments, holds only dictionary symbols, is a fixed point of the pass, and any θ in it lies in [0, 180] |
| Electromagnetism.MotorTorque | core/electromagnetism.py:306-366 | the method's loop returns exactly what the solver function does |
| Electromagnetism.LorentzElectricFirst | core/electromagnetism.py:26-33 | with q and E known, F = qE even when v, B and θ are known too |
| Electromagnetism.LorentzMagnetic | core/electromagnetism.py:31-33 | without E, F = qvB sin θ |
| Electromagnetism.LorentzCharge | core/electromagnetism.py:36-38 | q = F/E, and E = 0 escapes as ZeroDivisionError |
| Electromagnetism.LorentzVelocity | core/electromagnetism.py:44-49 | v = F/(qB sin θ), with the source's message when the divisor is zero |
| Electromagnetism.LorentzAngle | core/electromagnetism.py:58-64 | θ = degrees(asin(F/(qvB))); qvB = 0 raises ZeroDivisionError, and a sine outside [-1, 1] raises "Invalid combination" |
| Electromagnetism.WireForce | core/electromagnetism.py:87-89 | F = ILB sin θ |
| Electromagnetism.WireCurrentLaw | core/electromagnetism.py:92-97 | I = F/(LB sin θ), with the source's message when the divisor is zero |
| Electromagnetism.ParallelWiresForce | core/electromagnetism.py:139-143 | F/l = μ0 I1 I2/(2πr), and a separation that is not positive is refused before anything is divided |
| Electromagnetism.ParallelWiresSeparation | core/electromagnetism.py:158-164 | r = μ0 I1 I2/(2π F/l), computed only for non-zero currents and force per length |
| Electromagnetism.FluxDefaultAngle | core/electromagnetism.py:183-186 | without θ the flux is BA cos 0 |
| Electromagnetism.FaradayLaw | core/electromagnetism.py:189-193 | ε = -NΔΦ/Δt, for a positive Δt only |
| Electromagnetism.FluxChangeZeroTurns | core/electromagnetism.py:202-206 | ΔΦ checks Δt but divides by N, so zero turns raise ZeroDivisionError |
| Electromagnetism.EmfEarlierRulesKnown | core/electromagnetism.py:183-232 | with every other EMF quantity known, only the angle rule can fire |
| Electromagnetism.FluxAngle | core/electromagnetism.py:234-243 | θ = degrees(acos(Φ/(BA))), refused when BA = 0 or the cosine leaves [-1, 1] |
| Electromagnetism.TransformerVoltageRatio | core/electromagnetism.py:263-267 | V_s = V_p N_s/N_p; the rule checks N_s but divides by N_p, so a zero N_p raises ZeroDivisionError |
| Electromagnetism.TransformerCurrentRatio | core/electromagnetism.py:292-296 | I_s = I_p N_p/N_s, checked on N_p and divided by N_s |
| Electromagnetism.TorqueFormula | core/electromagnetism.py:321-323 | τ = nIAB sin θ |
| Electromagnetism.TorqueTurns | core/electromagnetism.py:326-331 | n = τ/(IAB sin θ), with the source's message when the divisor is zero |
| Electromagnetism.TorqueCurrent | core/electromagnetism.py:333-338 | I = τ/(nAB sin θ); a zero divisor raises "Cannot calculate current when n, A, B or sinθ is zero" |
| Electromagnetism.TorqueArea | core/electromagnetism.py:340-345 | A = τ/(nIB sin θ); a zero divisor raises "Cannot calculate area when n, I, B or sinθ is zero" |
| Electromagnetism.TorqueField | core/electromagnetism.py:347-352 | B = τ/(nIA sin θ); a zero divisor raises "Cannot calculate B when n, I, A or sinθ is zero" |
| Electromagnetism.WireLengthLaw | core/electromagnetism.py:99-104 | L = F/(IB sin θ); a zero divisor raises "Cannot calculate length when I, B or sinθ is zero" |
| Electromagnetism.WireFieldLaw | core/electromagnetism.py:106-111 | B = F/(IL sin θ); a zero divisor raises "Cannot calculate B when I, L or sinθ is zero" |
| Electromagnetism.TransformerPrimaryVoltage | core/electromagnetism.py:269-273 | V_p = V_s N_p/N_s; a non-positive N_p raises "Primary turns must be positive", and a zero N_s, which is not checked, raises ZeroDivisionError |
| Electromagnetism.TransformerPrimaryTurns | core/electromagnetism.py:283-289 | N_p = N_s V_p/V_s; a zero V_p and then a non-positive N_s are refused with their messages, and a zero V_s, which is not checked, raises ZeroDivisionError |
| Electromagnetism.TransformerPrimaryCurrent | core/electromagnetism.py:298-302 | in a problem without voltages, I_p = I_s N_s/N_p; a non-positive N_s is refused, and a zero N_p, which is not checked, raises ZeroDivisionError |
| AdvancedMechanics.EnterRadians | core/advanced_mechanics.py:22-23 | a θ above 2π is converted to radians, a smaller one is kept, and every other symbol is untouched |
| AdvancedMechanics.LeaveRadians | core/advanced_mechanics.py:75-76 | θ is converted to degrees, and every other symbol is untouched |
| AdvancedMechanics.InRadians | core/advanced_mechanics.py:75-76 | reading θ back in radians touches no other symbol |
| AdvancedMechanics.InRadiansLeaveRadians | core/advanced_mechanics.py:75-76 | reading the returned θ back in radians recovers the loop's own state |
| AdvancedMechanics.AngleComesBack | core/advanced_mechanics.py:22-23 | a given θ above 2π comes back as given; a smaller one comes back multiplied by 180/π |
| AdvancedMechanics.SolveWithAngle | core/advanced_mechanics.py:9-78 | every argument other than θ comes back as given, θ as AngleComesBack says, and the result with θ in radians is a fixed point of the pass |
| AdvancedMechanics.SolvedWithAngleEstablishes | core/advanced_mechanics.py:26-73 | every derived symbol satisfies the law of the rules that write it, with θ read in radians |
| AdvancedMechanics.ProjectileGrows | core/advanced_mechanics.py:26-72 | the projectile pass keeps every known value and writes only dictionary symbols |
| AdvancedMechanics.ProjectileRules | core/advanced_mechanics.py:26-72 | the loop's `if` blocks as rules in source order, with no contract of their own; ProjectileGrows and the Derived* and *LawEstablished lemmas specify them |
| AdvancedMechanics.SolveProjectileMotion | core/advanced_mechanics.py:9-78 | `solve_projectile_motion`, with no contract of its own: it is SolveWithAngle on the projectile pass, so SolveWithAngle's ensures hold of it; ProjectileClosed, the Derived* lemmas and NegativeHeightRaises specify it further |
| AdvancedMechanics.ProjectileMotion | core/advanced_mechanics.py:9-78 | the method, rewriting θ in place around the loop, returns what the solver function does |
| AdvancedMechanics.DerivedFlightTime | core/advanced_mechanics.py:47-72 | a derived flight time is 2uy/g, or range/ux for a non-zero ux |
| AdvancedMechanics.DerivedMaxHeight | core/advanced_mechanics.py:55-58 | a derived maximum height is uy^2/(2g) |
| AdvancedMechanics.DerivedRange | core/advanced_mechanics.py:63-66 | a derived range is ux * t_flight |
| AdvancedMechanics.DerivedHorizontalSpeed | core/advanced_mechanics.py:29-69 | a derived ux is u cos θ, or range/t_flight for a non-zero flight time |
| AdvancedMechanics.FlightTimeLawEstablished | core/advanced_mechanics.py:47-72 | every rule writing t_flight sets it to 2uy/g, or to range/ux for a non-zero ux |
| AdvancedMechanics.MaxHeightLawEstablished | core/advanced_mechanics.py:55-58 | the rule writing max_height sets it to uy^2/(2g) |
| AdvancedMechanics.RangeLawEstablished | core/advanced_mechanics.py:63-66 | the rule writing the range sets it to ux t_flight |
| AdvancedMechanics.HorizontalSpeedLawEstablished | core/advanced_mechanics.py:29-69 | every rule writing ux sets it to u cos θ, or to range/t_flight for a non-zero flight time |
| AdvancedMechanics.ProjectileFixedPointClosed | core/advanced_mechanics.py:29-72 | at a fixed point, known uy means t_flight and max_height are known, known ux and t_flight mean the range is known, and known u and θ mean both components are known |
| AdvancedMechanics.ProjectileClosed | core/advanced_mechanics.py:9-78 | the solver's result is closed under those three implications |
| AdvancedMechanics.NegativeHeightPass | core/advanced_mechanics.py:59-61 | a negative maximum height, with nothing giving uy first, makes the pass raise the square root's ValueError |
| AdvancedMechanics.NegativeHeightRaises | core/advanced_mechanics.py:9-78 | so solving from a negative max_height alone raises ValueError |
| AdvancedMechanics.CircularGrows | core/advanced_mechanics.py:91-143 | the circular pass keeps every known value and writes only dictionary symbols |
| AdvancedMechanics.CircularRules | core/advanced_mechanics.py:92-143 | the loop's `if` blocks as rules in source order, the ω elif included, with no contract of their own; CircularGrows, OmegaPrefersPeriod and the Derived* and *LawEstablished lemmas specify them |
| AdvancedMechanics.SolveCircularMotion | core/advanced_mechanics.py:80-145 | the result keeps the arguments, holds only dictionary symbols, and is a fixed point |
| AdvancedMechanics.CircularMotion | core/advanced_mechanics.py:80-145 | the method's loop returns what the solver function does |
| AdvancedMechanics.OmegaPrefersPeriod | core/advanced_mechanics.py:96-99 | ω = 2π/T from a non-zero T, in preference to f |
| AdvancedMechanics.OmegaFromFrequencyOtherwise | core/advanced_mechanics.py:100-102 | without a non-zero T, ω = 2πf |
| AdvancedMechanics.DerivedCentripetal | core/advanced_mechanics.py:123-143 | a derived a_c is v^2/r for a non-zero r, or F_c/m for a non-zero m |
| AdvancedMechanics.DerivedCentripetalForce | core/advanced_mechanics.py:133-137 | a derived F_c is m a_c |
| AdvancedMechanics.DerivedPeriod | core/advanced_mechanics.py:104-107 | a derived T is 2π/ω for a non-zero ω |
| AdvancedMechanics.DerivedFrequency | core/advanced_mechanics.py:108-110 | a derived f is 1/T for a non-zero T |
| AdvancedMechanics.CentripetalLawEstablished | core/advanced_mechanics.py:123-143 | every rule writing a_c sets it to v^2/r for a non-zero r, or to F_c/m for a non-zero m |
| AdvancedMechanics.CentripetalForceLawEstablished | core/advanced_mechanics.py:133-137 | the rule writing F_c sets it to m a_c |
| AdvancedMechanics.PeriodLawEstablished | core/advanced_mechanics.py:104-107 | the rule writing T sets it to 2π/ω for a non-zero ω |
| AdvancedMechanics.FrequencyLawEstablished | core/advanced_mechanics.py:108-110 | the rule writing f sets it to 1/T for a non-zero T |
| AdvancedMechanics.CircularSkipsToCentripetalSpeed | core/advanced_mechanics.py:96-129 | with v, ω, T and f unknown and a_c and r known, no rule before v = sqrt(a_c r) fires |
| AdvancedMechanics.CentripetalSpeedRaises | core/advanced_mechanics.py:127-129 | v = sqrt(a_c r) raises ValueError for a negative a_c r when v cannot come from ω first |
| AdvancedMechanics.BankedGrows | core/advanced_mechanics.py:162-219 | the banked-track pass keeps every known value and writes only dictionary symbols |
| AdvancedMechanics.BankedRules | core/advanced_mechanics.py:163-219 | the loop's `if` blocks as rules in source order, with no contract of their own; BankedGrows, FrictionPrefersMinSpeed and the Derived* and *LawEstablished lemmas specify them |
| AdvancedMechanics.SolveBankedTracks | core/advanced_mechanics.py:147-225 | `solve_banked_tracks`, with no contract of its own: it is SolveWithAngle on the banked-track pass, so SolveWithAngle's ensures hold of it; DerivedFriction, DerivedMinSpeed and DerivedMaxSpeed specify it further |
| AdvancedMechanics.BankedTracks | core/advanced_mechanics.py:147-225 | the method, rewriting θ in place around the loop, returns what the solver function does |
| AdvancedMechanics.SpeedsAgree | core/advanced_mechanics.py:180-196 | v_min and v_max depend only on θ, r and μ, so any extension of the state computes the same ones |
| AdvancedMechanics.FrictionAgrees | core/advanced_mechanics.py:199-219 | the reverse calculations for μ depend only on θ, r and the speeds, so any extension computes the same ones |
| AdvancedMechanics.DerivedFriction | core/advanced_mechanics.py:199-219 | a derived μ is never negative, and is the reverse calculation from v_min or from v_max; the v_min-first order within a pass is FrictionPrefersMinSpeed |
| AdvancedMechanics.DerivedMinSpeed | core/advanced_mechanics.py:180-188 | a derived v_min exists only for a positive numerator and non-zero denominator, and is sqrt(gr(tanθ - μ)/(1 + μ tanθ)) |
| AdvancedMechanics.DerivedMaxSpeed | core/advanced_mechanics.py:189-196 | a derived v_max is sqrt(gr(tanθ + μ)/(1 - μ tanθ)) under the same conditions |
| AdvancedMechanics.FrictionPrefersMinSpeed | core/advanced_mechanics.py:199-219 | within one pass, when θ, r and v_min are known, μ is unset and the reverse calculation from v_min is acceptable, μ comes from v_min, whether or not v_max is known and whether or not v is derived first |
| AdvancedMechanics.FrictionLawEstablished | core/advanced_mechanics.py:199-219 | every rule writing μ sets it to a non-negative reverse calculation from v_min or v_max |
| AdvancedMechanics.MinSpeedLawEstablished | core/advanced_mechanics.py:180-188 | the rule writing v_min sets it to sqrt(gr(tanθ - μ)/(1 + μ tanθ)) for a positive numerator and non-zero denominator |
| AdvancedMechanics.MaxSpeedLawEstablished | core/advanced_mechanics.py:189-196 | the rule writing v_max sets it to sqrt(gr(tanθ + μ)/(1 - μ tanθ)) under the same conditions |
| AdvancedMechanics.GravitationGrows | core/advanced_mechanics.py:240-297 | the gravitation pass keeps every known value and writes only dictionary symbols |
| AdvancedMechanics.GravitationRules | core/advanced_mechanics.py:241-297 | the loop's `if` blocks as rules in source order, with no contract of their own; GravitationGrows, OrbitalPeriodUnguarded and the Derived* and *LawEstablished lemmas specify them |
| AdvancedMechanics.SolveGravitation | core/advanced_mechanics.py:227-299 | the result keeps the arguments, holds only dictionary symbols, and is a fixed point |
| AdvancedMechanics.GravitationMotion | core/advanced_mechanics.py:227-299 | the method's loop returns what the solver function does |
| AdvancedMechanics.AltitudeFromRadius | core/advanced_mechanics.py:292-294 | a derived altitude is r minus the Earth's radius, 6.371e6 m |
| AdvancedMechanics.DerivedFieldStrength | core/advanced_mechanics.py:259-261 | a derived g is GM/r^2 for a non-zero r |
| AdvancedMechanics.AltitudeLawEstablished | core/advanced_mechanics.py:292-294 | the rule writing the altitude sets it to r minus the Earth's radius |
| AdvancedMechanics.FieldStrengthLawEstablished | core/advanced_mechanics.py:259-261 | the rule writing g sets it to a value with g r^2 = GM, for a non-zero r |
| AdvancedMechanics.RadiusFromAltitude | core/advanced_mechanics.py:295-297 | with r unknown and an altitude known, and no earlier rule able to give r, the pass sets r = altitude + 6.371e6 m |
| AdvancedMechanics.GravitationSkipsToRadius | core/advanced_mechanics.py:244-294 | with r, M, g and v_orbital unknown, no rule before r = altitude + R_earth fires |
| AdvancedMechanics.OrbitalPeriodUnguarded | core/advanced_mechanics.py:281-283 | T = 2πr/v_orbital has no guard on v_orbital, so a zero orbital speed makes the pass raise |
| AdvancedMechanics.ZeroOrbitalSpeedRaises | core/advanced_mechanics.py:227-299 | so does the whole solver when given v_orbital = 0 and r |
| AdvancedMechanics.GravitationSkipsToSpeedFromPeriod | core/advanced_mechanics.py:244-283 | with M, F_g, g and v_orbital unknown and T and r known, no rule before v_orbital = 2πr/T fires |
| AdvancedMechanics.ZeroPeriodRaises | core/advanced_mechanics.py:284-286 | v_orbital = 2πr/T checks r, not T, so a zero period raises ZeroDivisionError |
| Waves.WithMedium | core/waves.py:100-102 | v_medium is always present afterwards, 343 when it was unset, and nothing else changes |
| Waves.ObservedFrequency | core/waves.py:112-130 | the Doppler rules keep every known value and may add f_observed only |
| Waves.SourceSpeed | core/waves.py:132-140 | the reverse rule either changes nothing or writes v_source, unset in the snapshot, and nothing else |
| Waves.ObserverSpeed | core/waves.py:142-150 | likewise for v_observer |
| Waves.SoundPass | core/waves.py:95-152 | the sound pass keeps every known value and adds at most v_medium, f_observed, v_source and v_observer |
| Waves.WaveRulesGrow | core/waves.py:46-93 | the wave pass keeps every known value |
| Waves.WaveRules | core/waves.py:46-93 | `_solve_wave_properties`'s blocks as rules in source order, with no contract of their own; WaveRulesGrow and the Derived* and *LawEstablished lemmas specify them |
| Waves.LightRulesGrow | core/waves.py:154-196 | the light pass keeps every known value |
| Waves.LightRules | core/waves.py:154-196 | `_solve_light_properties`'s blocks as rules in source order, with no contract of their own; LightRulesGrow, SnellsLaw, DerivedRefractedAngle, DerivedIncidentAngle, DerivedIntensity and DerivedIncidentIntensity specify them |
| Waves.WaveGrows | core/waves.py:36-41 | whatever the category, the pass keeps every known value and writes only dictionary symbols |
| Waves.CategoryPass | core/waves.py:36-41 | the category dispatch, with no contract of its own: only the method named after the category runs, and an unknown category runs nothing; WaveGrows and UnknownCategoryKeepsArguments specify it |
| Waves.SolveWaves | core/waves.py:17-44 | the result keeps the recognised arguments, holds only dictionary symbols, and is a fixed point |
| Waves.WaveSolver.constructor | core/waves.py:5-15 | a new solver has an empty dictionary |
| Waves.WaveSolver.ApplyRules | core/waves.py:46-93 | the `if` blocks update `solutions` in place as the pure pass does and report whether they wrote |
| Waves.WaveSolver.WaveProperties | core/waves.py:46-93 | `_solve_wave_properties` leaves `solutions` as the wave pass does |
| Waves.WaveSolver.LightProperties | core/waves.py:154-196 | `_solve_light_properties` likewise |
| Waves.WaveSolver.SoundWaves | core/waves.py:95-152 | `_solve_sound_waves` likewise, with its snapshot locals |
| Waves.WaveSolver.Solve | core/waves.py:17-44 | reset, seed and loop leave the object at the pure solver's fixed point and return its set entries |
| Waves.DerivedWaveSpeed | core/waves.py:51-54 | a derived wave speed is λf |
| Waves.DerivedPeriod | core/waves.py:67-69 | a derived period is 1/f |
| Waves.SpeedLawEstablished | core/waves.py:51-54 | the only rule writing v sets it to λf |
| Waves.PeriodLawEstablished | core/waves.py:67-69 | the rule writing T sets it to 1/f for a non-zero f |
| Waves.WavelengthLawEstablished | core/waves.py:56-91 | both rules writing λ give λf = v or λk = 2π |
| Waves.FrequencyLawEstablished | core/waves.py:61-82 | the three rules writing f give fλ = v, fT = 1 or 2πf = ω |
| Waves.AngularFrequencyLawEstablished | core/waves.py:76-78 | the rule writing ω sets it to 2πf |
| Waves.WavenumberLawEstablished | core/waves.py:85-87 | the rule writing k gives kλ = 2π |
| Waves.DerivedWavelength | core/waves.py:56-91 | a wavelength the solver derives satisfies λf = v or λk = 2π with the returned values |
| Waves.DerivedFrequency | core/waves.py:61-82 | a frequency the solver derives satisfies fλ = v, fT = 1 or 2πf = ω |
| Waves.DerivedAngularFrequency | core/waves.py:76-78 | an angular frequency the solver derives is 2πf |
| Waves.DerivedWavenumber | core/waves.py:85-87 | a wavenumber the solver derives satisfies kλ = 2π |
| Waves.ZeroFrequencyRaises | core/waves.py:56-59 | λ = v/f is unguarded, so v and f = 0 raise ZeroDivisionError |
| Waves.UnknownCategoryKeepsArguments | core/waves.py:36-44 | a category with no rule set returns the recognised arguments |
| Waves.SoundHasMedium | core/waves.py:100-102 | every sound result holds v_medium |
| Waves.SoundPassKeepsDefault | core/waves.py:100-102 | a sound pass keeps v_medium at 343 once it is |
| Waves.SoundMediumDefault | core/waves.py:100-102 | without a given v_medium, the sound result has v_medium = 343 |
| Waves.DopplerPrefersSource | core/waves.py:116-118 | a source approaching head-on gives f' = v/(v - v_s) f, and v = v_s raises ZeroDivisionError |
| Waves.DopplerObserver | core/waves.py:121-123 | otherwise an observer approaching head-on gives f' = (v + v_o)/v f |
| Waves.DopplerAngledSource | core/waves.py:125-130 | otherwise a source moving at a non-zero angle gives f' = v/(v - v_s cos θ_s) f, and a zero denominator raises ZeroDivisionError |
| Waves.ObserverSpeedWrites | core/waves.py:145-150 | a plausible head-on observer speed is written |
| Waves.ReverseSourceBound | core/waves.py:133-140 | a v_source derived by a pass is below 1.5 v_medium |
| Waves.ReverseObserverBound | core/waves.py:143-150 | the same for v_observer |
| Waves.SourceSpeedBound | core/waves.py:133-140 | a v_source the reverse rule writes is the candidate computed from the snapshot, with f_observed non-zero, and is below 1.5 v_medium |
| Waves.ObserverSpeedBound | core/waves.py:143-150 | likewise for v_observer, with f_source non-zero |
| Waves.SnapshotDelay | core/waves.py:104-110 | the reverse rules read the snapshot, so a pass that starts without f_observed derives neither v_source nor v_observer |
| Waves.ObserverSpeedNextPass | core/waves.py:143-150 | on the next pass, with f_observed known, a plausible head-on observer speed is derived |
| Waves.SolvedReverseDopplerBound | core/waves.py:17-44 | a v_source or v_observer the solver derives is below 1.5 v_medium |
| Waves.SnellsLaw | core/waves.py:159-168 | θ2 = degrees(asin(n1 sin θ1/n2)) when that sine is at most 1 in size, no θ2 otherwise, and a zero n2 raises ZeroDivisionError |
| Waves.TotalInternalReflection | core/waves.py:159-168 | n1 = 1.5, n2 = 1.0, θ1 = 50°: total internal reflection, so no θ2 |
| Waves.ReflectionPass | core/waves.py:159-168 | with a sine above 1, the light pass on n1 = 1.5, n2 = 1.0, θ1 = 50° derives nothing |
| Waves.DerivedIntensity | core/waves.py:182-194 | a derived transmitted intensity is I1 n2/n1 |
| Waves.IntensityLawEstablished | core/waves.py:182-187 | the rule writing I2 sets it to I1 n2/n1 for a non-zero n1 |
| Waves.IncidentIntensityLawEstablished | core/waves.py:189-194 | the rule writing I1 sets it to I2 n1/n2 for a non-zero n2 |
| Waves.DerivedIncidentIntensity | core/waves.py:189-194 | an incident intensity the solver derives is I2 n1/n2 |
| Waves.DerivedRefractedAngle | core/waves.py:158-168 | a refracted angle θ2 the light solver derives (not one the caller passed) has n2 non-zero, n1 sin θ1/n2 in [-1, 1], and is degrees(asin(n1 sin θ1/n2)) |
| Waves.DerivedIncidentAngle | core/waves.py:170-179 | an incident angle θ1 the light solver derives (not one the caller passed) has n1 non-zero, n2 sin θ2/n1 in [-1, 1], and is degrees(asin(n2 sin θ2/n1)) |
| Waves.RefractedAngleLawEstablished | core/waves.py:158-168 | the rule that writes θ2 writes only a value obeying Snell's law with n2 non-zero and the sine in [-1, 1] |
| Waves.IncidentAngleLawEstablished | core/waves.py:170-179 | the rule that writes θ1 writes only a value obeying Snell's law read backwards, with n1 non-zero and the sine in [-1, 1] |
| PhysicsInterpreter.UnitConversion | core/physics_ai/physics_interpreter.py:17-41 | every listed unit has a positive factor to SI |
| PhysicsInterpreter.Factor | core/physics_ai/physics_interpreter.py:92 | the factor is positive, and 1 for a unit the table does not list |
| PhysicsInterpreter.ToSI | core/physics_ai/physics_interpreter.py:90-92 | conversion keeps the sign of the value and maps only 0 to 0 |
| PhysicsInterpreter.Kilometres | core/physics_ai/physics_interpreter.py:17-41 | "km" scales by 1000, but "KM" is a different, unlisted unit and is left unscaled |
| PhysicsInterpreter.UnscaledPatternUnits | core/physics_ai/physics_interpreter.py:44-78 | kHz, MHz, nm, μm, kW, MW, deg and rpm, which the patterns accept, are not in the table and are left unscaled |
| PhysicsInterpreter.ExtractVariables | core/physics_ai/physics_interpreter.py:80-99 | the scan loop returns exactly the extraction's result: the variables, or every failure after the last match |
| PhysicsInterpreter.AssignedNames | core/physics_ai/physics_interpreter.py:85-93 | a name is extracted exactly when some match for it parsed |
| PhysicsInterpreter.LastMatchWins | core/physics_ai/physics_interpreter.py:93 | the last parsed match for a name decides its value |
| PhysicsInterpreter.FailuresConcat | core/physics_ai/physics_interpreter.py:94-95 | scanning continues after a failure: the report of two scans is the two reports in order |
| PhysicsInterpreter.EveryFailureReported | core/physics_ai/physics_interpreter.py:94-98 | every failing match is reported, not only the first |
| PhysicsInterpreter.ExtractionFails | core/physics_ai/physics_interpreter.py:97-99 | extraction fails exactly when some match fails; with NoFailures, the specification of `Extracted` |
| PhysicsInterpreter.NoFailures | core/physics_ai/physics_interpreter.py:97-99 | with no failing match the variables are returned |
| PhysicsInterpreter.Extracted | core/physics_ai/physics_interpreter.py:94-99 | the end of `extract_variables`, with no contract of its own; ExtractionFails, NoFailures and EveryFailureReported specify it |
| PhysicsInterpreter.LowerChar | core/physics_ai/physics_interpreter.py:103 | a capital letter becomes the small letter at the same place in the alphabet, and every other character is unchanged |
| PhysicsInterpreter.UpperChar | core/physics_ai/physics_interpreter.py:103 | a small letter becomes the capital at the same place in the alphabet, and every other character is unchanged |
| PhysicsInterpreter.CaseRoundTrip | core/physics_ai/physics_interpreter.py:103 | raising a lowered capital, or lowering a raised small letter, gives the letter back |
| PhysicsInterpreter.Lower | core/physics_ai/physics_interpreter.py:103 | lower-casing keeps the length and maps each character as LowerChar does |
| PhysicsInterpreter.Upper | core/physics_ai/physics_interpreter.py:103 | upper-casing keeps the length and maps each character as UpperChar does |
| PhysicsInterpreter.OccursInTail | core/physics_ai/physics_interpreter.py:107 | an occurrence in the tail is an occurrence one position further on, and back |
| PhysicsInterpreter.ContainsOccurs | core/physics_ai/physics_interpreter.py:107 | the substring test `kw in text` holds exactly when kw occurs at some position |
| PhysicsInterpreter.MatchesMentions | core/physics_ai/physics_interpreter.py:107 | a domain's test holds exactly when the lower-cased text contains one of its keywords or a variable of the domain was extracted |
| PhysicsInterpreter.DomainsMentioned | core/physics_ai/physics_interpreter.py:105-133 | this holds for each of the six domains |
| PhysicsInterpreter.ClassificationPriority | core/physics_ai/physics_interpreter.py:101-135 | the result is a domain exactly when the question mentions it and no domain earlier in priority order; with UnknownIffNoMention, the specification of `IdentifyProblemType` |
| PhysicsInterpreter.MentionFlags | core/physics_ai/physics_interpreter.py:105-133 | entry j says whether the question mentions the j-th domain in priority order |
| PhysicsInterpreter.IdentifyIsFirstMentioned | core/physics_ai/physics_interpreter.py:101-135 | `IdentifyProblemType` returns the first domain, in priority order, that the question mentions |
| PhysicsInterpreter.IdentifyProblemType | core/physics_ai/physics_interpreter.py:101-135 | `identify_problem_type`, with no contract of its own; IdentifyIsFirstMentioned, ClassificationPriority, UnknownIffNoMention and CaseInsensitive specify it |
| PhysicsInterpreter.FirstMentionedAt | core/physics_ai/physics_interpreter.py:105-133 | the first true entry of the mention list is at k exactly when k is true and nothing before is |
| PhysicsInterpreter.UnknownIffNoMention | core/physics_ai/physics_interpreter.py:135 | the result is UNKNOWN exactly when no domain is mentioned |
| PhysicsInterpreter.LowerUpper | core/physics_ai/physics_interpreter.py:103 | lower-casing the upper-cased text gives the lower-cased text |
| PhysicsInterpreter.CaseInsensitive | core/physics_ai/physics_interpreter.py:103 | the same question in capitals is classified the same |
| Signup.StripLeadingCut | ui/signup_dialog.py:100-101 | leading stripping cuts a whitespace prefix and stops at a character that is not whitespace |
| Signup.Strip | ui/signup_dialog.py:100-101 | `str.strip()`, with no contract of its own; StripLeadingCut, StripTrailingCut, StripCut and BlankStripsToEmpty specify it |
| Signup.StripTrailingCut | ui/signup_dialog.py:100-101 | trailing stripping cuts a whitespace suffix and stops at a character that is not whitespace |
| Signup.StripCut | ui/signup_dialog.py:100-101 | `strip()` leaves the middle piece, with only whitespace cut and none at either end |
| Signup.BlankStripsToEmpty | ui/signup_dialog.py:100-106 | a field of only whitespace strips to the empty string |
| Signup.IndexOf | ui/signup_dialog.py:112 | the first position of a character, or the length when it does not occur |
| Signup.ValidUsername | ui/signup_dialog.py:108 | 3 or more characters, each a letter, digit, _ or .; it has no contract of its own, and SignupAccepted and FirstFailureShown state its role |
| Signup.ValidEmail | ui/signup_dialog.py:112 | the matcher for the email pattern, with no contract of its own; EmailMatcher proves it accepts exactly the pattern's language |
| Signup.StrongPassword | ui/signup_dialog.py:116-121 | 8 or more characters, among them a small letter, a capital, a digit and a symbol; it has no contract of its own, and SignupAccepted and FirstFailureShown state its role |
| Signup.HandleSignup | ui/signup_dialog.py:99-123 | only one of the four messages is ever shown; an accepted sign-up hands over the stripped username and email and the password as typed, none of them empty; SignupAccepted and FirstFailureShown say which outcome each input gets |
| Signup.EmailMatcher | ui/signup_dialog.py:112 | the matcher accepts exactly local@label.tail with the pattern's character classes; this is the specification of `ValidEmail` |
| Signup.SignupAccepted | ui/signup_dialog.py:99-126 | `HandleSignup` creates the account exactly when every check passes, with the stripped username and email and the unstripped password; `ValidUsername` (3 or more of a-z, A-Z, 0-9, _ and .) and `StrongPassword` (8 or more, with a small letter, a capital, a digit and a symbol) are the checks |
| Signup.FirstFailureShown | ui/signup_dialog.py:104-123 | each message is shown exactly when its check fails and every earlier check passed; with SignupAccepted, the specification of `HandleSignup` |
| Signup.BlankUsernameMissing | ui/signup_dialog.py:100-106 | a username of only spaces is reported as missing, not as too short |
| Signup.EmailAccepted | ui/signup_dialog.py:112 | dots and plus signs in the local part, hyphens in the label and further dots after the first are accepted |
| Signup.EmailWithoutDot | ui/signup_dialog.py:112 | a domain with no dot is refused |
| Signup.EmailEmptyParts | ui/signup_dialog.py:112 | an empty label or an empty tail is refused |

## Left out

- Floating point: values are exact reals, so rounding, overflow to `inf` and `nan` are not modelled.
- Transcendental functions (sin, cos, tan, asin, acos, atan, atan2, sqrt) are parameters; the lemmas state what they need about them as hypotheses.
- Kinematics.PowHalf: `x ** 0.5` on a negative float gives a Python complex number that the loop would carry on with; the model stops with a ComplexValue error instead.
- The kinematics division t = 2s/(u + v) with u + v = 0 is not modelled as an error path, because Kinematics.DeadBranches shows that branch is never taken.
- The θ above 2π heuristic of the projectile and banked-track solvers is modelled as written; no lemma says which unit the caller meant.
- `speed_of_light` in core/waves.py is never read by a rule and is not modelled.
- The EM solver's 'type' entry is a caller-supplied string carried alongside the real values, not a real itself.
- Regular-expression scanning in extract_variables is given as the sequence of matches it produces; the `str(e)` detail of the error line is left out, and the `float()` failure path is modelled though the number pattern cannot produce it.
- PhysicsInterpreter.UnitConversion looks a unit up case-sensitively, as the source does, although the scan itself ignores case.
- Unicode: `strip`, `lower`, `islower`, `isupper` and `isdigit` are modelled on ASCII letters and digits and the ASCII whitespace set.
- Signup: the two-factor sign-up, QR code and database calls after validation (ui/signup_dialog.py:125 on) are outside the model; HandleSignup returns the values they would receive.
- The dynamics solver, the AI parsers, the orchestrator, the UI tabs, authentication and the database are not part of this model.

## Findings

| source | as written | input that shows it | evidently intended | confidence | as-written member | corrected member |
|---|---|---|---|---|---|---|
| core/electricity_magnetism.py:159 | `return changed` is indented inside the solenoid `elif`, so `_solve_magnetism` returns None on every other path, and `changed \|= None` raises TypeError | `solve_magnetism(I_wire=10, r_wire=0.05)` | `return changed` at the end of the method, so a straight wire gives B = μ0 I/(2πr) | not executed | ElectricityMagnetism.MagnetismAsWrittenRaises | ElectricityMagnetism.EMSolver.Magnetism |
