/** The knowns map every solver works on, and the fixed-point loop they share.

    A solver's dictionary maps each of its symbol names to a number or None.
    Here a `State` holds only the entries that are set: a key absent from the
    map is a symbol whose value is None.  A solver's rules only ever write a
    symbol that is still unset, so a pass either adds keys or leaves the state
    as it was, and "a pass changed something" is "the state after the pass
    differs from the state before". */
module Knowns {
  import opened Outcomes

  type State = map<string, real>

  /** The seeding loop `for k, v in kwargs.items(): if k in solutions:
      solutions[k] = v`: recognised names are copied, others dropped, and an
      argument passed as None stays unset. */
  function Seed(schema: set<string>, kwargs: map<string, Option<real>>): (s: State)
    ensures s.Keys <= schema
    ensures forall k :: k in s <==> k in schema && k in kwargs && kwargs[k].Some?
    ensures forall k :: k in s ==> s[k] == kwargs[k].value
  {
    map k | k in kwargs && k in schema && kwargs[k].Some? :: kwargs[k].value
  }

  /** The value of k in s.  Rules read it only after their guard has checked
      that k is set; the 0.0 for an unset k is never used. */
  function At(s: State, k: string): real
  {
    if k in s then s[k] else 0.0
  }

  /** A guarded rule that cannot raise: `if s[target] is None and all(s[k] is
      not None for k in inputs): s[target] = x`. */
  function Derive(s: State, target: string, inputs: set<string>, x: real): (r: State)
    ensures Extends(s, r) && r.Keys <= s.Keys + {target}
    ensures target !in s && inputs <= s.Keys ==> r == s[target := x]
    ensures !(target !in s && inputs <= s.Keys) ==> r == s
  {
    if target !in s && inputs <= s.Keys then s[target := x] else s
  }

  /** A guarded rule whose computation x may raise: the exception propagates
      only when the guard holds. */
  function DeriveOrRaise(s: State, target: string, inputs: set<string>, x: Result<real>): (r: Result<State>)
    ensures r.Ok? ==> Extends(s, r.value) && r.value.Keys <= s.Keys + {target}
    ensures target !in s && inputs <= s.Keys ==> r == Store(s, target, x)
    ensures !(target !in s && inputs <= s.Keys) ==> r == Ok(s)
  {
    if target !in s && inputs <= s.Keys then Store(s, target, x) else Ok(s)
  }

  /** `s[k] = x` where computing x may raise. */
  function Store(s: State, k: string, x: Result<real>): (r: Result<State>)
    ensures r.Ok? <==> x.Ok?
    ensures r.Ok? ==> r.value == s[k := x.value]
    ensures r.Err? ==> r.error == x.error
  {
    var v :- x;
    Ok(s[k := v])
  }

  /** t keeps every entry of s with its value: nothing set is overwritten. */
  ghost predicate Extends(s: State, t: State)
  {
    s.Keys <= t.Keys && forall k :: k in s ==> t[k] == s[k]
  }

  /** Map extensionality, stated once: two states with the same entries are
      equal.  The class methods below call it where the solver does not find
      the equality by itself. */
  lemma SameEntries(a: State, b: State)
    requires a.Keys == b.Keys && forall k :: k in a ==> a[k] == b[k]
    ensures a == b
  {
  }

  /** Along a chain of extensions, the end differs from the start exactly
      when some step changed something. */
  lemma ChainChanged(a: State, b: State, c: State)
    requires Extends(a, b) && Extends(b, c)
    ensures (c != a) == (b != a || c != b)
  {
    if b != a && c == a {
      SameEntries(a, b);
    }
  }

  lemma ExtendsTransitive(s: State, t: State, u: State)
    requires Extends(s, t) && Extends(t, u)
    ensures Extends(s, u)
  {
  }

  /** A pass that is well formed for its schema: from a state over the schema it
      only adds entries, and only entries of the schema. */
  ghost predicate Grows(pass: State -> Result<State>, schema: set<string>)
  {
    forall s: State :: s.Keys <= schema && pass(s).Ok? ==>
      Extends(s, pass(s).value) && pass(s).value.Keys <= schema
  }

  /** One guarded assignment of a solver pass: when `target` is unset, every
      symbol of `inputs` is set and `when` holds, `target` is set to
      `value`, whose computation may raise. */
  datatype Rule = Rule(target: string, inputs: set<string>, when: State -> bool, value: State -> Result<real>)

  /** A rule with no condition beyond its inputs being set. */
  function Plain(target: string, inputs: set<string>, value: State -> Result<real>): (r: Rule)
    ensures r.target == target && r.inputs == inputs && r.value == value
    ensures forall s :: r.when(s)
  {
    Rule(target, inputs, s => true, value)
  }

  /** One `if` block of a pass. */
  function Fire(rule: Rule, s: State): (r: Result<State>)
    ensures r.Ok? ==> Extends(s, r.value) && r.value.Keys <= s.Keys + {rule.target}
    ensures rule.target in s ==> r == Ok(s)
    ensures rule.target !in s && rule.inputs <= s.Keys && rule.when(s) ==> r == Store(s, rule.target, rule.value(s))
    ensures !(rule.inputs <= s.Keys && rule.when(s)) ==> r == Ok(s)
  {
    if rule.when(s) then DeriveOrRaise(s, rule.target, rule.inputs, rule.value(s)) else Ok(s)
  }

  ghost predicate WritesWithin(rules: seq<Rule>, schema: set<string>)
  {
    forall i :: 0 <= i < |rules| ==> rules[i].target in schema
  }

  /** A pass: the rules in source order, each seeing what the earlier ones
      set, stopping at the first that raises. */
  function RunRules(rules: seq<Rule>, s: State): (r: Result<State>)
    ensures r.Ok? ==> Extends(s, r.value)
    decreases |rules|
  {
    if rules == [] then Ok(s)
    else
      var t :- Fire(rules[0], s);
      RunRules(rules[1..], t)
  }

  /** A pass built from rules that write only symbols of the schema is well
      formed for it. */
  lemma RulesGrow(rules: seq<Rule>, schema: set<string>)
    requires WritesWithin(rules, schema)
    ensures Grows(s => RunRules(rules, s), schema)
  {
    forall s: State | s.Keys <= schema && RunRules(rules, s).Ok?
      ensures RunRules(rules, s).value.Keys <= schema
    {
      RunRulesWithin(rules, schema, s);
    }
  }

  lemma {:induction false} RunRulesWithin(rules: seq<Rule>, schema: set<string>, s: State)
    requires WritesWithin(rules, schema) && s.Keys <= schema
    ensures RunRules(rules, s).Ok? ==> RunRules(rules, s).value.Keys <= schema
    decreases |rules|
  {
    if rules != [] && Fire(rules[0], s).Ok? {
      assert WritesWithin(rules[1..], schema);
      RunRulesWithin(rules[1..], schema, Fire(rules[0], s).value);
    }
  }

  /** Rules that leave the state alone can be skipped: when none of the
      first k rules fires, the pass is the pass of the remaining rules. */
  lemma {:induction false} SkipRules(rules: seq<Rule>, k: nat, s: State)
    requires k <= |rules|
    requires forall j :: 0 <= j < k ==> Fire(rules[j], s) == Ok(s)
    ensures RunRules(rules, s) == RunRules(rules[k..], s)
  {
    if k > 0 {
      assert rules[1..][k - 1..] == rules[k..];
      SkipRules(rules[1..], k - 1, s);
    }
  }

  /** When every rule but the last leaves the state alone, the pass is the
      last rule. */
  lemma LastRule(rules: seq<Rule>, s: State)
    requires |rules| > 0
    requires forall j :: 0 <= j < |rules| - 1 ==> Fire(rules[j], s) == Ok(s)
    ensures RunRules(rules, s) == Fire(rules[|rules| - 1], s)
  {
    SkipRules(rules, |rules| - 1, s);
    assert rules[|rules| - 1..] == [rules[|rules| - 1]];
  }

  /** When only the last rule of a pass can fire and its inputs are set,
      the pass stores that rule's value under its target. */
  lemma LastRuleStores(rules: seq<Rule>, s: State)
    requires |rules| > 0
    requires forall j :: 0 <= j < |rules| - 1 ==> Fire(rules[j], s) == Ok(s)
    requires var last := rules[|rules| - 1]; last.target !in s && last.inputs <= s.Keys && last.when(s)
    ensures var last := rules[|rules| - 1]; RunRules(rules, s) == Store(s, last.target, last.value(s))
  {
    LastRule(rules, s);
  }

  /** What rule k contributes when none of the rules before it fires: its
      error is the pass's error, and what it sets survives the rest of the
      pass. */
  lemma RuleAt(rules: seq<Rule>, k: nat, s: State)
    requires k < |rules|
    requires forall j :: 0 <= j < k ==> Fire(rules[j], s) == Ok(s)
    ensures Fire(rules[k], s).Err? ==> RunRules(rules, s) == Fire(rules[k], s)
    ensures RunRules(rules, s).Ok? ==>
      Fire(rules[k], s).Ok? && Extends(Fire(rules[k], s).value, RunRules(rules, s).value)
  {
    SkipRules(rules, k, s);
    assert rules[k..][0] == rules[k];
    assert rules[k..][1..] == rules[k + 1..];
  }

  /** Rule k applies first: when none of the rules before it fires and rule
      k's target is unset, its inputs set and its condition true, the pass
      raises what rule k's computation raises, and otherwise ends with rule
      k's value in its target. */
  lemma RuleValue(rules: seq<Rule>, k: nat, s: State)
    requires k < |rules|
    requires forall j :: 0 <= j < k ==> Fire(rules[j], s) == Ok(s)
    requires rules[k].target !in s && rules[k].inputs <= s.Keys && rules[k].when(s)
    ensures rules[k].value(s).Err? ==> RunRules(rules, s) == Err(rules[k].value(s).error)
    ensures RunRules(rules, s).Ok? ==>
      && rules[k].value(s).Ok?
      && rules[k].target in RunRules(rules, s).value
      && RunRules(rules, s).value[rules[k].target] == rules[k].value(s).value
  {
    RuleAt(rules, k, s);
  }

  /** A rule that raises in every state the pass can reach before it makes
      the pass raise: no earlier rule writes its target, and in every
      extension of the entry state its inputs are set, its condition holds
      and its computation raises. */
  lemma {:induction false} RuleRaises(rules: seq<Rule>, k: nat, s: State)
    requires k < |rules| && rules[k].target !in s
    requires forall j :: 0 <= j < k ==> rules[j].target != rules[k].target
    requires forall t :: Extends(s, t) ==> rules[k].inputs <= t.Keys && rules[k].when(t) && rules[k].value(t).Err?
    ensures RunRules(rules, s).Err?
    decreases k
  {
    assert Extends(s, s);
    if k > 0 && Fire(rules[0], s).Ok? {
      var t := Fire(rules[0], s).value;
      assert rules[1..][k - 1] == rules[k];
      forall j | 0 <= j < k - 1
        ensures rules[1..][j].target != rules[k].target
      {
        assert rules[1..][j] == rules[j + 1];
      }
      forall u | Extends(t, u)
        ensures rules[k].inputs <= u.Keys && rules[k].when(u) && rules[k].value(u).Err?
      {
        ExtendsTransitive(s, t, u);
      }
      RuleRaises(rules[1..], k - 1, t);
    }
  }

  /** At a fixed point of a pass no rule fires: each one leaves the state as
      it is. */
  lemma {:induction false} FixedPointFiresNothing(rules: seq<Rule>, s: State, j: nat)
    requires RunRules(rules, s) == Ok(s) && j < |rules|
    ensures Fire(rules[j], s) == Ok(s)
    decreases |rules|
  {
    var t := Fire(rules[0], s).value;
    assert Extends(t, s);
    SameEntries(s, t);
    if j > 0 {
      assert rules[1..][j - 1] == rules[j];
      FixedPointFiresNothing(rules[1..], s, j - 1);
    }
  }

  /** A fixed point is closed under every rule: a rule whose inputs are set
      and whose condition holds has its target set. */
  lemma FixedPointClosed(rules: seq<Rule>, s: State, j: nat)
    requires RunRules(rules, s) == Ok(s) && j < |rules|
    requires rules[j].inputs <= s.Keys && rules[j].when(s)
    ensures rules[j].target in s
  {
    FixedPointFiresNothing(rules, s, j);
  }

  /** A relation between a state and the value of x in it that every
      extension of the state keeps. */
  ghost predicate Stable(x: string, P: (State, real) -> bool)
  {
    forall s: State, t: State :: Extends(s, t) && x in s && P(s, s[x]) ==> x in t && P(t, t[x])
  }

  /** Every rule that writes x writes a value related to the state by P. */
  ghost predicate Establishes(rules: seq<Rule>, x: string, P: (State, real) -> bool)
  {
    forall j, t: State ::
      0 <= j < |rules| && rules[j].target == x && x !in t && rules[j].inputs <= t.Keys &&
      rules[j].when(t) && rules[j].value(t).Ok? ==>
      P(t[x := rules[j].value(t).value], rules[j].value(t).value)
  }

  /** A pass keeps a stable relation on x: if it held on entry (or x was
      unset), it holds on exit. */
  lemma {:induction false} RunRulesEstablishes(rules: seq<Rule>, x: string, P: (State, real) -> bool, s: State)
    requires Stable(x, P) && Establishes(rules, x, P)
    requires x in s ==> P(s, s[x])
    ensures RunRules(rules, s).Ok? && x in RunRules(rules, s).value ==>
      P(RunRules(rules, s).value, RunRules(rules, s).value[x])
    decreases |rules|
  {
    if rules != [] && Fire(rules[0], s).Ok? {
      var t := Fire(rules[0], s).value;
      if x in t && x !in s {
        assert rules[0].target == x;
        assert t == s[x := rules[0].value(s).value];
      }
      assert Establishes(rules[1..], x, P) by {
        forall j | 0 <= j < |rules| - 1
          ensures rules[1..][j] == rules[j + 1]
        {
        }
      }
      RunRulesEstablishes(rules[1..], x, P, t);
    }
  }

  /** The loop keeps a stable relation on x when every pass does. */
  lemma {:induction false} FixEstablishes(rules: seq<Rule>, pass: State -> Result<State>, schema: set<string>,
                                          x: string, P: (State, real) -> bool, s: State)
    requires Grows(pass, schema) && s.Keys <= schema
    requires forall t :: pass(t) == RunRules(rules, t)
    requires Stable(x, P) && Establishes(rules, x, P)
    requires x in s ==> P(s, s[x])
    ensures Fix(pass, schema, s).Ok? && x in Fix(pass, schema, s).value ==>
      P(Fix(pass, schema, s).value, Fix(pass, schema, s).value[x])
    decreases Unset(schema, s)
  {
    RunRulesEstablishes(rules, x, P, s);
    match pass(s)
    case Err(e) =>
    case Ok(t) =>
      if t != s {
        ChangeDecreasesUnset(schema, s, t);
        FixEstablishes(rules, pass, schema, x, P, t);
      }
  }

  /** What a solver returns relates a symbol the caller did not give to the
      rest of the result as every rule that writes it does. */
  lemma SolvedEstablishes(rules: seq<Rule>, pass: State -> Result<State>, schema: set<string>,
                          x: string, P: (State, real) -> bool, kwargs: map<string, Option<real>>)
    requires Grows(pass, schema) && forall t :: pass(t) == RunRules(rules, t)
    requires Stable(x, P) && Establishes(rules, x, P)
    requires !(x in kwargs && kwargs[x].Some?)
    ensures var r := SolveFrom(pass, schema, kwargs);
      r.Ok? && x in r.value ==> P(r.value, r.value[x])
  {
    FixEstablishes(rules, pass, schema, x, P, Seed(schema, kwargs));
  }

  /** One step of a pass from its i-th rule on: that rule, then the rest. */
  lemma RunRulesStep(rules: seq<Rule>, i: nat, s: State)
    requires i < |rules|
    ensures RunRules(rules[i..], s) ==
      (var t :- Fire(rules[i], s); RunRules(rules[i + 1..], t))
  {
    assert rules[i..][0] == rules[i];
    assert rules[i..][1..] == rules[i + 1..];
  }

  /** The number of symbols of the schema still unset: the measure that every
      changing pass decreases. */
  function Unset(schema: set<string>, s: State): nat
  {
    |schema - s.Keys|
  }

  lemma ProperSubsetSmaller(a: set<string>, b: set<string>, x: string)
    requires a <= b && x in b && x !in a
    ensures |a| < |b|
  {
    assert b == a + (b - a);
    assert a !! (b - a);
    assert x in b - a;
  }

  lemma ChangeDecreasesUnset(schema: set<string>, s: State, t: State)
    requires s.Keys <= schema && t.Keys <= schema
    requires Extends(s, t) && t != s
    ensures Unset(schema, t) < Unset(schema, s)
  {
    var k :| k in t && k !in s;
    ProperSubsetSmaller(schema - t.Keys, schema - s.Keys, k);
  }

  /** The `while changed:` loop of every solver: repeat the pass until it
      changes nothing, stopping at the first error it raises. */
  function Fix(pass: State -> Result<State>, schema: set<string>, s: State): Result<State>
    requires Grows(pass, schema) && s.Keys <= schema
    decreases Unset(schema, s)
  {
    match pass(s)
    case Err(e) => Err(e)
    case Ok(t) =>
      if t == s then Ok(s)
      else
        ChangeDecreasesUnset(schema, s, t);
        Fix(pass, schema, t)
  }

  /** One turn of the loop: an error ends it, an unchanged state is its
      result, and a changed state is where it carries on. */
  lemma FixStep(pass: State -> Result<State>, schema: set<string>, s: State)
    requires Grows(pass, schema) && s.Keys <= schema
    ensures pass(s).Err? ==> Fix(pass, schema, s) == Err(pass(s).error)
    ensures pass(s) == Ok(s) ==> Fix(pass, schema, s) == Ok(s)
    ensures pass(s).Ok? && pass(s).value != s ==>
      pass(s).value.Keys <= schema && Fix(pass, schema, s) == Fix(pass, schema, pass(s).value)
  {
  }

  /** What the loop returns keeps every seeded entry, stays within the schema,
      and is a fixed point: one more pass would change nothing. */
  lemma {:induction false} FixProperties(pass: State -> Result<State>, schema: set<string>, s: State)
    requires Grows(pass, schema) && s.Keys <= schema
    ensures Fix(pass, schema, s).Ok? ==>
      var t := Fix(pass, schema, s).value;
      Extends(s, t) && t.Keys <= schema && pass(t) == Ok(t)
    decreases Unset(schema, s)
  {
    match pass(s)
    case Err(e) =>
    case Ok(t) =>
      if t != s {
        ChangeDecreasesUnset(schema, s, t);
        FixProperties(pass, schema, t);
        if Fix(pass, schema, t).Ok? {
          ExtendsTransitive(s, t, Fix(pass, schema, t).value);
        }
      }
  }

  /** The loop keeps any property of the state that every pass keeps. */
  lemma {:induction false} FixKeeps(pass: State -> Result<State>, schema: set<string>, inv: State -> bool, s: State)
    requires Grows(pass, schema) && s.Keys <= schema
    requires forall t: State :: t.Keys <= schema && inv(t) && pass(t).Ok? ==> inv(pass(t).value)
    requires inv(s)
    ensures Fix(pass, schema, s).Ok? ==> inv(Fix(pass, schema, s).value)
    decreases Unset(schema, s)
  {
    match pass(s)
    case Err(e) =>
    case Ok(t) =>
      if t != s {
        ChangeDecreasesUnset(schema, s, t);
        FixKeeps(pass, schema, inv, t);
      }
  }

  /** The loop runs at most one pass more than there are unset symbols. */
  function Passes(pass: State -> Result<State>, schema: set<string>, s: State): nat
    requires Grows(pass, schema) && s.Keys <= schema
    decreases Unset(schema, s)
  {
    match pass(s)
    case Err(_) => 1
    case Ok(t) =>
      if t == s then 1
      else
        ChangeDecreasesUnset(schema, s, t);
        1 + Passes(pass, schema, t)
  }

  lemma {:induction false} PassesBound(pass: State -> Result<State>, schema: set<string>, s: State)
    requires Grows(pass, schema) && s.Keys <= schema
    ensures Passes(pass, schema, s) <= Unset(schema, s) + 1
    decreases Unset(schema, s)
  {
    match pass(s)
    case Err(_) =>
    case Ok(t) =>
      if t != s {
        ChangeDecreasesUnset(schema, s, t);
        PassesBound(pass, schema, t);
      }
  }

  /** The imperative loop itself: `changed = True; while changed: ...`. */
  method RunToFixpoint(pass: State -> Result<State>, schema: set<string>, seed: State)
    returns (r: Result<State>)
    requires Grows(pass, schema) && seed.Keys <= schema
    ensures r == Fix(pass, schema, seed)
  {
    var s := seed;
    var changed := true;
    while changed
      invariant s.Keys <= schema
      invariant changed ==> Fix(pass, schema, s) == Fix(pass, schema, seed)
      invariant !changed ==> Fix(pass, schema, seed) == Ok(s)
      decreases Unset(schema, s), changed
    {
      var next := pass(s);
      if next.Err? {
        return Err(next.error);
      }
      changed := next.value != s;
      if changed {
        ChangeDecreasesUnset(schema, s, next.value);
      }
      s := next.value;
    }
    return Ok(s);
  }

  /** What a solver returns when it does not raise: only symbols of its
      schema, every argument that was given kept as given, and closed under
      the pass (one more pass would derive nothing). */
  ghost predicate Solved(pass: State -> Result<State>, schema: set<string>,
                         kwargs: map<string, Option<real>>, t: State)
  {
    && t.Keys <= schema
    && (forall k :: k in schema && k in kwargs && kwargs[k].Some? ==> k in t && t[k] == kwargs[k].value)
    && pass(t) == Ok(t)
  }

  /** Seed the knowns from the arguments, then run the loop. */
  function SolveFrom(pass: State -> Result<State>, schema: set<string>, kwargs: map<string, Option<real>>): (r: Result<State>)
    requires Grows(pass, schema)
    ensures r.Ok? ==> Solved(pass, schema, kwargs, r.value)
  {
    FixProperties(pass, schema, Seed(schema, kwargs));
    Fix(pass, schema, Seed(schema, kwargs))
  }
}
