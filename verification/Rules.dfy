/** The rule engine: a requested model name that is the name of a rule set is turned into the
    list of upstream models to try. */
module Rules {
  import opened Wrappers
  import opened Json
  import opened Sequences
  import opened Sorting

  datatype Candidate = Candidate(model: string, maxPromptTokens: Option<U64>)

  datatype Rule = Rule(matchModel: string, order: nat, strategy: string, candidates: seq<Candidate>,
                       fallback: seq<string>)

  datatype RuleSet = RuleSet(id: string, name: string, version: U64, rules: seq<Rule>)

  datatype Resolution = Resolution(ruleSet: string, candidates: seq<string>)

  // ------------------------------------------------------------------ rule choice

  function FindMatch(rules: seq<Rule>, pattern: string): Option<Rule> {
    if rules == [] then None
    else if rules[0].matchModel == pattern then Some(rules[0])
    else FindMatch(rules[1..], pattern)
  }

  /** The first rule of least order. */
  function LeastOrder(rules: seq<Rule>): Option<Rule> {
    if rules == [] then None
    else
      match LeastOrder(rules[1..])
      case None => Some(rules[0])
      case Some(r) => Some(if rules[0].order <= r.order then rules[0] else r)
  }

  function ChooseRule(rules: seq<Rule>, requested: string): Option<Rule> {
    if FindMatch(rules, "*").Some? then FindMatch(rules, "*")
    else if FindMatch(rules, requested).Some? then FindMatch(rules, requested)
    else LeastOrder(rules)
  }

  /** `i` is the first rule with this pattern. */
  ghost predicate IsFirstMatch(rules: seq<Rule>, pattern: string, i: nat) {
    i < |rules| && rules[i].matchModel == pattern && forall j :: 0 <= j < i ==> rules[j].matchModel != pattern
  }

  /** `i` is the first rule of least order. */
  ghost predicate IsFirstLeast(rules: seq<Rule>, i: nat) {
    i < |rules| && (forall j :: 0 <= j < |rules| ==> rules[i].order <= rules[j].order) &&
    forall j :: 0 <= j < i ==> rules[i].order < rules[j].order
  }

  lemma {:induction false} FirstMatch(rules: seq<Rule>, pattern: string) returns (i: nat)
    ensures FindMatch(rules, pattern) == None ==> forall r :: r in rules ==> r.matchModel != pattern
    ensures FindMatch(rules, pattern).Some? ==>
      IsFirstMatch(rules, pattern, i) && FindMatch(rules, pattern) == Some(rules[i])
  {
    i := 0;
    if rules != [] && rules[0].matchModel != pattern {
      i := FirstMatch(rules[1..], pattern);
      i := i + 1;
      assert forall j :: 0 < j < |rules| ==> rules[j] == rules[1..][j - 1];
    }
  }

  lemma {:induction false} FirstLeast(rules: seq<Rule>) returns (i: nat)
    ensures LeastOrder(rules).None? <==> rules == []
    ensures rules != [] ==> IsFirstLeast(rules, i) && LeastOrder(rules) == Some(rules[i])
  {
    i := 0;
    if |rules| > 1 {
      var k := FirstLeast(rules[1..]);
      assert forall j :: 0 < j < |rules| ==> rules[j] == rules[1..][j - 1];
      i := if rules[0].order <= rules[k + 1].order then 0 else k + 1;
    }
  }

  /** Which rule is chosen: the first for "*", else the first for the requested name, else the
      first of least order; none only if there are no rules. */
  lemma ChosenRule(rules: seq<Rule>, requested: string) returns (i: nat)
    ensures ChooseRule(rules, requested).None? <==> rules == []
    ensures rules != [] ==> i < |rules| && ChooseRule(rules, requested) == Some(rules[i])
    ensures rules != [] ==>
      if exists r :: r in rules && r.matchModel == "*" then IsFirstMatch(rules, "*", i)
      else if exists r :: r in rules && r.matchModel == requested then IsFirstMatch(rules, requested, i)
      else IsFirstLeast(rules, i)
  {
    var star := FirstMatch(rules, "*");
    var exact := FirstMatch(rules, requested);
    var least := FirstLeast(rules);
    i := if FindMatch(rules, "*").Some? then star else if FindMatch(rules, requested).Some? then exact else least;
  }

  // ------------------------------------------------------------------------- tiers

  /** The sort key: the prompt limit, with no limit at the far end. */
  function Key(c: Candidate): U64 {
    c.maxPromptTokens.GetOr(U64_BOUND - 1)
  }

  predicate Cheaper(a: Candidate, b: Candidate) {
    Key(a) <= Key(b)
  }

  /** The prompt fits: there is no limit, or it is large enough. */
  function Fits(est: U64): Candidate -> bool {
    (c: Candidate) => c.maxPromptTokens.None? || c.maxPromptTokens.value >= est
  }

  function NameOf(c: Candidate): seq<string> { if c.model == "" then [] else [c.model] }
  function Named(model: string): seq<string> { if model == "" then [] else [model] }

  /** The candidates a token_tier rule tries, in order. */
  function Tier(candidates: seq<Candidate>, est: U64): seq<Candidate> {
    StableSort(Keep(candidates, Fits(est)), Cheaper)
  }

  function CandidatesOf(rule: Rule, est: U64): seq<string> {
    FlatMap(if rule.strategy == "fixed" then rule.candidates else Tier(rule.candidates, est), NameOf) +
    FlatMap(rule.fallback, Named)
  }

  function Resolved(ruleSets: map<string, RuleSet>, requested: string, est: U64): Option<Resolution> {
    if requested !in ruleSets then None
    else
      match ChooseRule(ruleSets[requested].rules, requested)
      case None => None
      case Some(rule) =>
        var candidates := CandidatesOf(rule, est);
        if candidates == [] then None else Some(Resolution(ruleSets[requested].name, candidates))
  }

  lemma CheaperOrders()
    ensures Orders(Cheaper)
  {
  }

  predicate UnlimitedLast(s: seq<Candidate>) {
    forall i, j :: 0 <= i < j < |s| && s[i].maxPromptTokens.None? ==>
      s[j].maxPromptTokens in {None, Some(U64_BOUND - 1)}
  }

  /** The tier holds exactly the candidates that fit, by ascending limit, and otherwise in the
      order given. */
  lemma TierIsStableAscending(candidates: seq<Candidate>, est: U64, x: Candidate)
    ensures Sorted(Tier(candidates, est), Cheaper)
    ensures multiset(Tier(candidates, est)) == multiset(Keep(candidates, Fits(est)))
    ensures Keep(Tier(candidates, est), Alike(x, Cheaper)) == Keep(Keep(candidates, Fits(est)), Alike(x, Cheaper))
  {
    CheaperOrders();
    SortSorts(Keep(candidates, Fits(est)), Cheaper);
    SortStable(x, Keep(candidates, Fits(est)), Cheaper);
  }

  /** An unlimited candidate comes after every one with a limit below the largest number. */
  lemma TierEndsUnlimited(candidates: seq<Candidate>, est: U64)
    ensures UnlimitedLast(Tier(candidates, est))
  {
    CheaperOrders();
    SortSorts(Keep(candidates, Fits(est)), Cheaper);
    SortedEndsUnlimited(Tier(candidates, est));
  }

  lemma SortedEndsUnlimited(t: seq<Candidate>)
    requires Sorted(t, Cheaper)
    ensures UnlimitedLast(t)
  {
    forall i, j | 0 <= i < j < |t| && t[i].maxPromptTokens.None?
      ensures t[j].maxPromptTokens in {None, Some(U64_BOUND - 1)}
    {
      assert Cheaper(t[i], t[j]);
    }
  }

  lemma {:induction false} KeepNarrower(s: seq<Candidate>, est1: U64, est2: U64)
    requires est1 <= est2
    ensures Keep(Keep(s, Fits(est1)), Fits(est2)) == Keep(s, Fits(est2))
  {
    if s != [] {
      KeepNarrower(s[1..], est1, est2);
      var kept := Keep(s, Fits(est1));
      if Fits(est1)(s[0]) {
        assert kept[0] == s[0] && kept[1..] == Keep(s[1..], Fits(est1));
      } else {
        assert kept == Keep(s[1..], Fits(est1));
        assert Keep(s, Fits(est2)) == Keep(s[1..], Fits(est2));
      }
    }
  }

  /** A larger prompt only drops candidates from the front of the tier. */
  lemma TierMonotone(candidates: seq<Candidate>, est1: U64, est2: U64) returns (k: nat)
    requires est1 <= est2
    ensures k <= |Tier(candidates, est1)| && Tier(candidates, est2) == Tier(candidates, est1)[k..]
  {
    CheaperOrders();
    assert Upward(Fits(est2), Cheaper);
    SortSorts(Keep(candidates, Fits(est1)), Cheaper);
    KeepNarrower(candidates, est1, est2);
    KeepSort(Keep(candidates, Fits(est1)), Fits(est2), Cheaper);
    k := KeepIsSuffix(Tier(candidates, est1), Fits(est2), Cheaper);
  }

  ghost predicate IsSuffix(s: seq<string>, all: seq<string>) {
    |s| <= |all| && all[|all| - |s|..] == s
  }

  lemma CandidatesMonotone(rule: Rule, est1: U64, est2: U64)
    requires est1 <= est2
    ensures IsSuffix(CandidatesOf(rule, est2), CandidatesOf(rule, est1))
  {
    var fallback := FlatMap(rule.fallback, Named);
    if rule.strategy != "fixed" {
      var tier := Tier(rule.candidates, est1);
      var k := TierMonotone(rule.candidates, est1, est2);
      assert tier == tier[..k] + tier[k..];
      FlatMapAppend(tier[..k], tier[k..], NameOf);
      SuffixOf(FlatMap(tier[..k], NameOf), FlatMap(tier[k..], NameOf), fallback);
    }
  }

  lemma SuffixOf(a: seq<string>, b: seq<string>, c: seq<string>)
    ensures IsSuffix(b + c, a + b + c)
  {
  }

  /** For one rule set and requested name: what is tried for a larger prompt is the end of what is
      tried for a smaller one, so a model skipped as too small never comes back. */
  lemma ResolutionMonotone(ruleSets: map<string, RuleSet>, requested: string, est1: U64, est2: U64)
    requires est1 <= est2 && Resolved(ruleSets, requested, est2).Some?
    ensures Resolved(ruleSets, requested, est1).Some?
    ensures IsSuffix(Resolved(ruleSets, requested, est2).value.candidates,
                     Resolved(ruleSets, requested, est1).value.candidates)
  {
    CandidatesMonotone(ChooseRule(ruleSets[requested].rules, requested).value, est1, est2);
  }

  // ---------------------------------------------- what is tried, from the rule alone

  ghost function LimitOf(c: Candidate): U64 {
    if c.maxPromptTokens.None? then U64_BOUND - 1 else c.maxPromptTokens.value
  }

  ghost predicate Fitting(c: Candidate, est: U64) {
    c.maxPromptTokens.None? || est <= c.maxPromptTokens.value
  }

  /** The candidates with this limit that fit, in the order given. */
  ghost function FittingAt(s: seq<Candidate>, limit: U64, est: U64): seq<Candidate> {
    if s == [] then []
    else (if LimitOf(s[0]) == limit && Fitting(s[0], est) then [s[0]] else []) + FittingAt(s[1..], limit, est)
  }

  /** `t` holds exactly the candidates that fit, as often, by ascending limit, and those of one limit
      in the order given. */
  ghost predicate IsTier(t: seq<Candidate>, candidates: seq<Candidate>, est: U64) {
    (forall c :: multiset(t)[c] == if Fitting(c, est) then multiset(candidates)[c] else 0) &&
    (forall i, j :: 0 <= i < j < |t| ==> LimitOf(t[i]) <= LimitOf(t[j])) &&
    (forall limit: U64 :: FittingAt(t, limit, est) == FittingAt(candidates, limit, est))
  }

  /** The names that are not empty, in order. */
  ghost function NamesOf(s: seq<Candidate>): seq<string> {
    if s == [] then [] else (if s[0].model == "" then [] else [s[0].model]) + NamesOf(s[1..])
  }

  ghost function NonEmpty(s: seq<string>): seq<string> {
    if s == [] then [] else (if s[0] == "" then [] else [s[0]]) + NonEmpty(s[1..])
  }

  lemma {:induction false} NamesAre(s: seq<Candidate>)
    ensures FlatMap(s, NameOf) == NamesOf(s)
  {
    if s != [] {
      FlatMapFront(s, NameOf);
      NamesAre(s[1..]);
    }
  }

  lemma {:induction false} NonEmptyAre(s: seq<string>)
    ensures FlatMap(s, Named) == NonEmpty(s)
  {
    if s != [] {
      FlatMapFront(s, Named);
      NonEmptyAre(s[1..]);
    }
  }

  lemma {:induction false} KeepCounts(s: seq<Candidate>, est: U64, c: Candidate)
    ensures multiset(Keep(s, Fits(est)))[c] == if Fitting(c, est) then multiset(s)[c] else 0
  {
    if s != [] {
      var rest := Keep(s[1..], Fits(est));
      KeepCounts(s[1..], est, c);
      assert s == [s[0]] + s[1..];
      assert Keep(s, Fits(est)) == (if Fits(est)(s[0]) then [s[0]] else []) + rest;
    }
  }

  lemma AlikeIsSameLimit(x: Candidate, y: Candidate)
    ensures Alike(x, Cheaper)(y) <==> LimitOf(y) == LimitOf(x)
  {
    assert Key(x) == LimitOf(x) && Key(y) == LimitOf(y);
    assert Cheaper(x, y) <==> Key(x) <= Key(y);
    assert Cheaper(y, x) <==> Key(y) <= Key(x);
    assert Alike(x, Cheaper)(y) <==> Cheaper(x, y) && Cheaper(y, x);
  }

  lemma {:induction false} FittingAtIs(s: seq<Candidate>, est: U64, x: Candidate)
    ensures FittingAt(s, LimitOf(x), est) == Keep(Keep(s, Fits(est)), Alike(x, Cheaper))
  {
    if s != [] {
      FittingAtIs(s[1..], est, x);
      var kept, rest := Keep(s, Fits(est)), Keep(s[1..], Fits(est));
      var alike := Alike(x, Cheaper);
      AlikeIsSameLimit(x, s[0]);
      if Fitting(s[0], est) {
        assert kept == [s[0]] + rest && kept[0] == s[0] && kept[1..] == rest;
        assert Keep(kept, alike) == (if alike(s[0]) then [s[0]] else []) + Keep(rest, alike);
      } else {
        assert kept == rest;
      }
    }
  }

  lemma TierIs(candidates: seq<Candidate>, est: U64)
    ensures IsTier(Tier(candidates, est), candidates, est)
  {
    var t := Tier(candidates, est);
    forall c
      ensures multiset(t)[c] == if Fitting(c, est) then multiset(candidates)[c] else 0
    {
      TierIsStableAscending(candidates, est, c);
      KeepCounts(candidates, est, c);
    }
    TierIsStableAscending(candidates, est, Candidate("", None));
    forall i, j | 0 <= i < j < |t|
      ensures LimitOf(t[i]) <= LimitOf(t[j])
    {
      assert Cheaper(t[i], t[j]);
    }
    forall limit: U64
      ensures FittingAt(t, limit, est) == FittingAt(candidates, limit, est)
    {
      var x := Candidate("", Some(limit));
      TierIsStableAscending(candidates, est, x);
      FittingAtIs(candidates, est, x);
      FittingAtIs(t, est, x);
      forall c | c in t
        ensures Fits(est)(c)
      {
        assert c in multiset(t);
      }
      KeepAll(t, Fits(est));
    }
  }

  /** The result of a hit: the rule set's own name, and None if nothing is left to try. */
  ghost predicate Gives(r: Option<Resolution>, name: string, models: seq<string>) {
    r == if models == [] then None else Some(Resolution(name, models))
  }

  /** A name that is no rule set's is not resolved, and neither is a rule set without rules. Else the
      chosen rule decides: "fixed" tries its candidates in the order given, any other strategy the
      fitting ones as a tier; then come the fallbacks; empty names are left out. */
  lemma ResolvedExactly(ruleSets: map<string, RuleSet>, requested: string, est: U64)
    ensures requested !in ruleSets || ruleSets[requested].rules == [] ==> Resolved(ruleSets, requested, est) == None
    ensures requested in ruleSets && ruleSets[requested].rules != [] ==>
      var rules, name := ruleSets[requested].rules, ruleSets[requested].name;
      ChooseRule(rules, requested).Some? &&
      var rule := ChooseRule(rules, requested).value;
      if rule.strategy == "fixed" then
        Gives(Resolved(ruleSets, requested, est), name, NamesOf(rule.candidates) + NonEmpty(rule.fallback))
      else
        exists t :: IsTier(t, rule.candidates, est) &&
          Gives(Resolved(ruleSets, requested, est), name, NamesOf(t) + NonEmpty(rule.fallback))
  {
    if requested in ruleSets {
      var i := ChosenRule(ruleSets[requested].rules, requested);
      if ruleSets[requested].rules != [] {
        var rule := ChooseRule(ruleSets[requested].rules, requested).value;
        NonEmptyAre(rule.fallback);
        NamesAre(rule.candidates);
        NamesAre(Tier(rule.candidates, est));
        TierIs(rule.candidates, est);
      }
    }
  }

  // ---------------------------------------------------------------------- resolver

  /** Rule sets by name, a later one replacing an earlier one of the same name. */
  function Indexed(sets: seq<RuleSet>): map<string, RuleSet> {
    if sets == [] then map[] else Indexed(sets[..|sets| - 1])[sets[|sets| - 1].name := sets[|sets| - 1]]
  }

  class RuleResolver {
    var inner: map<string, RuleSet>

    constructor ()
      ensures inner == map[]
    {
      inner := map[];
    }

    method Load(sets: seq<RuleSet>)
      modifies this
      ensures inner == Indexed(sets)
    {
      inner := map[];
      for i := 0 to |sets|
        invariant inner == Indexed(sets[..i])
      {
        assert sets[..i + 1][..i] == sets[..i];
        inner := inner[sets[i].name := sets[i]];
      }
      assert sets[..|sets|] == sets;
    }

    method Upsert(rs: RuleSet)
      modifies this
      ensures inner == old(inner)[rs.name := rs]
    {
      inner := inner[rs.name := rs];
    }

    method Remove(name: string) returns (found: bool)
      modifies this
      ensures found == (name in old(inner)) && inner == old(inner) - {name}
    {
      found := name in inner;
      inner := inner - {name};
    }

    method Resolve(requested: string, est: U64) returns (r: Option<Resolution>)
      ensures r == Resolved(inner, requested, est)
    {
      if requested !in inner {
        return None;
      }
      var set_ := inner[requested];
      var chosen := ChooseRule(set_.rules, requested);
      if chosen.None? {
        return None;
      }
      var rule := chosen.value;
      var picked := rule.candidates;
      if rule.strategy != "fixed" {
        picked := Keep(picked, Fits(est));
        picked := StableSort(picked, Cheaper);
      }
      var candidates: seq<string> := [];
      for i := 0 to |picked|
        invariant candidates == FlatMap(picked[..i], NameOf)
      {
        FlatMapStep(picked, i, NameOf);
        if picked[i].model != "" {
          candidates := candidates + [picked[i].model];
        }
      }
      assert picked[..|picked|] == picked;
      ghost var head := candidates;
      for i := 0 to |rule.fallback|
        invariant candidates == head + FlatMap(rule.fallback[..i], Named)
      {
        FlatMapStep(rule.fallback, i, Named);
        if rule.fallback[i] != "" {
          candidates := candidates + [rule.fallback[i]];
        }
      }
      assert rule.fallback[..|rule.fallback|] == rule.fallback;
      if candidates == [] {
        return None;
      }
      return Some(Resolution(set_.name, candidates));
    }
  }

  /** A rule set is found under its own name, and it is the last one loaded with that name. */
  lemma {:induction false} IndexedByName(sets: seq<RuleSet>, name: string)
    ensures name in Indexed(sets) <==> exists i :: 0 <= i < |sets| && sets[i].name == name
    ensures name in Indexed(sets) ==>
      exists i :: 0 <= i < |sets| && sets[i] == Indexed(sets)[name] && sets[i].name == name &&
        forall j :: i < j < |sets| ==> sets[j].name != name
  {
    if sets != [] {
      var n := |sets| - 1;
      IndexedByName(sets[..n], name);
      if sets[n].name != name && name in Indexed(sets) {
        var i :| 0 <= i < n && sets[..n][i] == Indexed(sets[..n])[name] && sets[..n][i].name == name &&
          forall j :: i < j < n ==> sets[..n][j].name != name;
        assert sets[i] == sets[..n][i];
        forall j | i < j < |sets|
          ensures sets[j].name != name
        {
          assert j == n || sets[j] == sets[..n][j];
        }
      }
    }
  }

  /** A rough token count: a quarter of the characters, at least one. */
  function EstimateTokens(text: string): (r: nat)
    ensures if |text| < 4 then r == 1 else 4 * r <= |text| < 4 * r + 4
  {
    if |text| / 4 > 1 then |text| / 4 else 1
  }
}
