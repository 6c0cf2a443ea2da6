/** The backend registry: indices over the registered backends, routing of a model name, and the
    model catalogue, all of them aware of provider health. */
module Registry {
  import opened Wrappers
  import opened Sorting
  import Health
  import JsonText

  datatype Provider = Mock | DeepSeek | Kimi | Zhipu | CodeBuddy | Custom

  /** What the registry sees of a backend. */
  datatype Backend = Backend(name: string, provider: Provider, usageLabel: string, models: seq<string>)

  function PrefixFor(p: Provider): Option<string> {
    match p
    case DeepSeek => Some("deepseek-")
    case Kimi => Some("kimi-")
    case Zhipu => Some("glm-")
    case Mock => Some("mock-")
    case CodeBuddy => None
    case Custom => None
  }

  // ------------------------------------------------------------------------ indices

  datatype Index = Index(backends: map<string, Backend>, prefixes: map<string, string>, exact: map<string, string>)

  const EMPTY := Index(map[], map[], map[])

  function WithModels(exact: map<string, string>, models: seq<string>, name: string): map<string, string> {
    if models == [] then exact else WithModels(exact, models[..|models| - 1], name)[models[|models| - 1] := name]
  }

  /** The prefix a backend claims when it is registered: a mock claims one only as the first. */
  function Claims(ix: Index, b: Backend): Option<string> {
    if b.provider.Mock? && ix.backends != map[] then None else PrefixFor(b.provider)
  }

  function Registered(ix: Index, b: Backend): Index {
    Index(ix.backends[b.name := b],
          match Claims(ix, b) { case None => ix.prefixes case Some(p) => ix.prefixes[p := b.name] },
          WithModels(ix.exact, b.models, b.name))
  }

  function IndexOf(bs: seq<Backend>): Index {
    if bs == [] then EMPTY else Registered(IndexOf(bs[..|bs| - 1]), bs[|bs| - 1])
  }

  // ---------------------------------------------------- the indices are a plain scan

  /** The last backend that lists the model. */
  function LastListing(bs: seq<Backend>, model: string): Option<Backend> {
    if bs == [] then None
    else if model in bs[|bs| - 1].models then Some(bs[|bs| - 1])
    else LastListing(bs[..|bs| - 1], model)
  }

  /** The last backend of that name. */
  function LastNamed(bs: seq<Backend>, name: string): Option<Backend> {
    if bs == [] then None
    else if bs[|bs| - 1].name == name then Some(bs[|bs| - 1])
    else LastNamed(bs[..|bs| - 1], name)
  }

  /** The last backend that claims the prefix: a mock counts only at the head of the list. */
  function LastClaiming(bs: seq<Backend>, prefix: string): Option<Backend> {
    if bs == [] then None
    else
      var last := bs[|bs| - 1];
      if PrefixFor(last.provider) == Some(prefix) && (last.provider.Mock? ==> |bs| == 1) then Some(last)
      else LastClaiming(bs[..|bs| - 1], prefix)
  }

  function NameOf(b: Option<Backend>): Option<string> {
    match b
    case None => None
    case Some(x) => Some(x.name)
  }

  function Find<T>(m: map<string, T>, k: string): Option<T> {
    if k in m then Some(m[k]) else None
  }

  lemma {:induction false} WithModelsFinds(exact: map<string, string>, models: seq<string>, name: string, model: string)
    ensures Find(WithModels(exact, models, name), model) == if model in models then Some(name) else Find(exact, model)
  {
    if models != [] {
      WithModelsFinds(exact, models[..|models| - 1], name, model);
    }
  }

  lemma {:induction false} BackendsEmpty(bs: seq<Backend>)
    ensures IndexOf(bs).backends == map[] <==> bs == []
  {
    if bs != [] {
      assert bs[|bs| - 1].name in IndexOf(bs).backends;
    }
  }

  /** Every index answers what a scan of the list of backends answers. */
  lemma {:induction false} IndexIsScan(bs: seq<Backend>, key: string)
    ensures Find(IndexOf(bs).exact, key) == NameOf(LastListing(bs, key))
    ensures Find(IndexOf(bs).backends, key) == LastNamed(bs, key)
    ensures Find(IndexOf(bs).prefixes, key) == NameOf(LastClaiming(bs, key))
  {
    if bs != [] {
      var init, last := bs[..|bs| - 1], bs[|bs| - 1];
      IndexIsScan(init, key);
      BackendsEmpty(init);
      WithModelsFinds(IndexOf(init).exact, last.models, last.name, key);
    }
  }

  /** Every name an index gives is the name of a registered backend. */
  ghost predicate Resolves(ix: Index) {
    (forall m :: m in ix.exact ==> ix.exact[m] in ix.backends) &&
    (forall p :: p in ix.prefixes ==> ix.prefixes[p] in ix.backends) &&
    (forall n :: n in ix.backends ==> ix.backends[n].name == n)
  }

  lemma RegisteredResolves(ix: Index, b: Backend)
    requires Resolves(ix)
    ensures Resolves(Registered(ix, b))
  {
    forall m | m in Registered(ix, b).exact
      ensures Registered(ix, b).exact[m] in Registered(ix, b).backends
    {
      WithModelsFinds(ix.exact, b.models, b.name, m);
      assert Find(WithModels(ix.exact, b.models, b.name), m) == Some(Registered(ix, b).exact[m]);
    }
  }

  lemma {:induction false} IndexedNamesResolve(bs: seq<Backend>)
    ensures Resolves(IndexOf(bs))
  {
    if bs != [] {
      IndexedNamesResolve(bs[..|bs| - 1]);
      RegisteredResolves(IndexOf(bs[..|bs| - 1]), bs[|bs| - 1]);
    }
  }

  ghost predicate DistinctNames(bs: seq<Backend>) {
    forall i, j :: 0 <= i < j < |bs| ==> bs[i].name != bs[j].name
  }

  lemma {:induction false} LastListingLists(bs: seq<Backend>, model: string)
    ensures LastListing(bs, model).Some? ==>
      model in LastListing(bs, model).value.models && LastListing(bs, model).value in bs
    ensures LastListing(bs, model).None? ==> forall b :: b in bs ==> model !in b.models
  {
    if bs != [] {
      LastListingLists(bs[..|bs| - 1], model);
    }
  }

  lemma {:induction false} LastNamedIs(bs: seq<Backend>, b: Backend)
    requires DistinctNames(bs) && b in bs
    ensures LastNamed(bs, b.name) == Some(b)
  {
    var init := bs[..|bs| - 1];
    if b != bs[|bs| - 1] {
      assert b in init;
      var i :| 0 <= i < |init| && init[i] == b;
      assert bs[i].name != bs[|bs| - 1].name;
      LastNamedIs(init, b);
    }
  }

  /** With distinct names, an exact hit leads to a backend that lists the model: the last one. */
  lemma ExactHitListsModel(bs: seq<Backend>, model: string)
    requires DistinctNames(bs) && model in IndexOf(bs).exact
    ensures
      var ix := IndexOf(bs);
      ix.exact[model] in ix.backends && Some(ix.backends[ix.exact[model]]) == LastListing(bs, model) &&
      model in ix.backends[ix.exact[model]].models
  {
    IndexIsScan(bs, model);
    LastListingLists(bs, model);
    var b := LastListing(bs, model).value;
    LastNamedIs(bs, b);
    IndexIsScan(bs, b.name);
  }

  // ------------------------------------------------------------------------ routing

  predicate IsRemoved(states: Health.States, name: string) {
    name in states && states[name].level.Removed?
  }

  function RouteRank(states: Health.States, name: string): nat {
    if name in states && states[name].level.Degraded? then 1 else 0
  }

  /** A prefix that may decide the route. */
  predicate Eligible(ix: Index, states: Health.States, model: string, p: string) {
    p in ix.prefixes && p <= model && ix.prefixes[p] in ix.backends && !IsRemoved(states, ix.prefixes[p])
  }

  ghost predicate IsLongest(ix: Index, states: Health.States, model: string, p: string) {
    Eligible(ix, states, model, p) && forall q :: Eligible(ix, states, model, q) ==> |q| <= |p|
  }

  /** Two prefixes of one name with the same length are the same, so there is nothing for a
      tie-break by rank to decide. */
  lemma PrefixesOfSameLength(model: string, p: string, q: string)
    requires p <= model && q <= model && |p| == |q|
    ensures p == q
  {
    assert p == model[..|p|] && q == model[..|q|];
  }

  /** Where a model name goes. */
  ghost function Routed(ix: Index, states: Health.States, model: string): Option<Backend> {
    if model in ix.exact && ix.exact[model] in ix.backends then
      if IsRemoved(states, ix.exact[model]) then None else Some(ix.backends[ix.exact[model]])
    else if p :| IsLongest(ix, states, model, p) then
      assert Eligible(ix, states, model, p);
      Some(ix.backends[ix.prefixes[p]])
    else if name :| name in ix.backends && |ix.backends| == 1 then
      if IsRemoved(states, name) then None else Some(ix.backends[name])
    else None
  }

  lemma LongestIsUnique(ix: Index, states: Health.States, model: string, p: string, q: string)
    requires IsLongest(ix, states, model, p) && IsLongest(ix, states, model, q)
    ensures p == q
  {
    PrefixesOfSameLength(model, p, q);
  }

  lemma OnlyBackend(backends: map<string, Backend>, a: string, b: string)
    requires |backends| == 1 && a in backends && b in backends
    ensures a == b
  {
    assert |backends.Keys - {a}| == 0;
    assert backends.Keys == {a};
  }

  /** A route never leads to a removed backend, and always to a registered one. */
  lemma RouteAvoidsRemoved(ix: Index, states: Health.States, model: string)
    requires Resolves(ix)
    ensures Routed(ix, states, model).Some? ==>
      var b := Routed(ix, states, model).value;
      b.name in ix.backends && ix.backends[b.name] == b && !IsRemoved(states, b.name)
  {
  }

  /** An exact hit on a removed backend is final: no prefix and no other backend is tried. */
  lemma RemovedExactHitIsFinal(ix: Index, states: Health.States, model: string)
    requires Resolves(ix) && model in ix.exact
    ensures Routed(ix, states, model).None? <==> IsRemoved(states, ix.exact[model])
  {
  }

  /** The history of a backend ends with as many failures in a row as the remove threshold that
      its last failure was judged by. */
  ghost predicate FailedOut(events: seq<Health.Event>, name: string) {
    var history := Health.History(events, name);
    Health.FailureRun(history) > 0 && Health.FailureRun(history) >= history[|history| - 1].cfg.removeThreshold
  }

  /** Over every run of polls, edits, deletions and replacements: removed means failed out. */
  lemma RemovedIffFailedOut(events: seq<Health.Event>, name: string)
    ensures IsRemoved(Health.Run(events).states, name) <==> FailedOut(events, name)
  {
    Health.StateExplained(events, name);
  }

  /** So over every run, whatever the backends are replaced with, neither the router nor the
      catalogue ever yields a backend that has failed out. */
  lemma RunsAvoidFailed(events: seq<Health.Event>, bs: seq<Backend>, model: string, all: seq<Entry>)
    requires ListsOffers(IndexOf(bs), Health.Run(events).states, all)
    ensures
      var r := Routed(IndexOf(bs), Health.Run(events).states, model);
      r.Some? ==> !FailedOut(events, r.value.name)
    ensures forall e :: e in Catalogue(Health.Run(events).states, all) ==> !FailedOut(events, e.1)
  {
    var states := Health.Run(events).states;
    IndexedNamesResolve(bs);
    RouteAvoidsRemoved(IndexOf(bs), states, model);
    CatalogueHoldsOffers(IndexOf(bs), states, all);
    forall name
      ensures IsRemoved(states, name) <==> FailedOut(events, name)
    {
      RemovedIffFailedOut(events, name);
    }
  }

  // ------------------------------------------------- the route, from the backend list

  /** `i` is the last backend of the list that lists the model. */
  ghost predicate ListsLast(bs: seq<Backend>, model: string, i: nat) {
    i < |bs| && model in bs[i].models && forall j :: i < j < |bs| ==> model !in bs[j].models
  }

  /** `i` claims the prefix: it has it by its provider, and a mock has it only at the head. */
  predicate ClaimsAt(bs: seq<Backend>, p: string, i: nat) {
    i < |bs| && PrefixFor(bs[i].provider) == Some(p) && (bs[i].provider.Mock? ==> i == 0)
  }

  ghost predicate ClaimsLast(bs: seq<Backend>, p: string, i: nat) {
    ClaimsAt(bs, p, i) && forall j :: i < j < |bs| ==> !ClaimsAt(bs, p, j)
  }

  /** The last claimant of a prefix of the model, in service. */
  ghost predicate Serves(bs: seq<Backend>, states: Health.States, model: string, p: string, i: nat) {
    ClaimsLast(bs, p, i) && p <= model && !IsRemoved(states, bs[i].name)
  }

  ghost predicate ServesLongest(bs: seq<Backend>, states: Health.States, model: string, p: string, i: nat) {
    Serves(bs, states, model, p, i) && forall q, j :: Serves(bs, states, model, q, j) ==> |q| <= |p|
  }

  lemma {:induction false} ListsLastIs(bs: seq<Backend>, model: string, i: nat)
    requires ListsLast(bs, model, i)
    ensures LastListing(bs, model) == Some(bs[i])
  {
    if i < |bs| - 1 {
      ListsLastIs(bs[..|bs| - 1], model, i);
    }
  }

  lemma {:induction false} ClaimsLastIs(bs: seq<Backend>, p: string, i: nat)
    requires ClaimsLast(bs, p, i)
    ensures LastClaiming(bs, p) == Some(bs[i])
  {
    if i < |bs| - 1 {
      var init := bs[..|bs| - 1];
      assert !ClaimsAt(bs, p, |bs| - 1);
      assert forall j :: 0 <= j < |init| ==> (ClaimsAt(init, p, j) <==> ClaimsAt(bs, p, j));
      ClaimsLastIs(init, p, i);
    }
  }

  lemma {:induction false} SomebodyClaimsLast(bs: seq<Backend>, p: string) returns (i: nat)
    requires LastClaiming(bs, p).Some?
    ensures ClaimsLast(bs, p, i)
  {
    i := |bs| - 1;
    if !ClaimsAt(bs, p, i) {
      var init := bs[..|bs| - 1];
      assert forall j :: 0 <= j < |init| ==> (ClaimsAt(init, p, j) <==> ClaimsAt(bs, p, j));
      i := SomebodyClaimsLast(init, p);
    }
  }

  lemma NamedIsItself(bs: seq<Backend>, i: nat)
    requires DistinctNames(bs) && i < |bs|
    ensures Find(IndexOf(bs).backends, bs[i].name) == Some(bs[i])
  {
    IndexIsScan(bs, bs[i].name);
    LastNamedIs(bs, bs[i]);
  }

  lemma {:induction false} BackendsCount(bs: seq<Backend>)
    requires DistinctNames(bs)
    ensures |IndexOf(bs).backends| == |bs|
  {
    if bs != [] {
      var init, last := bs[..|bs| - 1], bs[|bs| - 1];
      BackendsCount(init);
      IndexIsScan(init, last.name);
      NobodyNamed(init, last.name);
      assert IndexOf(bs).backends.Keys == IndexOf(init).backends.Keys + {last.name};
    }
  }

  lemma {:induction false} NobodyNamed(bs: seq<Backend>, name: string)
    requires forall b :: b in bs ==> b.name != name
    ensures LastNamed(bs, name) == None
  {
    if bs != [] {
      NobodyNamed(bs[..|bs| - 1], name);
    }
  }

  lemma {:induction false} NobodyLists(bs: seq<Backend>, model: string)
    requires forall b :: b in bs ==> model !in b.models
    ensures LastListing(bs, model) == None
  {
    if bs != [] {
      NobodyLists(bs[..|bs| - 1], model);
    }
  }

  /** The prefixes that may decide are those with a claimant in service. */
  lemma EligibleServes(bs: seq<Backend>, states: Health.States, model: string, p: string)
    requires DistinctNames(bs)
    ensures Eligible(IndexOf(bs), states, model, p) <==> exists i: nat :: Serves(bs, states, model, p, i)
  {
    IndexIsScan(bs, p);
    IndexedNamesResolve(bs);
    if LastClaiming(bs, p).Some? {
      var i := SomebodyClaimsLast(bs, p);
      ClaimsLastIs(bs, p, i);
      if Eligible(IndexOf(bs), states, model, p) {
        assert Serves(bs, states, model, p, i);
      }
    }
    if i: nat :| Serves(bs, states, model, p, i) {
      ClaimsLastIs(bs, p, i);
      NamedIsItself(bs, i);
    }
  }

  lemma LongestServes(bs: seq<Backend>, states: Health.States, model: string, p: string, i: nat)
    requires DistinctNames(bs) && ServesLongest(bs, states, model, p, i)
    ensures IsLongest(IndexOf(bs), states, model, p) && IndexOf(bs).prefixes[p] == bs[i].name
  {
    EligibleServes(bs, states, model, p);
    IndexIsScan(bs, p);
    ClaimsLastIs(bs, p, i);
    forall q | Eligible(IndexOf(bs), states, model, q)
      ensures |q| <= |p|
    {
      EligibleServes(bs, states, model, q);
    }
  }

  lemma RouteOfListed(bs: seq<Backend>, states: Health.States, model: string, i: nat)
    requires DistinctNames(bs) && ListsLast(bs, model, i)
    ensures Routed(IndexOf(bs), states, model) == if IsRemoved(states, bs[i].name) then None else Some(bs[i])
  {
    IndexIsScan(bs, model);
    ListsLastIs(bs, model, i);
    NamedIsItself(bs, i);
  }

  lemma RouteByPrefix(bs: seq<Backend>, states: Health.States, model: string, p: string, i: nat)
    requires DistinctNames(bs) && (forall b :: b in bs ==> model !in b.models)
    requires ServesLongest(bs, states, model, p, i)
    ensures Routed(IndexOf(bs), states, model) == Some(bs[i])
  {
    IndexIsScan(bs, model);
    NobodyLists(bs, model);
    LongestServes(bs, states, model, p, i);
    NamedIsItself(bs, i);
    forall q | IsLongest(IndexOf(bs), states, model, q)
      ensures q == p
    {
      LongestIsUnique(IndexOf(bs), states, model, p, q);
    }
  }

  lemma RouteToOnly(ix: Index, states: Health.States, model: string, name: string)
    requires model !in ix.exact && forall p :: !Eligible(ix, states, model, p)
    ensures |ix.backends| != 1 ==> Routed(ix, states, model) == None
    ensures |ix.backends| == 1 && name in ix.backends ==>
      Routed(ix, states, model) == if IsRemoved(states, name) then None else Some(ix.backends[name])
  {
    if |ix.backends| == 1 && name in ix.backends {
      forall other | other in ix.backends
        ensures other == name
      {
        OnlyBackend(ix.backends, other, name);
      }
    }
  }

  lemma RouteOfRest(bs: seq<Backend>, states: Health.States, model: string)
    requires DistinctNames(bs) && (forall b :: b in bs ==> model !in b.models)
    requires forall p, i: nat :: !Serves(bs, states, model, p, i)
    ensures Routed(IndexOf(bs), states, model) == if |bs| == 1 &&
      !IsRemoved(states, bs[0].name) then Some(bs[0]) else None
  {
    IndexIsScan(bs, model);
    NobodyLists(bs, model);
    BackendsCount(bs);
    forall p
      ensures !Eligible(IndexOf(bs), states, model, p)
    {
      EligibleServes(bs, states, model, p);
    }
    if |bs| == 1 {
      NamedIsItself(bs, 0);
      RouteToOnly(IndexOf(bs), states, model, bs[0].name);
    } else {
      RouteToOnly(IndexOf(bs), states, model, "");
    }
  }

  /** If any claimant is in service, one with the longest prefix is. */
  lemma LongestExists(bs: seq<Backend>, states: Health.States, model: string, p: string, i: nat) returns (q: string,
                                                                                                          j: nat)
    requires Serves(bs, states, model, p, i)
    ensures ServesLongest(bs, states, model, q, j)
    decreases |model| - |p|
  {
    q, j := p, i;
    if r, k: nat :| Serves(bs, states, model, r, k) && |r| > |p| {
      q, j := LongestExists(bs, states, model, r, k);
    }
  }

  /** Which backend a model is routed to, for every health: the last that lists it, unless that one
      is removed, then nobody; if nobody lists it, the last claimant of the longest prefix that has
      one in service; if there is none, the only backend, if it is the only one and in service. */
  lemma RouteExactly(bs: seq<Backend>, states: Health.States, model: string)
    requires DistinctNames(bs)
    ensures
      var r := Routed(IndexOf(bs), states, model);
      (forall i: nat :: ListsLast(bs, model, i) ==> r == if IsRemoved(states, bs[i].name) then None else Some(bs[i])) &&
      ((forall b :: b in bs ==> model !in b.models) ==>
        (forall p, i: nat :: ServesLongest(bs, states, model, p, i) ==> r == Some(bs[i])) &&
        ((forall p, i: nat :: !Serves(bs, states, model, p, i)) ==>
          r == if |bs| == 1 && !IsRemoved(states, bs[0].name) then Some(bs[0]) else None))
  {
    forall i: nat | ListsLast(bs, model, i)
      ensures Routed(IndexOf(bs), states, model) == if IsRemoved(states, bs[i].name) then None else Some(bs[i])
    {
      RouteOfListed(bs, states, model, i);
    }
    if forall b :: b in bs ==> model !in b.models {
      forall p, i: nat | ServesLongest(bs, states, model, p, i)
        ensures Routed(IndexOf(bs), states, model) == Some(bs[i])
      {
        RouteByPrefix(bs, states, model, p, i);
      }
      if forall p, i: nat :: !Serves(bs, states, model, p, i) {
        RouteOfRest(bs, states, model);
      }
    }
  }

  /** Over every run: a listed model has no route exactly if the last backend that lists it has
      failed out. No other backend that lists it is looked at. */
  lemma ListedUnroutableExactly(events: seq<Health.Event>, bs: seq<Backend>, model: string)
    requires DistinctNames(bs) && LastListing(bs, model).Some?
    ensures Routed(IndexOf(bs), Health.Run(events).states, model).None? <==>
            FailedOut(events, LastListing(bs, model).value.name)
  {
    var ix, states := IndexOf(bs), Health.Run(events).states;
    IndexIsScan(bs, model);
    IndexedNamesResolve(bs);
    assert ix.exact[model] == LastListing(bs, model).value.name;
    RemovedExactHitIsFinal(ix, states, model);
    RemovedIffFailedOut(events, ix.exact[model]);
  }

  /** A run that leaves a model without a route although a backend in service lists it. */
  lemma ServiceableButUnroutable(a: Backend, b: Backend, cfg: Health.PollConfig)
    requires a == Backend("a", Custom, "a", ["m"]) && b == Backend("b", Custom, "b", ["m"])
    requires cfg.enabled && cfg.removeThreshold == 1
    ensures
      var events := [Health.EditSettings("b", cfg)] + [Health.BeginProbe("b", false)] +
        [Health.EndProbe(Health.Failure("down"))];
      var states := Health.Run(events).states;
      !IsRemoved(states, "a") && "m" in a.models && Routed(IndexOf([a, b]), states, "m").None?
  {
    var edit, begin, end := Health.EditSettings("b", cfg), Health.BeginProbe("b", false),
      Health.EndProbe(Health.Failure("down"));
    Health.RunMore([], edit);
    Health.RunMore([edit], begin);
    Health.RunMore([edit] + [begin], end);
    assert [] + [edit] == [edit];
    var s0 := Health.Run([edit]);
    assert s0 == Health.System(map[], map["b" := cfg], Health.Idle);
    var s1 := Health.Run([edit] + [begin]);
    assert s1.poll == Health.Probing("b", false, cfg) && s1.configs == s0.configs && s1.states == map[];
    var states := Health.Run([edit] + [begin] + [end]).states;
    assert states["b"].level == Health.Removed && "a" !in states;
    assert [a, b][..1] == [a] && [a, b][1] == b && "a" != "b";
    IndexIsScan([a, b], "m");
    IndexedNamesResolve([a, b]);
    RemovedExactHitIsFinal(IndexOf([a, b]), states, "m");
  }

  // ---------------------------------------------------------------------- catalogue

  /** Catalogue entries: a model and the backend that offers it. */
  type Entry = (string, string)

  predicate Listed(states: Health.States, a: Entry, b: Entry) {
    RouteRank(states, a.1) < RouteRank(states, b.1) ||
    (RouteRank(states, a.1) == RouteRank(states, b.1) && JsonText.AtMost(a.0, b.0))
  }

  function ByRank(states: Health.States): (Entry, Entry) -> bool {
    (a, b) => Listed(states, a, b)
  }

  function Entries(models: seq<string>, name: string): (r: seq<Entry>)
    ensures |r| == |models| && forall i :: 0 <= i < |r| ==> r[i] == (models[i], name)
  {
    seq(|models|, i requires 0 <= i < |models| => (models[i], name))
  }

  /** Of neighbours with the same model the first stays. */
  function Dedup(s: seq<Entry>): seq<Entry> {
    if |s| <= 1 then s
    else
      var init := Dedup(s[..|s| - 1]);
      if init != [] && init[|init| - 1].0 == s[|s| - 1].0 then init else init + [s[|s| - 1]]
  }

  /** A model on offer: some backend that is not removed lists it. */
  ghost predicate OnOffer(ix: Index, states: Health.States, e: Entry) {
    e.1 in ix.backends && !IsRemoved(states, e.1) && e.0 in ix.backends[e.1].models
  }

  lemma ByRankOrders(states: Health.States)
    ensures Orders(ByRank(states))
  {
    forall a, b
      ensures ByRank(states)(a, b) || ByRank(states)(b, a)
    {
      JsonText.AtMostTotal(a.0, b.0);
    }
    forall a, b, c | ByRank(states)(a, b) && ByRank(states)(b, c)
      ensures ByRank(states)(a, c)
    {
      if JsonText.AtMost(a.0, b.0) && JsonText.AtMost(b.0, c.0) {
        JsonText.AtMostTransitive(a.0, b.0, c.0);
      }
    }
  }

  function Models(s: seq<Entry>): set<string> {
    set e | e in s :: e.0
  }

  lemma ModelsAppend(s: seq<Entry>, e: Entry)
    ensures Models(s + [e]) == Models(s) + {e.0}
  {
    assert forall x :: x in s + [e] <==> x in s || x == e;
    assert e in s + [e];
  }

  ghost predicate NoNeighbours(s: seq<Entry>) {
    forall i :: 0 < i < |s| ==> s[i - 1].0 != s[i].0
  }

  lemma {:induction false} DedupSubset(s: seq<Entry>)
    ensures forall e :: e in Dedup(s) ==> e in s
    ensures s != [] ==> Dedup(s) != []
  {
    if |s| > 1 {
      DedupSubset(s[..|s| - 1]);
    }
  }

  lemma {:induction false} DedupModels(s: seq<Entry>)
    ensures Models(Dedup(s)) == Models(s)
  {
    if |s| > 1 {
      var init, last := s[..|s| - 1], s[|s| - 1];
      DedupModels(init);
      DedupSubset(init);
      assert s == init + [last];
      ModelsAppend(init, last);
      ModelsAppend(Dedup(init), last);
      var d := Dedup(init);
      if d[|d| - 1].0 == last.0 {
        assert d[|d| - 1] in d;
      }
    }
  }

  lemma {:induction false} DedupSorted(s: seq<Entry>, le: (Entry, Entry) -> bool)
    requires Sorted(s, le)
    ensures NoNeighbours(Dedup(s)) && Sorted(Dedup(s), le)
  {
    if |s| > 1 {
      var init, last := s[..|s| - 1], s[|s| - 1];
      DedupSorted(init, le);
      DedupSubset(init);
      forall i | 0 <= i < |Dedup(init)|
        ensures le(Dedup(init)[i], last)
      {
        assert Dedup(init)[i] in init;
        var j :| 0 <= j < |init| && init[j] == Dedup(init)[i];
        assert le(s[j], s[|s| - 1]);
      }
    }
  }

  /** `all` lists the offers in the order the backends happened to be visited. */
  ghost predicate ListsOffers(ix: Index, states: Health.States, all: seq<Entry>) {
    forall e :: e in all <==> OnOffer(ix, states, e)
  }

  function Catalogue(states: Health.States, all: seq<Entry>): seq<Entry> {
    Dedup(StableSort(all, ByRank(states)))
  }

  ghost predicate IsCatalogueOf(ix: Index, states: Health.States, out: seq<Entry>) {
    exists all :: ListsOffers(ix, states, all) && out == Catalogue(states, all)
  }

  lemma SameElements(a: seq<Entry>, b: seq<Entry>)
    requires multiset(a) == multiset(b)
    ensures forall e :: e in a <==> e in b
  {
    assert forall e :: e in a <==> e in multiset(a);
    assert forall e :: e in b <==> e in multiset(b);
  }

  /** In whatever order the backends are visited: the catalogue holds offers only and every offered
      model, by rank and then by name, and no model twice in a row. */
  lemma CatalogueHoldsOffers(ix: Index, states: Health.States, all: seq<Entry>)
    requires ListsOffers(ix, states, all)
    ensures forall e :: e in Catalogue(states, all) ==> OnOffer(ix, states, e)
    ensures forall e :: OnOffer(ix, states, e) ==> e.0 in Models(Catalogue(states, all))
    ensures Sorted(Catalogue(states, all), ByRank(states)) && NoNeighbours(Catalogue(states, all))
  {
    var sorted := StableSort(all, ByRank(states));
    ByRankOrders(states);
    SortSorts(all, ByRank(states));
    SameElements(all, sorted);
    DedupSubset(sorted);
    DedupModels(sorted);
    DedupSorted(sorted, ByRank(states));
    forall e | OnOffer(ix, states, e)
      ensures e.0 in Models(Catalogue(states, all))
    {
      assert e in all;
    }
  }

  lemma {:induction false} NoRepeatBetween(states: Health.States, out: seq<Entry>, i: nat, j: nat)
    requires Sorted(out, ByRank(states)) && NoNeighbours(out) && i < j < |out|
    requires RouteRank(states, out[i].1) == RouteRank(states, out[j].1)
    ensures out[i].0 != out[j].0
  {
    var le := ByRank(states);
    assert le(out[i], out[i + 1]);
    if i + 1 < j && out[i].0 == out[j].0 {
      assert le(out[i + 1], out[j]);
      JsonText.AtMostAntisymmetric(out[i].0, out[i + 1].0);
    }
  }

  /** Each model stands at most once among the healthy offers and at most once among the degraded
      ones; degraded offers come last. */
  lemma CatalogueByRank(ix: Index, states: Health.States, all: seq<Entry>, i: nat, j: nat)
    requires ListsOffers(ix, states, all) && i < j < |Catalogue(states, all)|
    ensures
      var out := Catalogue(states, all);
      RouteRank(states, out[i].1) <= RouteRank(states, out[j].1) &&
      (RouteRank(states, out[i].1) == RouteRank(states, out[j].1) ==> out[i].0 != out[j].0)
  {
    CatalogueHoldsOffers(ix, states, all);
    var out := Catalogue(states, all);
    assert ByRank(states)(out[i], out[j]);
    if RouteRank(states, out[i].1) == RouteRank(states, out[j].1) {
      NoRepeatBetween(states, out, i, j);
    }
  }

  lemma {:induction false} DedupLast(s: seq<Entry>)
    requires s != []
    ensures Dedup(s) != [] && Dedup(s)[|Dedup(s)| - 1].0 == s[|s| - 1].0
  {
    if |s| > 1 {
      DedupLast(s[..|s| - 1]);
    }
  }

  /** Where the model changes, both sides are deduplicated on their own. */
  lemma {:induction false} DedupSplit(a: seq<Entry>, b: seq<Entry>)
    requires a != [] && b != [] && a[|a| - 1].0 != b[0].0
    ensures Dedup(a + b) == Dedup(a) + Dedup(b)
  {
    var init, last := b[..|b| - 1], b[|b| - 1];
    assert (a + b)[..|a + b| - 1] == a + init;
    DedupLast(a);
    if init == [] {
      assert a + init == a;
    } else {
      DedupSplit(a, init);
      DedupLast(init);
    }
  }

  ghost predicate Twice(out: seq<Entry>, m: string) {
    exists i, j :: 0 <= i < j < |out| && out[i].0 == m == out[j].0
  }

  lemma TwiceInBoth(a: seq<Entry>, b: seq<Entry>, m: string)
    requires m in Models(a) && m in Models(b)
    ensures Twice(a + b, m)
  {
    var e :| e in a && e.0 == m;
    var f :| f in b && f.0 == m;
    var i :| 0 <= i < |a| && a[i] == e;
    var j :| 0 <= j < |b| && b[j] == f;
    assert (a + b)[i].0 == m == (a + b)[|a| + j].0;
  }

  /** After position `p` and up to `q` the model changes somewhere for the first time. */
  lemma {:induction false} LeavesRun(s: seq<Entry>, p: nat, q: nat) returns (k: nat)
    requires p < q < |s| && s[p].0 != s[q].0
    ensures p <= k < q && s[k].0 == s[p].0 && s[k + 1].0 != s[k].0
    decreases q - p
  {
    k := p;
    if s[p + 1].0 == s[p].0 {
      k := LeavesRun(s, p + 1, q);
    }
  }

  /** A model that stands on both sides of another is kept twice. */
  lemma DedupKeepsBoth(s: seq<Entry>, p: nat, q: nat, r: nat)
    requires p < q < r < |s| && s[p].0 == s[r].0 != s[q].0
    ensures Twice(Dedup(s), s[p].0)
  {
    var k := LeavesRun(s, p, q);
    var a, b := s[..k + 1], s[k + 1..];
    assert s == a + b && b[0] == s[k + 1];
    assert a[k] in a && a[k].0 == s[p].0;
    assert b[r - k - 1] in b && b[r - k - 1].0 == s[p].0;
    BothKeepOne(a, b, s[p].0);
  }

  lemma BothKeepOne(a: seq<Entry>, b: seq<Entry>, m: string)
    requires a != [] && b != [] && a[|a| - 1].0 != b[0].0 && m in Models(a) && m in Models(b)
    ensures Twice(Dedup(a + b), m)
  {
    DedupSplit(a, b);
    DedupModels(a);
    DedupModels(b);
    TwiceInBoth(Dedup(a), Dedup(b), m);
  }

  ghost predicate OfferedAt(ix: Index, states: Health.States, m: string, rank: nat) {
    exists name :: OnOffer(ix, states, (m, name)) && RouteRank(states, name) == rank
  }

  /** Another model on offer is listed between the healthy and the degraded offers of `m`. */
  predicate Parts(states: Health.States, m: string, e: Entry) {
    e.0 != m && if RouteRank(states, e.1) == 0 then JsonText.AtMost(m, e.0) else JsonText.AtMost(e.0, m)
  }

  ghost predicate Parted(ix: Index, states: Health.States, m: string) {
    exists e :: OnOffer(ix, states, e) && Parts(states, m, e)
  }

  /** In a sorted list, what is not listed before another stands after it. */
  lemma PlacedInOrder(s: seq<Entry>, le: (Entry, Entry) -> bool, a: Entry, b: Entry) returns (i: nat, j: nat)
    requires Orders(le) && Sorted(s, le) && a in s && b in s && !le(b, a)
    ensures i < j < |s| && s[i] == a && s[j] == b
  {
    i :| 0 <= i < |s| && s[i] == a;
    j :| 0 <= j < |s| && s[j] == b;
  }

  lemma PartedIsTwice(states: Health.States, sorted: seq<Entry>, h: Entry, e: Entry, d: Entry)
    requires Sorted(sorted, ByRank(states)) && h in sorted && e in sorted && d in sorted
    requires h.0 == d.0 && RouteRank(states, h.1) == 0 && RouteRank(states, d.1) == 1 && Parts(states, h.0, e)
    ensures Twice(Dedup(sorted), h.0)
  {
    var le := ByRank(states);
    ByRankOrders(states);
    if JsonText.AtMost(h.0, e.0) && JsonText.AtMost(e.0, h.0) {
      JsonText.AtMostAntisymmetric(h.0, e.0);
    }
    assert !le(e, h) && !le(d, e);
    var p, q := PlacedInOrder(sorted, le, h, e);
    var r :| 0 <= r < |sorted| && sorted[r] == d;
    assert !(r <= q);
    DedupKeepsBoth(sorted, p, q, r);
  }

  lemma TwiceIsParted(ix: Index, states: Health.States, all: seq<Entry>, m: string)
    requires ListsOffers(ix, states, all) && Twice(Catalogue(states, all), m)
    ensures OfferedAt(ix, states, m, 0) && OfferedAt(ix, states, m, 1) && Parted(ix, states, m)
  {
    var out := Catalogue(states, all);
    var i, j :| 0 <= i < j < |out| && out[i].0 == m == out[j].0;
    CatalogueHoldsOffers(ix, states, all);
    CatalogueByRank(ix, states, all, i, j);
    assert out[i] in out && out[j] in out && out[i + 1] in out;
    assert out[i] == (m, out[i].1) && out[j] == (m, out[j].1);
    assert ByRank(states)(out[i], out[i + 1]) && ByRank(states)(out[i], out[j]);
    assert out[i + 1].0 != m;
    assert ByRank(states)(out[i + 1], out[j]);
    assert Parts(states, m, out[i + 1]);
  }

  /** A model is listed twice exactly if a healthy and a degraded backend offer it and another model
      on offer is listed between the two: a healthy one after it, or a degraded one before it. */
  lemma CatalogueRepeatsExactly(ix: Index, states: Health.States, all: seq<Entry>, m: string)
    requires ListsOffers(ix, states, all)
    ensures Twice(Catalogue(states, all), m) <==>
            OfferedAt(ix, states, m, 0) && OfferedAt(ix, states, m, 1) && Parted(ix, states, m)
  {
    if Twice(Catalogue(states, all), m) {
      TwiceIsParted(ix, states, all, m);
    }
    if OfferedAt(ix, states, m, 0) && OfferedAt(ix, states, m, 1) && Parted(ix, states, m) {
      var healthy :| OnOffer(ix, states, (m, healthy)) && RouteRank(states, healthy) == 0;
      var degraded :| OnOffer(ix, states, (m, degraded)) && RouteRank(states, degraded) == 1;
      var e :| OnOffer(ix, states, e) && Parts(states, m, e);
      var sorted := StableSort(all, ByRank(states));
      ByRankOrders(states);
      SortSorts(all, ByRank(states));
      SameElements(all, sorted);
      PartedIsTwice(states, sorted, (m, healthy), e, (m, degraded));
    }
  }

  /** The same model can stand in both parts: "m" is offered by "a", healthy, and by "z", degraded,
      and another model stands between the two. */
  lemma CatalogueMayRepeat(states: Health.States, all: seq<Entry>)
    requires states == map["z" := Health.ProviderState(Health.Degraded, 3, None, None)]
    requires all in {[("m", "a"), ("n", "a"), ("m", "z")], [("m", "z"), ("m", "a"), ("n", "a")]}
    ensures Catalogue(states, all) == [("m", "a"), ("n", "a"), ("m", "z")]
  {
    var le := ByRank(states);
    var ma, na, mz := ("m", "a"), ("n", "a"), ("m", "z");
    assert "a" != "z" && "m" != "n" && JsonText.AtMost("m", "n") && !JsonText.AtMost("n", "m");
    assert le(ma, na) && le(na, mz) && le(ma, mz) && !le(mz, ma) && !le(mz, na);
    InsertThree(ma, na, mz, le);
    assert StableSort(all, le) == [ma, na, mz];
    assert [ma, na, mz][..2] == [ma, na] && [ma, na][..1] == [ma];
    assert Dedup([ma, na]) == [ma, na];
  }

  lemma InsertThree(a: Entry, b: Entry, c: Entry, le: (Entry, Entry) -> bool)
    requires le(a, b) && le(b, c) && !le(c, a) && !le(c, b)
    ensures StableSort([a, b, c], le) == [a, b, c] == StableSort([c, a, b], le)
  {
    assert [a, b, c][1..] == [b, c] && [b, c][1..] == [c] && [c][1..] == [];
    assert [c, a, b][1..] == [a, b] && [a, b][1..] == [b] && [b][1..] == [];
    assert StableSort([c], le) == [c] && StableSort([b], le) == [b];
    assert StableSort([b, c], le) == [b, c] && StableSort([a, b], le) == [a, b];
    assert Insert(c, [b], le) == [b] + Insert(c, [], le);
    assert Insert(c, [a, b], le) == [a] + Insert(c, [b], le);
  }

  // ----------------------------------------------------------------------- registry

  class BackendRegistry {
    var backends: map<string, Backend>
    var prefixes: map<string, string>
    var exact: map<string, string>
    /** Shared with the monitor once attached. */
    var health: Option<Health.HealthMonitor>

    constructor ()
      ensures Ix() == EMPTY && health == None
    {
      backends, prefixes, exact, health := map[], map[], map[], None;
    }

    function Ix(): Index
      reads this
    {
      Index(backends, prefixes, exact)
    }

    /** Without a monitor every backend counts as healthy. */
    function States(): Health.States
      reads this, if health.Some? then {health.value} else {}
    {
      if health.Some? then health.value.states else map[]
    }

    method AttachHealth(monitor: Health.HealthMonitor)
      modifies this
      ensures Ix() == old(Ix()) && health == if old(health).Some? then old(health) else Some(monitor)
    {
      if health.None? {
        health := Some(monitor);
      }
    }

    method Register(b: Backend)
      modifies this
      ensures Ix() == Registered(old(Ix()), b) && health == old(health)
    {
      var claimed := PrefixFor(b.provider);
      if claimed.Some? && (b.provider != Mock || backends == map[]) {
        prefixes := prefixes[claimed.value := b.name];
      }
      for i := 0 to |b.models|
        invariant backends == old(backends) && health == old(health)
        invariant prefixes == Registered(old(Ix()), b).prefixes
        invariant exact == WithModels(old(exact), b.models[..i], b.name)
      {
        assert b.models[..i + 1][..i] == b.models[..i];
        exact := exact[b.models[i] := b.name];
      }
      assert b.models[..|b.models|] == b.models;
      backends := backends[b.name := b];
    }

    /** Replaces everything at once: the same as registering the list into an empty registry. The
        health states are not touched. */
    method ReplaceAll(bs: seq<Backend>)
      modifies this
      ensures Ix() == IndexOf(bs) && health == old(health)
    {
      var built := new BackendRegistry();
      for i := 0 to |bs|
        invariant fresh(built) && built.Ix() == IndexOf(bs[..i])
        invariant unchanged(this)
      {
        assert bs[..i + 1][..i] == bs[..i];
        built.Register(bs[i]);
      }
      assert bs[..|bs|] == bs;
      backends, prefixes, exact := built.backends, built.prefixes, built.exact;
    }

    /** The prefixes are visited in no particular order. */
    method Route(model: string) returns (r: Option<Backend>)
      ensures r == Routed(Ix(), States(), model)
    {
      if model in exact && exact[model] in backends {
        return if IsRemoved(States(), exact[model]) then None else Some(backends[exact[model]]);
      }
      var best: Option<string>, bestRank := None, 0;
      var todo := prefixes.Keys;
      while todo != {}
        invariant todo <= prefixes.Keys
        invariant best.Some? ==> Eligible(Ix(), States(), model, best.value) && best.value !in todo
        invariant best.Some? ==> bestRank == RouteRank(States(), prefixes[best.value])
        invariant forall q :: Eligible(Ix(), States(), model, q) && q !in todo ==> best.Some? && |q| <= |best.value|
      {
        var p :| p in todo;
        todo := todo - {p};
        if Eligible(Ix(), States(), model, p) {
          var rank := RouteRank(States(), prefixes[p]);
          if best.Some? && |p| == |best.value| {
            PrefixesOfSameLength(model, p, best.value);
          }
          if best.None? || |p| > |best.value| || (|p| == |best.value| && rank < bestRank) {
            best, bestRank := Some(p), rank;
          }
        }
      }
      if best.Some? {
        assert IsLongest(Ix(), States(), model, best.value);
        forall p | IsLongest(Ix(), States(), model, p)
          ensures p == best.value
        {
          LongestIsUnique(Ix(), States(), model, p, best.value);
        }
        return Some(backends[prefixes[best.value]]);
      }
      if |backends| == 1 {
        var name :| name in backends.Keys;
        forall other | other in backends
          ensures other == name
        {
          OnlyBackend(backends, other, name);
        }
        return if IsRemoved(States(), name) then None else Some(backends[name]);
      }
      return None;
    }

    /** The backends are visited in no particular order. */
    method ModelsCatalog() returns (out: seq<Entry>)
      ensures IsCatalogueOf(Ix(), States(), out)
    {
      out := [];
      var todo := backends.Keys;
      while todo != {}
        invariant todo <= backends.Keys
        invariant forall e :: e in out <==> OnOffer(Ix(), States(), e) && e.1 !in todo
      {
        var name :| name in todo;
        todo := todo - {name};
        if !IsRemoved(States(), name) {
          var more := Entries(backends[name].models, name);
          assert forall m :: m in backends[name].models ==> (m, name) in more;
          out := out + more;
        }
      }
      ghost var all := out;
      out := StableSort(out, ByRank(States()));
      out := Dedup(out);
      assert ListsOffers(Ix(), States(), all) && out == Catalogue(States(), all);
    }
  }
}
