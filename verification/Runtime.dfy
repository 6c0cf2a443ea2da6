/** Dependency-ordered boot of a role's modules: a depth-first sort with cycle detection,
    then one attempt per module in that order. */
module Runtime {
  import opened Wrappers
  import opened Json
  import opened Fields
  import Config

  datatype RuntimeError =
    | MissingModule(name: string)
    | DependencyCycle(at: string)
    | ModuleError(message: string)
    | ConfigError(message: string)

  /** The text a skipped module is listed with. */
  function Display(e: RuntimeError): string {
    match e
    case MissingModule(m) => "missing required module: " + m
    case DependencyCycle(at) => "dependency cycle: cycle at " + at
    case ModuleError(m) => "module error: " + m
    case ConfigError(m) => "config error: " + m
  }

  datatype Module = Module(deps: seq<string>, optional: bool, defaultConfig: Json)

  type Registry = map<string, Module>

  // ------------------------------------------------------------ requirement graph

  /** A wanted module `a` requires the wanted module `b`. */
  ghost predicate Needs(reg: Registry, want: set<string>, a: string, b: string) {
    a in want && a in reg && b in want && b in reg[a].deps
  }

  /** A walk along requirements. */
  ghost predicate IsPath(reg: Registry, want: set<string>, p: seq<string>) {
    forall i {:trigger p[i]} :: 0 <= i < |p| - 1 ==> Needs(reg, want, p[i], p[i + 1])
  }

  /** A closed walk along requirements that passes through `at`. */
  ghost predicate IsCycle(reg: Registry, want: set<string>, c: seq<string>, at: string) {
    c != [] && c[0] == at && IsPath(reg, want, c) && Needs(reg, want, c[|c| - 1], at)
  }

  ghost predicate Acyclic(reg: Registry, want: set<string>) {
    forall c: seq<string>, at: string :: !IsCycle(reg, want, c, at)
  }

  /** The error names a module that lies on a cycle of requirements. */
  ghost predicate ReportsCycle(reg: Registry, want: set<string>, e: RuntimeError) {
    e.DependencyCycle? && exists c :: IsCycle(reg, want, c, e.at)
  }

  function Names(s: seq<string>): set<string> {
    set n | n in s
  }

  ghost predicate Distinct(s: seq<string>) {
    forall i, j :: 0 <= i < j < |s| ==> s[i] != s[j]
  }

  /** No name twice, and every wanted requirement of a listed name stands before it. */
  ghost predicate Ordered(reg: Registry, want: set<string>, order: seq<string>) {
    Distinct(order) &&
    forall i, b :: 0 <= i < |order| && Needs(reg, want, order[i], b) ==> b in order[..i]
  }

  ghost predicate IsTopologicalOrder(reg: Registry, want: set<string>, order: seq<string>) {
    Ordered(reg, want, order) && Names(order) == want
  }

  /** An order leaves no room for a closed walk: along it every step goes strictly back. */
  lemma OrderRefutesCycles(reg: Registry, want: set<string>, order: seq<string>)
    requires IsTopologicalOrder(reg, want, order)
    ensures Acyclic(reg, want)
  {
    forall c: seq<string>, at: string | IsCycle(reg, want, c, at)
      ensures false
    {
      var first := WalkGoesBack(reg, want, order, c, |c| - 1);
    }
  }

  lemma {:induction false} WalkGoesBack(reg: Registry, want: set<string>, order: seq<string>, c: seq<string>, n: nat)
    returns (at: nat)
    requires IsTopologicalOrder(reg, want, order)
    requires IsPath(reg, want, c) && n < |c| && c[0] in want
    ensures at < |order| && order[at] == c[0]
    ensures c[n] in order[..at + 1]
  {
    if n == 0 {
      assert c[0] in order;
      at :| 0 <= at < |order| && order[at] == c[0];
    } else {
      at := WalkGoesBack(reg, want, order, c, n - 1);
      var j :| 0 <= j < at + 1 && order[j] == c[n - 1];
      assert Needs(reg, want, c[n - 1], c[n - 1 + 1]);
      assert c[n] in order[..j];
    }
  }

  // ---------------------------------------------------------------- depth-first sort

  /** The three collections `visit` updates. */
  class Sorter {
    const reg: Registry
    const want: set<string>
    var visited: set<string>
    var visiting: set<string>
    var order: seq<string>

    constructor (reg: Registry, want: set<string>)
      ensures this.reg == reg && this.want == want
      ensures visited == {} && visiting == {} && order == []
    {
      this.reg, this.want := reg, want;
      visited, visiting, order := {}, {}, [];
    }

    ghost predicate Valid()
      reads this
    {
      visited !! visiting && visited + visiting <= want && want <= reg.Keys &&
      visited == Names(order) && Ordered(reg, want, order)
    }

    /** `path` is the chain of open calls; its names are exactly those being visited. */
    method Visit(name: string, ghost path: seq<string>) returns (r: Result<(), RuntimeError>)
      requires Valid() && name in want
      requires Names(path) == visiting && IsPath(reg, want, path)
      requires path != [] ==> Needs(reg, want, path[|path| - 1], name)
      modifies this
      ensures r.Ok? ==> Valid() && visiting == old(visiting) && name in visited && old(order) <= order
      ensures r.Err? ==> ReportsCycle(reg, want, r.error)
      ensures name in old(visited) ==> r.Ok? && order == old(order)
      ensures name !in old(visited) && name !in old(visiting) &&
        (forall b :: Needs(reg, want, name, b) ==> b in old(visited))
        ==> r.Ok? && order == old(order) + [name]
      decreases want - visiting - visited
    {
      if name in visited {
        return Ok(());
      }
      if name in visiting {
        ClosesCycle(reg, want, path, name);
        return Err(DependencyCycle(name));
      }
      ghost var unseen := want - visiting - visited;
      visiting := visiting + {name};
      var deps := reg[name].deps;
      ghost var inner := path + [name];
      LongerPath(reg, want, path, name);
      for i := 0 to |deps|
        invariant Valid() && visiting == old(visiting) + {name} && old(order) <= order
        invariant forall j :: 0 <= j < i && deps[j] in want ==> deps[j] in visited
        invariant (forall b :: Needs(reg, want, name, b) ==> b in old(visited)) ==> order == old(order)
      {
        if deps[i] in want {
          assert Needs(reg, want, name, deps[i]);
          assert old(visited) <= visited && name in unseen;
          assert want - visiting - visited < unseen;
          r := Visit(deps[i], inner);
          if r.Err? {
            return;
          }
        }
      }
      visiting := visiting - {name};
      visited := visited + {name};
      Append(reg, want, order, name);
      order := order + [name];
      return Ok(());
    }
  }

  /** A call that comes back to an open one closes a walk. */
  lemma ClosesCycle(reg: Registry, want: set<string>, path: seq<string>, name: string)
    requires name in path && IsPath(reg, want, path) && Needs(reg, want, path[|path| - 1], name)
    ensures ReportsCycle(reg, want, DependencyCycle(name))
  {
    var k :| 0 <= k < |path| && path[k] == name;
    assert IsCycle(reg, want, path[k..], name);
  }

  lemma LongerPath(reg: Registry, want: set<string>, path: seq<string>, name: string)
    requires IsPath(reg, want, path) && (path != [] ==> Needs(reg, want, path[|path| - 1], name))
    ensures IsPath(reg, want, path + [name]) && Names(path + [name]) == Names(path) + {name}
  {
    assert forall n :: n in path + [name] <==> n in path || n == name;
  }

  lemma Append(reg: Registry, want: set<string>, order: seq<string>, name: string)
    requires Ordered(reg, want, order) && name !in order
    requires forall b :: Needs(reg, want, name, b) ==> b in order
    ensures Ordered(reg, want, order + [name])
    ensures Names(order + [name]) == Names(order) + {name}
  {
    var longer := order + [name];
    forall i, b | 0 <= i < |longer| && Needs(reg, want, longer[i], b)
      ensures b in longer[..i]
    {
      assert longer[..i] == order[..i];
    }
  }

  /** Succeeds exactly when the requirements among the wanted modules have no cycle. The order
      then holds each wanted module once, after what it requires; a reported cycle is real; and a
      list that is already in order is returned as it is. */
  method TopoSort(reg: Registry, want: seq<string>) returns (r: Result<seq<string>, RuntimeError>)
    requires forall n :: n in want ==> n in reg
    ensures r.Ok? <==> Acyclic(reg, Names(want))
    ensures r.Ok? ==> IsTopologicalOrder(reg, Names(want), r.value)
    ensures r.Err? ==> ReportsCycle(reg, Names(want), r.error)
    ensures Ordered(reg, Names(want), want) ==> r == Ok(want)
  {
    var wanted := Names(want);
    var s := new Sorter(reg, wanted);
    for i := 0 to |want|
      invariant s.reg == reg && s.want == wanted && fresh(s)
      invariant s.Valid() && s.visiting == {}
      invariant forall j :: 0 <= j < i ==> want[j] in s.visited
      invariant Ordered(reg, wanted, want) ==> s.order == want[..i]
    {
      ghost var before := s.visited;
      var v := s.Visit(want[i], []);
      if v.Err? {
        assert !Acyclic(reg, wanted);
        return Err(v.error);
      }
    }
    assert Ordered(reg, wanted, want) ==> s.order == want;
    OrderRefutesCycles(reg, wanted, s.order);
    return Ok(s.order);
  }

  // --------------------------------------------------------------------------- boot

  datatype Role = Server | Client | Custom(id: string)

  const SERVER_MODULES: seq<string> := [
    "lan-share-server", "lan-auth", "lan-member-registry", "lan-usage",
    "lan-discovery-broadcast", "lan-web-console", "coord-client"
  ]
  const CLIENT_MODULES: seq<string> := [
    "lan-discovery-client", "lan-share-client", "lan-identity", "lan-usage-view", "coord-client"
  ]

  function Strings(items: seq<Json>): seq<string> {
    if items == [] then []
    else (if items[0].Str? then [items[0].s] else []) + Strings(items[1..])
  }

  /** The modules a role asks for; a custom role lists them in its overrides. */
  function Wanted(role: Role, overrides: Json): Result<seq<string>, RuntimeError> {
    match role
    case Server => Ok(SERVER_MODULES)
    case Client => Ok(CLIENT_MODULES)
    case Custom(id) =>
      match GetArr(overrides, "modules")
      case None => Err(ConfigError("custom role " + id + ": missing modules list"))
      case Some(items) => Ok(Strings(items))
  }

  /** The names in a list, in order; what is no name is left out. */
  ghost function NamesIn(items: seq<Json>): seq<string> {
    if items == [] then []
    else
      var init, last := items[..|items| - 1], TextIn(Some(items[|items| - 1]));
      NamesIn(init) + if last.Some? then [last.value] else []
  }

  lemma {:induction false} StringsFirst(items: seq<Json>, last: Json)
    ensures Strings(items + [last]) == Strings(items) + if last.Str? then [last.s] else []
  {
    var all := items + [last];
    if items == [] {
      assert all[0] == last && all[1..] == [];
      assert Strings(all[1..]) == [];
    } else {
      assert all[0] == items[0] && all[1..] == items[1..] + [last];
      StringsFirst(items[1..], last);
    }
  }

  lemma {:induction false} StringsAre(items: seq<Json>)
    ensures Strings(items) == NamesIn(items)
  {
    if items != [] {
      var init, last := items[..|items| - 1], items[|items| - 1];
      StringsAre(init);
      StringsFirst(init, last);
      assert init + [last] == items;
    }
  }

  /** A custom role wants the names in its list of modules, in order, and is an error without a list. */
  lemma CustomWants(id: string, overrides: Json)
    ensures
      var items := ItemsIn(Field(Some(overrides), "modules"));
      if items.None? then Wanted(Custom(id), overrides).Err?
      else Wanted(Custom(id), overrides) == Ok(NamesIn(items.value))
  {
    var items := ItemsIn(Field(Some(overrides), "modules"));
    if items.Some? {
      StringsAre(items.value);
    }
  }

  /** The configuration handed to a module. */
  function ModuleConfig(reg: Registry, overrides: Json, name: string): Json
    requires name in reg
  {
    Config.Merged(reg[name].defaultConfig, overrides.Get(name).GetOr(Obj(map[])))
  }

  /** Which settings a module is given: its override wins wherever it says something, and its default
      stands wherever the override leaves it alone; without an override of its own, or with one that
      is no object, the default as it is. */
  lemma ModuleConfigExactly(reg: Registry, overrides: Json, name: string, path: seq<string>, leaf: Json)
    requires name in reg && !leaf.Obj?
    ensures
      var own := Field(Some(overrides), name);
      var given, default := ModuleConfig(reg, overrides, name), reg[name].defaultConfig;
      if own.Some? && own.value.Obj? && default.Obj? then
        Config.Lookup(given, path) == Some(leaf) <==>
        Config.Lookup(own.value, path) == Some(leaf) ||
        (Config.Lookup(default, path) == Some(leaf) && Config.Untouched(own.value, path))
      else given == default
  {
    var own := overrides.Get(name).GetOr(Obj(map[]));
    var default := reg[name].defaultConfig;
    Config.MergeUnit(default);
    if own.Obj? && default.Obj? {
      Config.MergedLeaf(default, own, path, leaf);
    }
  }

  datatype BootResult = BootResult(booted: seq<string>, skipped: seq<(string, string)>)

  /** Applying a module: its name, its configuration, and the modules attempted before it
      (which may have left services behind). None is success. */
  type Apply = (string, Json, seq<string>) -> Option<RuntimeError>

  function Outcome(reg: Registry, overrides: Json, apply: Apply, order: seq<string>, i: nat): Option<RuntimeError>
    requires i < |order| && forall n :: n in order ==> n in reg
  {
    apply(order[i], ModuleConfig(reg, overrides, order[i]), order[..i])
  }

  /** The modules among the first `n` whose attempt succeeded, in order. */
  ghost function Successes(reg: Registry, overrides: Json, apply: Apply, order: seq<string>, n: nat): seq<string>
    requires n <= |order| && forall m :: m in order ==> m in reg
  {
    if n == 0 then []
    else
      Successes(reg, overrides, apply, order, n - 1) +
      (if Outcome(reg, overrides, apply, order, n - 1).None? then [order[n - 1]] else [])
  }

  /** The modules among the first `n` whose attempt failed, with the reason, in order. */
  ghost function Failures(reg: Registry, overrides: Json, apply: Apply, order: seq<string>, n: nat)
      : seq<(string, string)>
    requires n <= |order| && forall m :: m in order ==> m in reg
  {
    if n == 0 then []
    else
      Failures(reg, overrides, apply, order, n - 1) +
      (match Outcome(reg, overrides, apply, order, n - 1)
       case None => []
       case Some(e) => [(order[n - 1], Display(e))])
  }

  /** The attempt at `i` is the first one that stops the boot. */
  ghost predicate StopsAt(reg: Registry, overrides: Json, apply: Apply, order: seq<string>, i: nat)
    requires forall m :: m in order ==> m in reg
  {
    i < |order| &&
    Outcome(reg, overrides, apply, order, i).Some? && !reg[order[i]].optional &&
    forall j :: 0 <= j < i && Outcome(reg, overrides, apply, order, j).Some? ==> reg[order[j]].optional
  }

  /** The attempts made along an order, and how they end. */
  ghost predicate AttemptsEnd(reg: Registry, overrides: Json, apply: Apply, order: seq<string>,
                              r: Result<BootResult, RuntimeError>)
    requires forall m :: m in order ==> m in reg
  {
    match r
    case Ok(res) =>
      (forall i :: !StopsAt(reg, overrides, apply, order, i)) &&
      res.booted == Successes(reg, overrides, apply, order, |order|) &&
      res.skipped == Failures(reg, overrides, apply, order, |order|)
    case Err(e) =>
      exists i :: StopsAt(reg, overrides, apply, order, i) && Outcome(reg, overrides, apply, order, i) == Some(e)
  }

  method ApplyAll(reg: Registry, overrides: Json, apply: Apply, order: seq<string>)
    returns (r: Result<BootResult, RuntimeError>)
    requires forall m :: m in order ==> m in reg
    ensures AttemptsEnd(reg, overrides, apply, order, r)
  {
    var booted: seq<string>, skipped: seq<(string, string)> := [], [];
    for i := 0 to |order|
      invariant booted == Successes(reg, overrides, apply, order, i)
      invariant skipped == Failures(reg, overrides, apply, order, i)
      invariant forall j :: 0 <= j < i && Outcome(reg, overrides, apply, order, j).Some? ==> reg[order[j]].optional
    {
      var name := order[i];
      var config := Config.DeepMerge(reg[name].defaultConfig, overrides.Get(name).GetOr(Obj(map[])));
      var outcome := apply(name, config, order[..i]);
      assert outcome == Outcome(reg, overrides, apply, order, i);
      if outcome.None? {
        booted := booted + [name];
      } else if reg[name].optional {
        skipped := skipped + [(name, Display(outcome.value))];
      } else {
        assert StopsAt(reg, overrides, apply, order, i);
        return Err(outcome.value);
      }
    }
    return Ok(BootResult(booted, skipped));
  }

  /** The first wanted name that is not registered. */
  ghost predicate FirstMissing(reg: Registry, want: seq<string>, name: string) {
    exists i :: 0 <= i < |want| && want[i] == name && name !in reg && forall j :: 0 <= j < i ==> want[j] in reg
  }

  /** Boots the wanted modules in a topological order, or says which of the four things went
      wrong: no module list, a missing module, a cycle, a required module that failed.
      `order` is a witness: the order of the attempts. */
  method Boot(reg: Registry, role: Role, overrides: Json, apply: Apply)
    returns (r: Result<BootResult, RuntimeError>, ghost order: seq<string>)
    ensures Wanted(role, overrides).Err? ==> r == Err(Wanted(role, overrides).error)
    ensures Wanted(role, overrides).Ok? ==>
      var want := Wanted(role, overrides).value;
      if exists n :: n in want && n !in reg then
        r.Err? && r.error.MissingModule? && FirstMissing(reg, want, r.error.name)
      else if !Acyclic(reg, Names(want)) then
        r.Err? && ReportsCycle(reg, Names(want), r.error)
      else
        IsTopologicalOrder(reg, Names(want), order) && (forall n :: n in order ==> n in reg) &&
        AttemptsEnd(reg, overrides, apply, order, r)
  {
    order := [];
    var w := Wanted(role, overrides);
    if w.Err? {
      return Err(w.error), [];
    }
    var want := w.value;
    for i := 0 to |want|
      invariant forall j :: 0 <= j < i ==> want[j] in reg
    {
      if want[i] !in reg {
        return Err(MissingModule(want[i])), [];
      }
    }
    assert forall n :: n in want ==> n in reg;
    var sorted := TopoSort(reg, want);
    if sorted.Err? {
      return Err(sorted.error), [];
    }
    order := sorted.value;
    assert forall n :: n in order ==> n in Names(order);
    r := ApplyAll(reg, overrides, apply, sorted.value);
  }

  function Firsts(s: seq<(string, string)>): (r: seq<string>)
    ensures |r| == |s| && forall i :: 0 <= i < |s| ==> r[i] == s[i].0
  {
    seq(|s|, i requires 0 <= i < |s| => s[i].0)
  }

  /** What one more attempt adds to the two lists. */
  lemma AttemptStep(reg: Registry, overrides: Json, apply: Apply, order: seq<string>, n: nat)
    requires n < |order| && forall m :: m in order ==> m in reg
    ensures
      var booted, booted' := Successes(reg, overrides, apply, order, n), Successes(reg, overrides, apply, order, n + 1);
      var skipped := Firsts(Failures(reg, overrides, apply, order, n));
      var skipped' := Firsts(Failures(reg, overrides, apply, order, n + 1));
      (booted' == booted + [order[n]] && skipped' == skipped) || (booted' == booted && skipped' == skipped + [order[n]])
  {
    var f := Failures(reg, overrides, apply, order, n);
    match Outcome(reg, overrides, apply, order, n)
    case None =>
      assert Failures(reg, overrides, apply, order, n + 1) == f;
    case Some(e) =>
      assert Failures(reg, overrides, apply, order, n + 1) == f + [(order[n], Display(e))];
      assert Successes(reg, overrides, apply, order, n + 1) == Successes(reg, overrides, apply, order, n);
  }

  /** The two lists together hold exactly what the third holds, as often. */
  ghost predicate Partition(a: seq<string>, b: seq<string>, all: seq<string>) {
    multiset(a) + multiset(b) == multiset(all)
  }

  /** Which modules booted and which failed and why, from the attempts themselves: a module is given
      its name, its settings and the modules attempted before it. */
  lemma {:induction false} AttemptsExactly(reg: Registry, overrides: Json, apply: Apply, order: seq<string>, n: nat,
                                           m: string, reason: string)
    requires n <= |order| && forall k :: k in order ==> k in reg
    ensures m in Successes(reg, overrides, apply, order, n) <==>
            exists i :: 0 <= i < n && order[i] == m && apply(m, ModuleConfig(reg, overrides, m), order[..i]).None?
    ensures (m, reason) in Failures(reg, overrides, apply, order, n) <==>
            exists i :: 0 <= i < n && order[i] == m &&
              var e := apply(m, ModuleConfig(reg, overrides, m), order[..i]);
              e.Some? && Display(e.value) == reason
  {
    if n > 0 {
      AttemptsExactly(reg, overrides, apply, order, n - 1, m, reason);
    }
  }

  /** Every attempted module is accounted for exactly once, as booted or as skipped. */
  lemma {:induction false} BootAccountsForAll(reg: Registry, overrides: Json, apply: Apply, order: seq<string>, n: nat)
    requires n <= |order| && forall m :: m in order ==> m in reg
    ensures Partition(Successes(reg, overrides, apply, order, n), Firsts(Failures(reg, overrides, apply, order, n)),
                      order[..n])
  {
    if n > 0 {
      BootAccountsForAll(reg, overrides, apply, order, n - 1);
      AttemptStep(reg, overrides, apply, order, n - 1);
      assert order[..n] == order[..n - 1] + [order[n - 1]];
      PartitionMore(Successes(reg, overrides, apply, order, n - 1),
                    Firsts(Failures(reg, overrides, apply, order, n - 1)),
                    Successes(reg, overrides, apply, order, n), Firsts(Failures(reg, overrides, apply, order, n)),
                    order[..n - 1], order[n - 1]);
    }
  }

  lemma PartitionMore(a: seq<string>, b: seq<string>, a': seq<string>, b': seq<string>, all: seq<string>, x: string)
    requires Partition(a, b, all)
    requires (a' == a + [x] && b' == b) || (a' == a && b' == b + [x])
    ensures Partition(a', b', all + [x])
  {
  }

  /** Only optional modules are skipped when the boot goes through. */
  lemma {:induction false} SkippedAreOptional(reg: Registry, overrides: Json, apply: Apply, order: seq<string>, n: nat)
    requires n <= |order| && forall m :: m in order ==> m in reg
    requires forall i :: !StopsAt(reg, overrides, apply, order, i)
    ensures forall i :: 0 <= i < n && Outcome(reg, overrides, apply, order, i).Some? ==> reg[order[i]].optional
  {
    if n > 0 {
      SkippedAreOptional(reg, overrides, apply, order, n - 1);
      assert !StopsAt(reg, overrides, apply, order, n - 1);
    }
  }

  ghost predicate Precedes(s: seq<string>, b: string, a: string) {
    exists p, q :: 0 <= p < q < |s| && s[p] == b && s[q] == a
  }

  lemma PrecedesStill(s: seq<string>, t: seq<string>, b: string, a: string)
    ensures Precedes(s, b, a) ==> Precedes(s + t, b, a)
    ensures b in s && a in t ==> Precedes(s + t, b, a)
  {
    if Precedes(s, b, a) {
      var p, q :| 0 <= p < q < |s| && s[p] == b && s[q] == a;
      assert (s + t)[p] == b && (s + t)[q] == a;
    }
    if b in s && a in t {
      var p, q :| 0 <= p < |s| && s[p] == b && 0 <= q < |t| && t[q] == a;
      assert (s + t)[p] == b && (s + t)[|s| + q] == a;
    }
  }

  lemma InPartition(a: seq<string>, b: seq<string>, all: seq<string>, x: string)
    requires Partition(a, b, all) && x in all
    ensures x in a || x in b
  {
    assert x in multiset(all);
  }

  /** Whatever was attempted has booted or failed. */
  lemma BootedOrFailed(reg: Registry, overrides: Json, apply: Apply, order: seq<string>, n: nat, b: string)
    requires n <= |order| && (forall m :: m in order ==> m in reg) && b in order[..n]
    ensures b in Successes(reg, overrides, apply, order, n) || b in Firsts(Failures(reg, overrides, apply, order, n))
  {
    BootAccountsForAll(reg, overrides, apply, order, n);
    InPartition(Successes(reg, overrides, apply, order, n), Firsts(Failures(reg, overrides, apply, order, n)),
                order[..n], b);
  }

  /** Among the booted modules too, what a module requires comes before it; what it requires and
      does not find there was attempted before it and failed. */
  lemma {:induction false} BootedAfterRequirements(
    reg: Registry, want: set<string>, overrides: Json, apply: Apply, order: seq<string>, n: nat, a: string, b: string)
    requires IsTopologicalOrder(reg, want, order) && n <= |order| && forall m :: m in order ==> m in reg
    requires Needs(reg, want, a, b) && a in Successes(reg, overrides, apply, order, n)
    ensures Precedes(Successes(reg, overrides, apply, order, n), b, a) ||
            b in Firsts(Failures(reg, overrides, apply, order, n))
  {
    var before := Successes(reg, overrides, apply, order, n - 1);
    AttemptStep(reg, overrides, apply, order, n - 1);
    if a in before {
      BootedAfterRequirements(reg, want, overrides, apply, order, n - 1, a, b);
      PrecedesStill(before, [order[n - 1]], b, a);
    } else {
      RequiredIsEarlier(reg, want, order, n - 1, b);
      BootedOrFailed(reg, overrides, apply, order, n - 1, b);
      PrecedesStill(before, [a], b, a);
    }
  }

  lemma RequiredIsEarlier(reg: Registry, want: set<string>, order: seq<string>, i: nat, b: string)
    requires IsTopologicalOrder(reg, want, order) && i < |order| && Needs(reg, want, order[i], b)
    ensures b in order[..i]
  {
  }
}
