/** Metering: token counters per member, split by provider, model and rule set, and the bill. */
module Usage {
  import opened Wrappers
  import opened Sequences
  import opened Sorting
  import JsonText
  import Numbers
  import Text

  type Counts = map<string, nat>

  datatype MemberUsage = MemberUsage(memberId: string, promptTokens: nat, completionTokens: nat, calls: nat,
                                     modelTokens: Counts, providerTokens: Counts, ruleSetTokens: Counts)
  {
    function Total(): nat { promptTokens + completionTokens }
  }

  type Store = map<string, MemberUsage>

  function Unused(member: string): MemberUsage {
    MemberUsage(member, 0, 0, 0, map[], map[], map[])
  }

  function UsageOf(store: Store, member: string): MemberUsage {
    if member in store then store[member] else Unused(member)
  }

  /** Adds to one counter; an empty label counts nowhere. */
  function Added(counts: Counts, key: string, n: nat): Counts {
    if key == "" then counts else counts[key := (if key in counts then counts[key] else 0) + n]
  }

  /** One successful call: who made it, where it went, what it cost. */
  datatype Call = Call(member: string, provider: string, model: string, promptTokens: nat, completionTokens: nat)
  {
    function Cost(): nat { promptTokens + completionTokens }
  }

  function Recorded(store: Store, c: Call): Store {
    var u := UsageOf(store, c.member);
    store[c.member := u.(promptTokens := u.promptTokens + c.promptTokens,
                         completionTokens := u.completionTokens + c.completionTokens,
                         calls := u.calls + 1,
                         providerTokens := Added(u.providerTokens, c.provider, c.Cost()),
                         modelTokens := Added(u.modelTokens, c.model, c.Cost()))]
  }

  function RuleRecorded(store: Store, member: string, ruleSet: string, tokens: nat): Store {
    if ruleSet == "" then store
    else
      var u := UsageOf(store, member);
      store[member := u.(ruleSetTokens := Added(u.ruleSetTokens, ruleSet, tokens))]
  }

  // -------------------------------------------------------------------- map totals

  function Sum(m: Counts): nat
    decreases |m|
  {
    if m == map[] then 0
    else
      var k := JsonText.Least(m.Keys);
      assert |m - {k}| < |m|;
      m[k] + Sum(m - {k})
  }

  /** The total does not depend on the order in which the keys are visited. */
  lemma {:induction false} SumWithout(m: Counts, k: string)
    requires k in m
    ensures Sum(m) == m[k] + Sum(m - {k})
    decreases |m|
  {
    var least := JsonText.Least(m.Keys);
    if k != least {
      var rest := m - {least};
      assert |rest| < |m|;
      SumWithout(rest, k);
      SumWithout(m - {k}, least);
      assert (m - {k}) - {least} == rest - {k};
      assert |m - {k}| < |m|;
    }
  }

  lemma SumUpdate(m: Counts, k: string, v: nat)
    ensures Sum(m[k := v]) == Sum(m) - (if k in m then m[k] else 0) + v
  {
    SumWithout(m[k := v], k);
    assert m[k := v] - {k} == m - {k};
    if k in m {
      SumWithout(m, k);
    } else {
      assert m - {k} == m;
    }
  }

  lemma SumAdded(counts: Counts, key: string, n: nat)
    ensures Sum(Added(counts, key, n)) == Sum(counts) + if key == "" then 0 else n
  {
    if key != "" {
      SumUpdate(counts, key, (if key in counts then counts[key] else 0) + n);
    }
  }

  // ------------------------------------------------------------------- conservation

  datatype Step = Record(call: Call) | RecordRule(member: string, ruleSet: string, tokens: nat)

  function After(store: Store, step: Step): Store {
    match step
    case Record(c) => Recorded(store, c)
    case RecordRule(member, ruleSet, tokens) => RuleRecorded(store, member, ruleSet, tokens)
  }

  function Run(steps: seq<Step>): Store {
    if steps == [] then map[] else After(Run(steps[..|steps| - 1]), steps[|steps| - 1])
  }

  /** The sum of what the steps contribute. */
  function SumOver(steps: seq<Step>, f: Step -> nat): nat {
    if steps == [] then 0 else SumOver(steps[..|steps| - 1], f) + f(steps[|steps| - 1])
  }

  function CostTo(member: string): Step -> nat {
    (s: Step) => if s.Record? && s.call.member == member then s.call.Cost() else 0
  }

  function CostWithProvider(member: string): Step -> nat {
    (s: Step) => if s.Record? && s.call.member == member && s.call.provider != "" then s.call.Cost() else 0
  }

  function CostWithModel(member: string): Step -> nat {
    (s: Step) => if s.Record? && s.call.member == member && s.call.model != "" then s.call.Cost() else 0
  }

  function RuleTokensOf(member: string): Step -> nat {
    (s: Step) => if s.RecordRule? && s.member == member && s.ruleSet != "" then s.tokens else 0
  }

  function CallBy(member: string): Step -> nat {
    (s: Step) => if s.Record? && s.call.member == member then 1 else 0
  }

  function AnyCost(s: Step): nat {
    if s.Record? then s.call.Cost() else 0
  }

  /** The counters of a member are exactly what the calls contributed: nothing is lost, doubled or
      put on another account. */
  lemma {:induction false} CountersAreSums(steps: seq<Step>, member: string)
    ensures
      var u := UsageOf(Run(steps), member);
      u.memberId == member && u.Total() == SumOver(steps, CostTo(member)) &&
      u.calls == SumOver(steps, CallBy(member)) &&
      Sum(u.providerTokens) == SumOver(steps, CostWithProvider(member)) &&
      Sum(u.modelTokens) == SumOver(steps, CostWithModel(member)) &&
      Sum(u.ruleSetTokens) == SumOver(steps, RuleTokensOf(member))
  {
    if steps != [] {
      var init, last := steps[..|steps| - 1], steps[|steps| - 1];
      CountersAreSums(init, member);
      var u := UsageOf(Run(init), member);
      match last
      case Record(c) =>
        SumAdded(u.providerTokens, c.provider, c.Cost());
        SumAdded(u.modelTokens, c.model, c.Cost());
      case RecordRule(m, ruleSet, tokens) =>
        SumAdded(u.ruleSetTokens, ruleSet, tokens);
    }
  }

  function PromptOf(member: string): Step -> nat {
    (s: Step) => if s.Record? && s.call.member == member then s.call.promptTokens else 0
  }

  function CompletionOf(member: string): Step -> nat {
    (s: Step) => if s.Record? && s.call.member == member then s.call.completionTokens else 0
  }

  function CostAtProvider(member: string, key: string): Step -> nat {
    (s: Step) => if s.Record? && s.call.member == member && s.call.provider == key then s.call.Cost() else 0
  }

  function CostAtModel(member: string, key: string): Step -> nat {
    (s: Step) => if s.Record? && s.call.member == member && s.call.model == key then s.call.Cost() else 0
  }

  function TokensAtRule(member: string, key: string): Step -> nat {
    (s: Step) => if s.RecordRule? && s.member == member && s.ruleSet == key then s.tokens else 0
  }

  function Entry(counts: Counts, key: string): nat {
    if key in counts then counts[key] else 0
  }

  /** Every single entry is exactly what the calls contributed to it: prompt and completion tokens
      apart, and each provider, each model and each rule set apart. No entry has an empty label. */
  lemma {:induction false} EntriesAreSums(steps: seq<Step>, member: string, key: string)
    requires key != ""
    ensures
      var u := UsageOf(Run(steps), member);
      u.promptTokens == SumOver(steps, PromptOf(member)) &&
      u.completionTokens == SumOver(steps, CompletionOf(member)) &&
      Entry(u.providerTokens, key) == SumOver(steps, CostAtProvider(member, key)) &&
      Entry(u.modelTokens, key) == SumOver(steps, CostAtModel(member, key)) &&
      Entry(u.ruleSetTokens, key) == SumOver(steps, TokensAtRule(member, key)) &&
      "" !in u.providerTokens && "" !in u.modelTokens && "" !in u.ruleSetTokens
  {
    if steps != [] {
      var init, last := steps[..|steps| - 1], steps[|steps| - 1];
      EntriesAreSums(init, member, key);
      StepAddsEntries(Run(init), last, member, key);
    }
  }

  lemma StepAddsEntries(store: Store, step: Step, member: string, key: string)
    requires key != ""
    ensures
      var u, v := UsageOf(store, member), UsageOf(After(store, step), member);
      v.promptTokens == u.promptTokens + PromptOf(member)(step) &&
      v.completionTokens == u.completionTokens + CompletionOf(member)(step) &&
      Entry(v.providerTokens, key) == Entry(u.providerTokens, key) + CostAtProvider(member, key)(step) &&
      Entry(v.modelTokens, key) == Entry(u.modelTokens, key) + CostAtModel(member, key)(step) &&
      Entry(v.ruleSetTokens, key) == Entry(u.ruleSetTokens, key) + TokensAtRule(member, key)(step)
    ensures
      var u, v := UsageOf(store, member), UsageOf(After(store, step), member);
      ("" !in u.providerTokens ==> "" !in v.providerTokens) && ("" !in u.modelTokens ==> "" !in v.modelTokens) &&
      ("" !in u.ruleSetTokens ==> "" !in v.ruleSetTokens)
  {
  }

  ghost predicate Labelled(steps: seq<Step>, member: string) {
    forall s :: s in steps && s.Record? && s.call.member == member ==> s.call.provider != "" && s.call.model != ""
  }

  lemma {:induction false} SameSums(steps: seq<Step>, f: Step -> nat, g: Step -> nat)
    requires forall s :: s in steps ==> f(s) == g(s)
    ensures SumOver(steps, f) == SumOver(steps, g)
  {
    if steps != [] {
      SameSums(steps[..|steps| - 1], f, g);
    }
  }

  /** With labels on all calls, a member's total is the sum over providers and the sum over models. */
  lemma TotalIsSumOfParts(steps: seq<Step>, member: string)
    requires Labelled(steps, member)
    ensures
      var u := UsageOf(Run(steps), member);
      u.Total() == Sum(u.providerTokens) == Sum(u.modelTokens)
  {
    CountersAreSums(steps, member);
    SameSums(steps, CostTo(member), CostWithProvider(member));
    SameSums(steps, CostTo(member), CostWithModel(member));
  }

  // ------------------------------------------------- calls and their rules, interleaved

  /** Handlers record a call first and the rule it came through, if any, in a later step; `open`
      holds the calls whose rule is still to be recorded. */
  datatype Meter = Meter(store: Store, open: seq<(string, nat)>)

  datatype Charge = ChargeCall(call: Call, viaRule: bool) | ChargeRule(i: nat, ruleSet: string)

  function Charged(m: Meter, c: Charge): Meter {
    match c
    case ChargeCall(call, viaRule) =>
      Meter(Recorded(m.store, call), m.open + if viaRule then [(call.member, call.Cost())] else [])
    case ChargeRule(i, ruleSet) =>
      if i >= |m.open| then m
      else Meter(RuleRecorded(m.store, m.open[i].0, ruleSet, m.open[i].1), m.open[..i] + m.open[i + 1..])
  }

  function Charges(cs: seq<Charge>): Meter {
    if cs == [] then Meter(map[], []) else Charged(Charges(cs[..|cs| - 1]), cs[|cs| - 1])
  }

  /** What a member's open calls cost. */
  function OpenCost(open: seq<(string, nat)>, member: string): nat {
    if open == [] then 0
    else OpenCost(open[..|open| - 1], member) + if open[|open| - 1].0 == member then open[|open| - 1].1 else 0
  }

  lemma {:induction false} OpenCostAppend(a: seq<(string, nat)>, b: seq<(string, nat)>, member: string)
    ensures OpenCost(a + b, member) == OpenCost(a, member) + OpenCost(b, member)
  {
    if b == [] {
      assert a + b == a;
    } else {
      assert (a + b)[..|a + b| - 1] == a + b[..|b| - 1];
      OpenCostAppend(a, b[..|b| - 1], member);
    }
  }

  lemma OpenCostOne(x: (string, nat), member: string)
    ensures OpenCost([x], member) == if x.0 == member then x.1 else 0
  {
    var none: seq<(string, nat)> := [];
    assert [x][..0] == none;
  }

  lemma OpenCostWithout(open: seq<(string, nat)>, i: nat, member: string)
    requires i < |open|
    ensures OpenCost(open, member) ==
      OpenCost(open[..i] + open[i + 1..], member) + if open[i].0 == member then open[i].1 else 0
  {
    assert open == open[..i] + [open[i]] + open[i + 1..];
    OpenCostAppend(open[..i] + [open[i]], open[i + 1..], member);
    OpenCostAppend(open[..i], [open[i]], member);
    OpenCostAppend(open[..i], open[i + 1..], member);
    OpenCostOne(open[i], member);
  }

  /** Over every interleaving of handlers, the tokens a member's rules account for and those still
      to be attributed never exceed the member's total. */
  lemma {:induction false} RuleTokensWithinTotal(cs: seq<Charge>, member: string)
    ensures
      var u := UsageOf(Charges(cs).store, member);
      Sum(u.ruleSetTokens) + OpenCost(Charges(cs).open, member) <= u.Total()
  {
    if cs != [] {
      var init, last := cs[..|cs| - 1], cs[|cs| - 1];
      var m := Charges(init);
      RuleTokensWithinTotal(init, member);
      match last
      case ChargeCall(call, viaRule) =>
        OpenCostAppend(m.open, if viaRule then [(call.member, call.Cost())] else [], member);
        OpenCostOne((call.member, call.Cost()), member);
      case ChargeRule(i, ruleSet) =>
        if i < |m.open| {
          OpenCostWithout(m.open, i, member);
          SumAdded(UsageOf(m.store, member).ruleSetTokens, ruleSet, m.open[i].1);
        }
    }
  }

  // ----------------------------------------------------------------------- the bill

  function Totals(store: Store): Counts {
    map m | m in store :: store[m].Total()
  }

  function GrandTotal(store: Store): nat {
    Sum(Totals(store))
  }

  /** What all members are charged together is what all successful calls cost together. */
  lemma {:induction false} GrandTotalIsAllCosts(steps: seq<Step>)
    ensures GrandTotal(Run(steps)) == SumOver(steps, AnyCost)
  {
    if steps == [] {
      assert Totals(map[]) == map[];
    } else {
      var init, last := steps[..|steps| - 1], steps[|steps| - 1];
      GrandTotalIsAllCosts(init);
      GrandTotalStep(Run(init), last);
    }
  }

  lemma GrandTotalStep(store: Store, step: Step)
    ensures GrandTotal(After(store, step)) == GrandTotal(store) + AnyCost(step)
  {
    var member := if step.Record? then step.call.member else step.member;
    var after := After(store, step);
    if after != store {
      assert Totals(after) == Totals(store)[member := after[member].Total()];
      SumUpdate(Totals(store), member, after[member].Total());
    }
  }

  predicate Larger(a: MemberUsage, b: MemberUsage) {
    a.Total() >= b.Total()
  }

  /** The members in some order. */
  function Values(store: Store, order: seq<string>): seq<MemberUsage>
    requires forall m :: m in order ==> m in store
  {
    seq(|order|, i requires 0 <= i < |order| => store[order[i]])
  }

  function Bill(store: Store, order: seq<string>): seq<MemberUsage>
    requires forall m :: m in order ==> m in store
  {
    StableSort(Values(store, order), Larger)
  }

  function SumTotals(us: seq<MemberUsage>): nat {
    if us == [] then 0 else us[0].Total() + SumTotals(us[1..])
  }

  lemma {:induction false} InsertSum(u: MemberUsage, us: seq<MemberUsage>)
    ensures SumTotals(Insert(u, us, Larger)) == u.Total() + SumTotals(us)
  {
    if us == [] || Larger(u, us[0]) {
      assert ([u] + us)[1..] == us;
    } else {
      InsertSum(u, us[1..]);
      assert Insert(u, us, Larger)[1..] == Insert(u, us[1..], Larger);
    }
  }

  lemma {:induction false} SortSum(us: seq<MemberUsage>)
    ensures SumTotals(StableSort(us, Larger)) == SumTotals(us)
  {
    if us != [] {
      SortSum(us[1..]);
      InsertSum(us[0], StableSort(us[1..], Larger));
    }
  }

  lemma GrandTotalWithout(store: Store, member: string)
    requires member in store
    ensures GrandTotal(store) == store[member].Total() + GrandTotal(store - {member})
  {
    SumWithout(Totals(store), member);
    assert Totals(store) - {member} == Totals(store - {member});
  }

  lemma ListsRest(order: seq<string>, keys: set<string>)
    requires JsonText.Lists(order, keys) && order != []
    ensures JsonText.Lists(order[1..], keys - {order[0]})
  {
    assert forall i :: 0 <= i < |order[1..]| ==> order[1..][i] == order[i + 1] && order[i + 1] != order[0];
    assert forall m :: m in order <==> m == order[0] || m in order[1..];
  }

  lemma {:induction false} ValuesSum(store: Store, order: seq<string>)
    requires JsonText.Lists(order, store.Keys)
    ensures SumTotals(Values(store, order)) == GrandTotal(store)
    decreases |order|
  {
    if order == [] {
      assert forall m :: m in store ==> m in order;
      assert Totals(store) == map[];
    } else {
      var first := order[0];
      assert first in order;
      var rest := store - {first};
      ListsRest(order, store.Keys);
      assert rest.Keys == store.Keys - {first};
      ValuesSum(rest, order[1..]);
      assert Values(store, order)[1..] == Values(rest, order[1..]);
      GrandTotalWithout(store, first);
    }
  }

  lemma LargerOrders()
    ensures Orders(Larger)
  {
  }

  /** In whatever order the members are visited, the bill lists each member once, the largest total
      first, and its totals add up to the grand total. */
  lemma BillIsDescending(store: Store, order: seq<string>)
    requires JsonText.Lists(order, store.Keys)
    ensures forall i, j :: 0 <= i < j < |Bill(store, order)| ==>
              Bill(store, order)[i].Total() >= Bill(store, order)[j].Total()
    ensures multiset(Bill(store, order)) == multiset(Values(store, order))
    ensures forall i :: 0 <= i < |order| ==> Values(store, order)[i] == store[order[i]]
    ensures |Bill(store, order)| == |order| == |store|
    ensures SumTotals(Bill(store, order)) == GrandTotal(store)
  {
    LargerOrders();
    SortSorts(Values(store, order), Larger);
    forall i, j | 0 <= i < j < |Bill(store, order)|
      ensures Bill(store, order)[i].Total() >= Bill(store, order)[j].Total()
    {
      assert Larger(Bill(store, order)[i], Bill(store, order)[j]);
    }
    assert |multiset(Bill(store, order))| == |multiset(Values(store, order))|;
    SortSum(Values(store, order));
    ValuesSum(store, order);
    ListsAll(order, store.Keys);
  }

  lemma {:induction false} ListsAll(order: seq<string>, keys: set<string>)
    requires JsonText.Lists(order, keys)
    ensures |order| == |keys|
    decreases |order|
  {
    if order == [] {
      assert forall k :: k in keys ==> k in order;
      assert keys == {};
    } else {
      var first := order[0];
      assert first in order;
      ListsRest(order, keys);
      ListsAll(order[1..], keys - {first});
    }
  }

  const CSV_HEADER := "member_id,prompt_tokens,completion_tokens,total_tokens,calls\n"

  ghost predicate IsBillOf(store: Store, us: seq<MemberUsage>) {
    exists order :: JsonText.Lists(order, store.Keys) && us == Bill(store, order)
  }

  function CsvRow(u: MemberUsage): string {
    u.memberId + "," + Numbers.Digits(u.promptTokens) + "," + Numbers.Digits(u.completionTokens) + "," +
    Numbers.Digits(u.Total()) + "," + Numbers.Digits(u.calls) + "\n"
  }

  /** A row can be taken apart again, if the member's name has no comma: name, prompt, completion and
      total tokens, calls, each number in decimal digits. */
  lemma CsvRowFields(u: MemberUsage)
    requires ',' !in u.memberId
    ensures
      var row := CsvRow(u);
      var parts := Text.Split(row[..|row| - 1], ',');
      row[|row| - 1] == '\n' && |parts| == 5 && parts[0] == u.memberId &&
      IsNumber(parts[1], u.promptTokens) && IsNumber(parts[2], u.completionTokens) &&
      IsNumber(parts[3], u.promptTokens + u.completionTokens) && IsNumber(parts[4], u.calls)
  {
    var parts := [u.memberId, Numbers.Digits(u.promptTokens), Numbers.Digits(u.completionTokens),
                  Numbers.Digits(u.Total()), Numbers.Digits(u.calls)];
    CsvRowJoins(u);
    assert CsvRow(u)[..|CsvRow(u)| - 1] == Text.Join(parts, ",");
    DigitsAreNumber(u.promptTokens);
    DigitsAreNumber(u.completionTokens);
    DigitsAreNumber(u.Total());
    DigitsAreNumber(u.calls);
    Text.JoinSplits(parts, ',');
  }

  ghost predicate IsNumber(s: string, n: nat) {
    (forall i :: 0 <= i < |s| ==> Numbers.IsDigit(s[i])) && s != "" && Numbers.ValueOf(s) == n
  }

  lemma DigitsAreNumber(n: nat)
    ensures IsNumber(Numbers.Digits(n), n) && ',' !in Numbers.Digits(n)
  {
    Numbers.DigitsValue(n);
  }

  lemma CsvRowJoins(u: MemberUsage)
    ensures CsvRow(u) == Text.Join([u.memberId, Numbers.Digits(u.promptTokens), Numbers.Digits(u.completionTokens),
                                    Numbers.Digits(u.Total()), Numbers.Digits(u.calls)], ",") + "\n"
  {
    var a, b, c, d, e := u.memberId, Numbers.Digits(u.promptTokens), Numbers.Digits(u.completionTokens),
      Numbers.Digits(u.Total()), Numbers.Digits(u.calls);
    JoinFive(a, b, c, d, e);
  }

  lemma JoinFive(a: string, b: string, c: string, d: string, e: string)
    ensures Text.Join([a, b, c, d, e], ",") == a + "," + (b + "," + (c + "," + (d + "," + e)))
    ensures a + "," + (b + "," + (c + "," + (d + "," + e))) + "\n" == a + "," + b + "," + c + "," + d + "," + e + "\n"
  {
    assert [a, b, c, d, e][1..] == [b, c, d, e] && [b, c, d, e][1..] == [c, d, e];
    assert [c, d, e][1..] == [d, e] && [d, e][1..] == [e];
    assert Text.Join([d, e], ",") == d + "," + e;
    assert Text.Join([c, d, e], ",") == c + "," + (d + "," + e);
    assert Text.Join([b, c, d, e], ",") == b + "," + (c + "," + (d + "," + e));
  }

  function CsvRows(us: seq<MemberUsage>): string {
    FlatMap(us, CsvRow)
  }

  // ------------------------------------------------------------------------ service

  class UsageService {
    var byMember: Store
    /** The file it is saved to after every change. */
    var disk: Store

    constructor (saved: Store)
      ensures byMember == saved && disk == saved
    {
      byMember, disk := saved, saved;
    }

    method Record(c: Call)
      modifies this
      ensures byMember == Recorded(old(byMember), c) && disk == byMember
    {
      if c.member !in byMember {
        byMember := byMember[c.member := Unused(c.member)];
      }
      var u := byMember[c.member];
      u := u.(promptTokens := u.promptTokens + c.promptTokens,
              completionTokens := u.completionTokens + c.completionTokens,
              calls := u.calls + 1);
      if c.provider != "" {
        var n := if c.provider in u.providerTokens then u.providerTokens[c.provider] else 0;
        u := u.(providerTokens := u.providerTokens[c.provider := n + c.promptTokens + c.completionTokens]);
      }
      if c.model != "" {
        var n := if c.model in u.modelTokens then u.modelTokens[c.model] else 0;
        u := u.(modelTokens := u.modelTokens[c.model := n + c.promptTokens + c.completionTokens]);
      }
      byMember := byMember[c.member := u];
      disk := byMember;
    }

    method RecordRule(member: string, ruleSet: string, tokens: nat)
      modifies this
      ensures byMember == RuleRecorded(old(byMember), member, ruleSet, tokens)
      ensures disk == if ruleSet == "" then old(disk) else byMember
    {
      if ruleSet == "" {
        return;
      }
      if member !in byMember {
        byMember := byMember[member := Unused(member)];
      }
      var u := byMember[member];
      var n := if ruleSet in u.ruleSetTokens then u.ruleSetTokens[ruleSet] else 0;
      byMember := byMember[member := u.(ruleSetTokens := u.ruleSetTokens[ruleSet := n + tokens])];
      disk := byMember;
    }

    function Total(member: string): nat
      reads this
    {
      UsageOf(byMember, member).Total()
    }

    /** The members are collected in no particular order. */
    method All() returns (us: seq<MemberUsage>)
      ensures IsBillOf(byMember, us)
    {
      us := [];
      ghost var order := [];
      var todo := byMember.Keys;
      while todo != {}
        invariant todo <= byMember.Keys
        invariant JsonText.Lists(order, byMember.Keys - todo) && us == Values(byMember, order)
      {
        var m :| m in todo;
        assert m !in order;
        todo := todo - {m};
        us := us + [byMember[m]];
        order := order + [m];
      }
      us := StableSort(us, Larger);
      assert JsonText.Lists(order, byMember.Keys) && us == Bill(byMember, order);
    }

    method ExportCsv() returns (out: string)
      ensures exists us :: IsBillOf(byMember, us) && out == CSV_HEADER + CsvRows(us)
    {
      var us := All();
      var rows := PrintRows(us);
      out := CSV_HEADER + rows;
    }
  }

  method PrintRows(us: seq<MemberUsage>) returns (out: string)
    ensures out == CsvRows(us)
  {
    out := "";
    for i := 0 to |us|
      invariant out == CsvRows(us[..i])
    {
      FlatMapStep(us, i, CsvRow);
      out := out + CsvRow(us[i]);
    }
    assert us[..|us|] == us;
  }
}
