/** Token quotas: the limit per member, the admission check, and how far requests that are in
    flight together can overshoot it. */
module Quota {
  import opened Wrappers
  import opened Json
  import Usage

  type Quotas = map<string, U64>

  datatype Verdict = Allowed | Exceeded(limit: nat)

  /** A limit of 0 is no limit. */
  function Judge(quotas: Quotas, member: string, used: nat): Verdict {
    if member in quotas && quotas[member] > 0 && used >= quotas[member] then Exceeded(quotas[member]) else Allowed
  }

  function WithLimit(quotas: Quotas, member: string, limit: U64): Quotas {
    if limit == 0 then quotas - {member} else quotas[member := limit]
  }

  class QuotaService {
    var quotas: Quotas
    /** The file it is saved to after every change. */
    var disk: Quotas

    constructor (saved: Quotas)
      ensures quotas == saved && disk == saved
    {
      quotas, disk := saved, saved;
    }

    method Set(member: string, limit: U64)
      modifies this
      ensures quotas == WithLimit(old(quotas), member, limit) && disk == quotas
    {
      if limit == 0 {
        quotas := quotas - {member};
      } else {
        quotas := quotas[member := limit];
      }
      disk := quotas;
    }

    function Get(member: string): Option<U64>
      reads this
    {
      if member in quotas then Some(quotas[member]) else None
    }

    function Check(member: string, used: nat): Verdict
      reads this
    {
      Judge(quotas, member, used)
    }
  }

  // ---------------------------------------------------------- admission, interleaved

  /** The usage store and, per member, how many admitted requests have not ended yet. */
  datatype Gate = Gate(store: Usage.Store, inFlight: multiset<string>)

  /** A request is checked when it comes in; its cost is recorded in a later step, or it fails. */
  datatype Event = Arrive(member: string) | Succeed(call: Usage.Call) | Fail(member: string)

  function Total(g: Gate, member: string): nat {
    Usage.UsageOf(g.store, member).Total()
  }

  function Next(quotas: Quotas, g: Gate, e: Event): Gate {
    match e
    case Arrive(m) =>
      if Judge(quotas, m, Total(g, m)) == Allowed then g.(inFlight := g.inFlight + multiset{m}) else g
    case Succeed(c) =>
      if c.member in g.inFlight then Gate(Usage.Recorded(g.store, c), g.inFlight - multiset{c.member}) else g
    case Fail(m) => g.(inFlight := g.inFlight - multiset{m})
  }

  function Run(quotas: Quotas, start: Usage.Store, events: seq<Event>): Gate {
    if events == [] then Gate(start, multiset{})
    else Next(quotas, Run(quotas, start, events[..|events| - 1]), events[|events| - 1])
  }

  /** At most `k` requests of the member are ever in flight together. */
  ghost predicate AtMostInFlight(quotas: Quotas, start: Usage.Store, events: seq<Event>, member: string, k: nat) {
    forall i :: 0 <= i <= |events| ==> Run(quotas, start, events[..i]).inFlight[member] <= k
  }

  /** No call of the member costs more than `c`. */
  ghost predicate AtMostCost(events: seq<Event>, member: string, c: nat) {
    forall e :: e in events && e.Succeed? && e.call.member == member ==> e.call.Cost() <= c
  }

  function Larger(a: nat, b: nat): nat {
    if a < b then b else a
  }

  lemma Shorter(quotas: Quotas, start: Usage.Store, events: seq<Event>, member: string, k: nat, c: nat)
    requires events != []
    requires AtMostInFlight(quotas, start, events, member, k) && AtMostCost(events, member, c)
    ensures
      var init := events[..|events| - 1];
      AtMostInFlight(quotas, start, init, member, k) && AtMostCost(init, member, c)
  {
    var init := events[..|events| - 1];
    forall i | 0 <= i <= |init|
      ensures Run(quotas, start, init[..i]).inFlight[member] <= k
    {
      assert init[..i] == events[..i];
    }
  }

  /** What a step can do to one member: nothing; admit a request, if the check allows it; end a
      request without cost; end one and record its cost. */
  lemma StepEffect(quotas: Quotas, g: Gate, e: Event, member: string)
    ensures
      var h := Next(quotas, g, e);
      var t, f, t', f' := Total(g, member), g.inFlight[member], Total(h, member), h.inFlight[member];
      (t' == t && f' == f) ||
      (t' == t && f' == f + 1 && Judge(quotas, member, t) == Allowed && e == Arrive(member)) ||
      (t' == t && f' == f - 1) ||
      (e.Succeed? && e.call.member == member && t' == t + e.call.Cost() && f' == f - 1)
  {
  }

  lemma MoreTimes(f: nat, k: nat, c: nat)
    requires f <= k
    ensures f * c <= k * c
  {
  }

  lemma OneMore(f: nat, c: nat)
    ensures (f + 1) * c == f * c + c
  {
  }

  /** Tokens used, plus `c` for each of `f` requests in flight, stay within `bound` plus `k` times `c`. */
  ghost predicate Within(t: nat, f: nat, c: nat, bound: nat, k: nat) {
    t + f * c <= bound + k * c
  }

  lemma Budget(t: nat, f: nat, t': nat, f': nat, bound: nat, k: nat, c: nat)
    requires Within(t, f, c, bound, k)
    requires (t' == t && f' == f) || (t' == t <= bound && f' == f + 1 <= k) || (f' == f - 1 && t' <= t + c)
    ensures Within(t', f', c, bound, k)
  {
    if f' == f + 1 {
      MoreTimes(f', k, c);
    } else if f' == f - 1 {
      OneMore(f', c);
    }
  }

  /** Over every interleaving of requests, a member with limit `l`, at most `k` requests in flight
      together and calls of cost at most `c` never gets past `l - 1 + k * c`, or past that much
      above where it started. What is in flight is already allowed for. */
  lemma {:induction false} OvershootBounded(quotas: Quotas, start: Usage.Store, events: seq<Event>, member: string,
                                            k: nat,
                                            c: nat)
    requires member in quotas && quotas[member] > 0
    requires AtMostInFlight(quotas, start, events, member, k) && AtMostCost(events, member, c)
    ensures
      var g := Run(quotas, start, events);
      var bound := Larger(Usage.UsageOf(start, member).Total(), quotas[member] - 1);
      Within(Total(g, member), g.inFlight[member], c, bound, k)
  {
    var bound := Larger(Usage.UsageOf(start, member).Total(), quotas[member] - 1);
    if events == [] {
      MoreTimes(0, k, c);
    } else {
      var init, last := events[..|events| - 1], events[|events| - 1];
      Shorter(quotas, start, events, member, k, c);
      OvershootBounded(quotas, start, init, member, k, c);
      StepEffect(quotas, Run(quotas, start, init), last, member);
      assert events[..|events|] == events && last in events;
      var g, h := Run(quotas, start, init), Run(quotas, start, events);
      Budget(Total(g, member), g.inFlight[member], Total(h, member), h.inFlight[member], bound, k, c);
    }
  }

  /** The total alone, for a member that starts below its limit. */
  lemma NeverPastBound(quotas: Quotas, start: Usage.Store, events: seq<Event>, member: string, k: nat, c: nat)
    requires member in quotas && Usage.UsageOf(start, member).Total() < quotas[member]
    requires AtMostInFlight(quotas, start, events, member, k) && AtMostCost(events, member, c)
    ensures Total(Run(quotas, start, events), member) <= quotas[member] - 1 + k * c
  {
    OvershootBounded(quotas, start, events, member, k, c);
    MoreTimes(0, Run(quotas, start, events).inFlight[member], c);
  }

  // ------------------------------------------------------------- the bound is reached

  function Repeat(e: Event, n: nat): seq<Event> {
    seq(n, i => e)
  }

  lemma {:induction false} RunAppend(quotas: Quotas, start: Usage.Store, a: seq<Event>, e: Event)
    ensures Run(quotas, start, a + [e]) == Next(quotas, Run(quotas, start, a), e)
  {
    assert (a + [e])[..|a|] == a;
  }

  lemma {:induction false} ArriveTogether(quotas: Quotas, start: Usage.Store, member: string, k: nat)
    requires Judge(quotas, member, Usage.UsageOf(start, member).Total()) == Allowed
    ensures
      var g := Run(quotas, start, Repeat(Arrive(member), k));
      g.store == start && g.inFlight[member] == k
  {
    if k > 0 {
      ArriveTogether(quotas, start, member, k - 1);
      assert Repeat(Arrive(member), k) == Repeat(Arrive(member), k - 1) + [Arrive(member)];
      RunAppend(quotas, start, Repeat(Arrive(member), k - 1), Arrive(member));
    }
  }

  lemma SucceedAdds(quotas: Quotas, g: Gate, call: Usage.Call)
    requires call.member in g.inFlight
    ensures
      var h := Next(quotas, g, Succeed(call));
      Total(h, call.member) == Total(g, call.member) + call.Cost() &&
      h.inFlight[call.member] == g.inFlight[call.member] - 1
  {
  }

  /** `n` of `k` calls in flight together are recorded. */
  ghost predicate Drained(g: Gate, call: Usage.Call, before: nat, k: nat, n: nat) {
    Total(g, call.member) == before + n * call.Cost() && g.inFlight[call.member] == k - n
  }

  lemma DrainOne(quotas: Quotas, g: Gate, call: Usage.Call, before: nat, k: nat, n: nat)
    requires n < k && Drained(g, call, before, k, n)
    ensures Drained(Next(quotas, g, Succeed(call)), call, before, k, n + 1)
  {
    OneMore(n, call.Cost());
    SucceedAdds(quotas, g, call);
  }

  function Drain(quotas: Quotas, g: Gate, call: Usage.Call, n: nat): Gate {
    if n == 0 then g else Next(quotas, Drain(quotas, g, call, n - 1), Succeed(call))
  }

  lemma {:induction false} DrainAll(quotas: Quotas, g: Gate, call: Usage.Call, before: nat, k: nat, n: nat)
    requires n <= k && Drained(g, call, before, k, 0)
    ensures Drained(Drain(quotas, g, call, n), call, before, k, n)
  {
    if n > 0 {
      DrainAll(quotas, g, call, before, k, n - 1);
      DrainOne(quotas, Drain(quotas, g, call, n - 1), call, before, k, n - 1);
    }
  }

  lemma RepeatMore(before: seq<Event>, e: Event, n: nat)
    ensures before + Repeat(e, n + 1) == before + Repeat(e, n) + [e]
  {
  }

  lemma {:induction false} RunDrain(quotas: Quotas, start: Usage.Store, arrived: seq<Event>, call: Usage.Call, n: nat)
    ensures Run(quotas, start, arrived + Repeat(Succeed(call), n)) ==
            Drain(quotas, Run(quotas, start, arrived), call, n)
  {
    if n == 0 {
      assert arrived + Repeat(Succeed(call), 0) == arrived;
    } else {
      var before := arrived + Repeat(Succeed(call), n - 1);
      RepeatMore(arrived, Succeed(call), n - 1);
      RunAppend(quotas, start, before, Succeed(call));
      RunDrain(quotas, start, arrived, call, n - 1);
    }
  }

  /** The bound is the best possible: one token below the limit, `k` requests that arrive before any
      of them is recorded bring the total to exactly `l - 1 + k * c`. */
  lemma BoundIsReached(quotas: Quotas, start: Usage.Store, call: Usage.Call, k: nat)
    requires call.member in quotas && quotas[call.member] > 0
    requires Usage.UsageOf(start, call.member).Total() == quotas[call.member] - 1
    ensures Total(Run(quotas, start, Repeat(Arrive(call.member), k) + Repeat(Succeed(call), k)), call.member) ==
            quotas[call.member] - 1 + k * call.Cost()
  {
    var arrived := Repeat(Arrive(call.member), k);
    ArriveTogether(quotas, start, call.member, k);
    RunDrain(quotas, start, arrived, call, k);
    DrainAll(quotas, Run(quotas, start, arrived), call, quotas[call.member] - 1, k, k);
  }
}
