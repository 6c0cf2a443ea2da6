/** The two chat endpoints: who is let in, which upstreams are tried, what is answered and what is
    charged. Upstreams, the registry's answers and the content policy are parameters; they may be
    different at every attempt, so other requests may run in between. */
module Dispatch {
  import opened Wrappers
  import opened Json
  import opened Fields
  import Anthropic
  import AnthropicFields
  import AnthropicSse
  import JsonText
  import OpenAiSse
  import Text
  import Auth
  import Quota
  import Rules
  import Registry
  import Health
  import Usage

  /** What an upstream replies. The number of content blocks fits in a u64. */
  type Reply = r: Json | |Anthropic.Blocks(r)| < U64_BOUND witness Null

  /** What a request finds at one attempt: where a model goes, and what a backend then says. */
  datatype World = World(route: string -> Option<Registry.Backend>, chat: (string, Json) -> Result<Reply, string>)

  /** A request's text has fewer than 2^64 characters. */
  type RequestText = s: string | |s| < U64_BOUND

  datatype Policy = Policy(text: Json -> RequestText, check: string -> Option<string>)

  datatype Body = PlainJson(v: Json) | EventStream(text: string)

  datatype Answer =
    | Paused
    | Unauthorized
    | OverQuota(limit: nat)
    | BadJson
    | Blocked(category: string)
    | NotAvailable(model: string)
    | AllFailed(error: string, ruleSet: string)
    | Served(ruleSet: string, upstream: string, body: Body)
  {
    function Status(): nat {
      match this
      case Paused => 503
      case Unauthorized => 401
      case OverQuota(_) => 429
      case BadJson => 400
      case Blocked(_) => 403
      case NotAvailable(_) => 400
      case AllFailed(_, ruleSet) => if ruleSet == "" then 500 else 502
      case Served(_, _, _) => 200
    }
  }

  /** What the gateway knows when a request comes in. */
  datatype Front = Front(sharing: bool, auth: Auth.State, quotas: Quota.Quotas, store: Usage.Store,
                         ruleSets: map<string, Rules.RuleSet>)

  function Admit(f: Front, token: Option<string>, now: nat): Result<Auth.Session, Answer> {
    if !f.sharing then Err(Paused)
    else if token.None? || Auth.Verify(f.auth, token.value, now).None? then Err(Unauthorized)
    else
      var session := Auth.Verify(f.auth, token.value, now).value;
      match Quota.Judge(f.quotas, session.memberId, Usage.UsageOf(f.store, session.memberId).Total())
      case Exceeded(limit) => Err(OverQuota(limit))
      case Allowed => Ok(session)
  }

  /** The rule set that was hit ("" for none) and the models to try. */
  datatype Plan = Plan(ruleSet: string, candidates: seq<string>)

  function PlanFor(ruleSets: map<string, Rules.RuleSet>, model: string, est: U64): Plan {
    match Rules.Resolved(ruleSets, model, est)
    case None => Plan("", [model])
    case Some(r) => Plan(r.ruleSet, if r.candidates == [] then [model] else r.candidates)
  }

  predicate WantsStream(body: Json) {
    match body.Get("stream")
    case None => false
    case Some(v) => v.AsBool().GetOr(false)
  }

  /** What is sent upstream: a streaming request is turned into a plain one, the model is left. */
  function Upstream(body: Json): Json {
    if WantsStream(body) then Obj((body.fields - {"stream_options"})["stream" := Bool(false)]) else body
  }

  method PrepareUpstream(body: Json) returns (stream: bool, fwd: Json)
    ensures stream == WantsStream(body) && fwd == Upstream(body)
  {
    var flag := body.Get("stream");
    stream := flag.Some? && flag.value.AsBool().GetOr(false);
    fwd := body;
    if stream {
      fwd := Obj(fwd.fields["stream" := Bool(false)]);
      fwd := Obj(fwd.fields - {"stream_options"});
    }
  }

  /** Nothing but the two streaming fields is ever changed, and upstream never streams. */
  lemma UpstreamKeepsTheRest(body: Json, key: string)
    ensures !WantsStream(Upstream(body))
    ensures key != "stream" && key != "stream_options" ==> Upstream(body).Get(key) == body.Get(key)
    ensures WantsStream(body) ==> Upstream(body).Get("stream_options").None?
    ensures !WantsStream(body) <==> Upstream(body) == body
  {
  }

  // ----------------------------------------------------------------------- fallback

  datatype Attempt =
    | NoBackend
    | ChatFailed(name: string, error: string)
    | Succeeded(backend: Registry.Backend, reply: Reply)

  function Try(w: World, model: string, fwd: Json): Attempt {
    match w.route(model)
    case None => NoBackend
    case Some(b) =>
      match w.chat(b.name, fwd)
      case Err(e) => ChatFailed(b.name, e)
      case Ok(reply) => Succeeded(b, reply)
  }

  /** What each attempt finds, if it comes to it. */
  function Attempts(worlds: nat -> World, models: seq<string>, fwd: Json): (r: seq<Attempt>)
    ensures |r| == |models|
  {
    seq(|models|, i requires 0 <= i < |models| => Try(worlds(i), models[i], fwd))
  }

  /** What was sent to an upstream. */
  datatype Asked = Asked(backend: string, body: Json)

  function AskedBy(a: Attempt, fwd: Json): seq<Asked> {
    match a
    case NoBackend => []
    case ChatFailed(name, _) => [Asked(name, fwd)]
    case Succeeded(backend, _) => [Asked(backend.name, fwd)]
  }

  /** What these attempts sent, in order. */
  function AskedIn(attempts: seq<Attempt>, fwd: Json): seq<Asked> {
    if attempts == [] then []
    else AskedIn(attempts[..|attempts| - 1], fwd) + AskedBy(attempts[|attempts| - 1], fwd)
  }

  /** Where the search ends. */
  datatype Outcome = Reached(i: nat) | Unroutable(i: nat) | Exhausted

  /** How many of `n` candidates are tried. */
  function Tried(out: Outcome, n: nat): nat {
    match out
    case Reached(i) => i + 1
    case Unroutable(i) => i + 1
    case Exhausted => n
  }

  /** The attempts from `i` on. Without a rule set a model that nobody serves ends the search. */
  function Search(attempts: seq<Attempt>, ruleSet: string, i: nat): Outcome
    decreases |attempts| - i
  {
    if i >= |attempts| then Exhausted
    else if attempts[i].Succeeded? then Reached(i)
    else if attempts[i].NoBackend? && ruleSet == "" then Unroutable(i)
    else Search(attempts, ruleSet, i + 1)
  }

  /** Given up for the next candidate. */
  predicate PassedOver(a: Attempt, ruleSet: string) {
    a.ChatFailed? || (a.NoBackend? && ruleSet != "")
  }

  ghost predicate AllPassedOver(attempts: seq<Attempt>, ruleSet: string, i: nat, k: nat) {
    k <= |attempts| && forall j :: i <= j < k ==> PassedOver(attempts[j], ruleSet)
  }

  lemma {:induction false} SearchFrom(attempts: seq<Attempt>, ruleSet: string, i: nat, k: nat)
    requires i <= |attempts|
    ensures Search(attempts, ruleSet, i) == Reached(k) <==>
            i <= k < |attempts| && attempts[k].Succeeded? && AllPassedOver(attempts, ruleSet, i, k)
    ensures Search(attempts, ruleSet, i) == Exhausted <==> AllPassedOver(attempts, ruleSet, i, |attempts|)
    decreases |attempts| - i
  {
    if i < |attempts| {
      SearchOn(attempts, ruleSet, i);
      SearchFrom(attempts, ruleSet, i + 1, k);
      PassOne(attempts, ruleSet, i, k);
      PassOne(attempts, ruleSet, i, |attempts|);
    }
  }

  lemma PassOne(attempts: seq<Attempt>, ruleSet: string, i: nat, k: nat)
    requires i < |attempts|
    ensures i < k ==>
      (AllPassedOver(attempts, ruleSet, i, k) <==>
       PassedOver(attempts[i], ruleSet) && AllPassedOver(attempts, ruleSet, i + 1, k))
    ensures AllPassedOver(attempts, ruleSet, i, i)
  {
    if i < k && PassedOver(attempts[i], ruleSet) && AllPassedOver(attempts, ruleSet, i + 1, k) {
      forall j | i <= j < k
        ensures PassedOver(attempts[j], ruleSet)
      {
      }
    }
  }

  /** The search refines "the first that routes and succeeds": it reaches `k` exactly when `k`
      succeeds and all before it were given up, and it is exhausted exactly when all were. */
  lemma FirstSuccess(attempts: seq<Attempt>, ruleSet: string, k: nat)
    ensures Search(attempts, ruleSet, 0) == Reached(k) <==>
            k < |attempts| && attempts[k].Succeeded? && forall j :: 0 <= j < k ==> PassedOver(attempts[j], ruleSet)
    ensures Search(attempts, ruleSet, 0) == Exhausted <==> forall a :: a in attempts ==> PassedOver(a, ruleSet)
    ensures ruleSet != "" ==> !Search(attempts, ruleSet, 0).Unroutable?
  {
    SearchFrom(attempts, ruleSet, 0, k);
    if ruleSet != "" {
      NeverUnroutable(attempts, ruleSet, 0);
    }
  }

  lemma {:induction false} NeverUnroutable(attempts: seq<Attempt>, ruleSet: string, i: nat)
    requires ruleSet != ""
    ensures !Search(attempts, ruleSet, i).Unroutable?
    decreases |attempts| - i
  {
    if i < |attempts| {
      NeverUnroutable(attempts, ruleSet, i + 1);
    }
  }

  lemma {:induction false} TriedInRange(attempts: seq<Attempt>, ruleSet: string, i: nat)
    requires i <= |attempts|
    ensures i <= Tried(Search(attempts, ruleSet, i), |attempts|) <= |attempts|
    decreases |attempts| - i
  {
    if i < |attempts| {
      TriedInRange(attempts, ruleSet, i + 1);
    }
  }

  /** The outcome points at an attempt, and a success at one that succeeded. */
  predicate IsOutcomeOf(out: Outcome, attempts: seq<Attempt>) {
    match out
    case Reached(i) => i < |attempts| && attempts[i].Succeeded?
    case Unroutable(i) => i < |attempts|
    case Exhausted => true
  }

  lemma SearchFits(attempts: seq<Attempt>, ruleSet: string)
    ensures IsOutcomeOf(Search(attempts, ruleSet, 0), attempts)
  {
    TriedInRange(attempts, ruleSet, 0);
    var out := Search(attempts, ruleSet, 0);
    if out.Reached? {
      FirstSuccess(attempts, ruleSet, out.i);
    }
  }

  /** The search does not depend on what it does not try. */
  lemma {:induction false} SearchDepends(a: seq<Attempt>, b: seq<Attempt>, ruleSet: string, i: nat)
    requires |a| == |b| && i <= |a|
    requires forall j :: i <= j < Tried(Search(a, ruleSet, i), |a|) && j < |a| ==> a[j] == b[j]
    ensures Search(b, ruleSet, i) == Search(a, ruleSet, i)
    decreases |a| - i
  {
    if i < |a| {
      TriedInRange(a, ruleSet, i);
      if PassedOver(a[i], ruleSet) {
        TriedInRange(a, ruleSet, i + 1);
        SearchDepends(a, b, ruleSet, i + 1);
      }
    }
  }

  const NO_CANDIDATES := "no candidates"

  function ErrorOf(a: Attempt, model: string): string {
    if a.ChatFailed? then "backend error: " + a.error else "model not available: " + model
  }

  /** The error of the last of these attempts. */
  function LastError(attempts: seq<Attempt>, models: seq<string>): string
    requires |attempts| == |models|
  {
    if attempts == [] then NO_CANDIDATES else ErrorOf(attempts[|attempts| - 1], models[|models| - 1])
  }

  lemma LastErrorAt(attempts: seq<Attempt>, models: seq<string>, i: nat)
    requires i < |attempts| == |models|
    ensures LastError(attempts[..i + 1], models[..i + 1]) == ErrorOf(attempts[i], models[i])
  {
  }

  // ------------------------------------------------------------------ chat completions

  /** An answer, what is written to the usage store for it, and what upstreams were sent. */
  datatype Effect = Effect(answer: Answer, steps: seq<Usage.Step>, asked: seq<Asked>)

  function Turned(answer: Answer): Effect {
    Effect(answer, [], [])
  }

  function CallOf(member: string, model: string, backend: Registry.Backend, reply: Reply): Usage.Call {
    var (pt, ct) := ExtractUsage(reply);
    Usage.Call(member, backend.usageLabel, model, pt, ct)
  }

  function Charged(member: string, plan: Plan, model: string, backend: Registry.Backend,
                   reply: Reply): seq<Usage.Step> {
    var call := CallOf(member, model, backend, reply);
    [Usage.Record(call)] +
    if plan.ruleSet == "" then [] else [Usage.RecordRule(member, plan.ruleSet, call.Cost())]
  }

  /** A streaming request cannot change models half-way: only the first is tried. */
  function ChatPlan(f: Front, policy: Policy, body: Json): Plan {
    var plan := PlanFor(f.ruleSets, GetStr(body, "model").GetOr(""), Estimate(policy.text(body)));
    if WantsStream(body) && |plan.candidates| > 1 then plan.(candidates := plan.candidates[..1]) else plan
  }

  function Estimate(text: RequestText): U64 {
    Rules.EstimateTokens(text)
  }

  function ChatBody(stream: bool, reply: Reply): Body {
    if stream then EventStream(OpenAiSse.Frames(OpenAiSse.Chunks(reply)) + OpenAiSse.Done()) else PlainJson(reply)
  }

  function ChatAttempts(f: Front, policy: Policy, body: Json, worlds: nat -> World): seq<Attempt> {
    Attempts(worlds, ChatPlan(f, policy, body).candidates, Upstream(body))
  }

  function Chat(f: Front, policy: Policy, token: Option<string>, now: nat, body: Json, worlds: nat -> World): Effect {
    match Admit(f, token, now)
    case Err(answer) => Turned(answer)
    case Ok(session) =>
      match policy.check(policy.text(body))
      case Some(category) => Turned(Blocked(category))
      case None => Dispatched(ChatPlan(f, policy, body), session.memberId, body, ChatAttempts(f, policy, body, worlds))
  }

  /** The answer for a request that was let in. */
  function Dispatched(plan: Plan, member: string, body: Json, attempts: seq<Attempt>): Effect
    requires |attempts| == |plan.candidates|
  {
    SearchFits(attempts, plan.ruleSet);
    Concluded(plan, member, body, attempts, Search(attempts, plan.ruleSet, 0))
  }

  /** The answer when the search has ended. */
  function Concluded(plan: Plan, member: string, body: Json, attempts: seq<Attempt>, out: Outcome): Effect
    requires |attempts| == |plan.candidates| && IsOutcomeOf(out, attempts)
  {
    match out
    case Unroutable(i) => Effect(NotAvailable(GetStr(body, "model").GetOr("")), [],
                                 AskedIn(attempts[..i + 1], Upstream(body)))
    case Exhausted =>
      Effect(AllFailed(LastError(attempts, plan.candidates), plan.ruleSet), [], AskedIn(attempts, Upstream(body)))
    case Reached(i) => Success(plan, member, body, attempts, i)
  }

  /** Candidate `i` served the request. */
  function Success(plan: Plan, member: string, body: Json, attempts: seq<Attempt>, i: nat): Effect
    requires i < |attempts| == |plan.candidates| && attempts[i].Succeeded?
  {
    Effect(Served(plan.ruleSet, plan.candidates[i], ChatBody(WantsStream(body), attempts[i].reply)),
           Charged(member, plan, plan.candidates[i], attempts[i].backend, attempts[i].reply),
           AskedIn(attempts[..i + 1], Upstream(body)))
  }

  /** Past every check that comes before an upstream is called. */
  predicate Enters(f: Front, policy: Policy, token: Option<string>, now: nat, body: Json) {
    Admit(f, token, now).Ok? && policy.check(policy.text(body)).None?
  }

  ghost predicate FirstToSucceed(attempts: seq<Attempt>, ruleSet: string, k: nat) {
    k < |attempts| && attempts[k].Succeeded? && AllPassedOver(attempts, ruleSet, 0, k)
  }

  ghost predicate FirstWithoutBackend(attempts: seq<Attempt>, k: nat) {
    k < |attempts| && attempts[k].NoBackend? && forall j :: 0 <= j < k ==> attempts[j].ChatFailed?
  }

  lemma {:induction false} UnroutableExactly(attempts: seq<Attempt>, i: nat) returns (k: nat)
    requires i <= |attempts| && Search(attempts, "", i).Unroutable?
    ensures i <= k < |attempts| && attempts[k].NoBackend? && forall j :: i <= j < k ==> attempts[j].ChatFailed?
    decreases |attempts| - i
  {
    k := i;
    if !attempts[i].NoBackend? {
      k := UnroutableExactly(attempts, i + 1);
    }
  }

  /** How the search ends, in terms of the attempts alone. */
  lemma SearchEnds(attempts: seq<Attempt>, ruleSet: string)
    ensures
      var out := Search(attempts, ruleSet, 0);
      (out.Reached? <==> exists k: nat :: FirstToSucceed(attempts, ruleSet, k)) &&
      (out.Unroutable? <==> ruleSet == "" && exists k: nat :: FirstWithoutBackend(attempts, k)) &&
      (out.Exhausted? <==> forall a :: a in attempts ==> PassedOver(a, ruleSet))
  {
    var out := Search(attempts, ruleSet, 0);
    FirstSuccess(attempts, ruleSet, if out.Reached? then out.i else 0);
    if out.Reached? {
      assert FirstToSucceed(attempts, ruleSet, out.i);
    }
    if out.Unroutable? {
      var k := UnroutableExactly(attempts, 0);
      assert FirstWithoutBackend(attempts, k) && attempts[k] in attempts;
    }
    if k: nat :| FirstToSucceed(attempts, ruleSet, k) {
      FirstSuccess(attempts, ruleSet, k);
    }
    if k: nat :| FirstWithoutBackend(attempts, k) && ruleSet == "" {
      assert attempts[k] in attempts;
    }
  }

  lemma DispatchedStatus(plan: Plan, member: string, body: Json, attempts: seq<Attempt>)
    requires |attempts| == |plan.candidates|
    ensures
      var status := Dispatched(plan, member, body, attempts).answer.Status();
      (status == 200 <==> exists k: nat :: FirstToSucceed(attempts, plan.ruleSet, k)) &&
      (status == 502 <==> plan.ruleSet != "" && forall a :: a in attempts ==> !a.Succeeded?) &&
      (status == 500 <==> plan.ruleSet == "" && forall a :: a in attempts ==> a.ChatFailed?) &&
      (status == 400 <==> plan.ruleSet == "" && exists k: nat :: FirstWithoutBackend(attempts, k))
  {
    SearchEnds(attempts, plan.ruleSet);
    SearchFits(attempts, plan.ruleSet);
    ConcludedStatus(plan, member, body, attempts, Search(attempts, plan.ruleSet, 0));
  }

  lemma ConcludedStatus(plan: Plan, member: string, body: Json, attempts: seq<Attempt>, out: Outcome)
    requires |attempts| == |plan.candidates| && IsOutcomeOf(out, attempts)
    ensures Concluded(plan, member, body, attempts, out).answer.Status() ==
            match out {
              case Reached(_) => 200
              case Unroutable(_) => 400
              case Exhausted => if plan.ruleSet == "" then 500 else 502
            }
  {
  }

  /** The upstreams that are asked are those of the attempts that are tried, in order, once each. */
  lemma DispatchedAsks(plan: Plan, member: string, body: Json, attempts: seq<Attempt>)
    requires |attempts| == |plan.candidates|
    ensures
      var n := Tried(Search(attempts, plan.ruleSet, 0), |attempts|);
      n <= |attempts| && Dispatched(plan, member, body, attempts).asked == AskedIn(attempts[..n], Upstream(body))
  {
    SearchFits(attempts, plan.ruleSet);
    ConcludedAsks(plan, member, body, attempts, Search(attempts, plan.ruleSet, 0));
  }

  lemma ConcludedAsks(plan: Plan, member: string, body: Json, attempts: seq<Attempt>, out: Outcome)
    requires |attempts| == |plan.candidates| && IsOutcomeOf(out, attempts)
    ensures
      var n := Tried(out, |attempts|);
      n <= |attempts| && Concluded(plan, member, body, attempts, out).asked == AskedIn(attempts[..n], Upstream(body))
  {
    assert attempts[..|attempts|] == attempts;
  }

  lemma ConcludedDepends(plan: Plan, member: string, body: Json, a: seq<Attempt>, b: seq<Attempt>, out: Outcome)
    requires |a| == |b| == |plan.candidates| && IsOutcomeOf(out, a) && IsOutcomeOf(out, b)
    requires a[..Tried(out, |a|)] == b[..Tried(out, |a|)]
    ensures Concluded(plan, member, body, a, out) == Concluded(plan, member, body, b, out)
  {
    if out.Exhausted? {
      assert a == a[..|a|] && b == b[..|b|];
    } else if out.Reached? {
      assert a[out.i] == a[..out.i + 1][out.i] && b[out.i] == b[..out.i + 1][out.i];
    }
  }

  lemma DispatchedDepends(plan: Plan, member: string, body: Json, a: seq<Attempt>, b: seq<Attempt>)
    requires |a| == |b| == |plan.candidates|
    requires forall j :: 0 <= j < Tried(Search(a, plan.ruleSet, 0), |a|) && j < |a| ==> a[j] == b[j]
    ensures Dispatched(plan, member, body, a) == Dispatched(plan, member, body, b)
  {
    var out := Search(a, plan.ruleSet, 0);
    SearchFits(a, plan.ruleSet);
    SearchFits(b, plan.ruleSet);
    SearchDepends(a, b, plan.ruleSet, 0);
    assert a[..Tried(out, |a|)] == b[..Tried(out, |a|)];
    ConcludedDepends(plan, member, body, a, b, out);
  }

  /** How many candidates a chat request tries. */
  function ChatTries(f: Front, policy: Policy, body: Json, worlds: nat -> World): nat {
    var attempts := ChatAttempts(f, policy, body, worlds);
    Tried(Search(attempts, ChatPlan(f, policy, body).ruleSet, 0), |attempts|)
  }

  /** A chat request tries a prefix of its candidates, up to the first success if there is one; it
      asks the upstreams of that prefix, in order, and no others. */
  lemma ChatTriesPrefix(f: Front, policy: Policy, token: Option<string>, now: nat, body: Json, worlds: nat -> World,
                        k: nat)
    requires Enters(f, policy, token, now, body)
    ensures
      var attempts, n := ChatAttempts(f, policy, body, worlds), ChatTries(f, policy, body, worlds);
      n <= |attempts| && Chat(f, policy, token, now, body, worlds).asked == AskedIn(attempts[..n], Upstream(body)) &&
      (FirstToSucceed(attempts, ChatPlan(f, policy, body).ruleSet, k) ==> n == k + 1)
  {
    var plan, attempts := ChatPlan(f, policy, body), ChatAttempts(f, policy, body, worlds);
    DispatchedAsks(plan, Admit(f, token, now).value.memberId, body, attempts);
    FirstSuccess(attempts, plan.ruleSet, k);
  }

  /** What the upstreams after that would have done makes no difference to anything. */
  lemma UntriedDoNotMatter(f: Front, policy: Policy, token: Option<string>, now: nat, body: Json, worlds: nat -> World,
                           others: nat -> World)
    requires forall i :: 0 <= i < ChatTries(f, policy, body, worlds) ==> worlds(i) == others(i)
    ensures Chat(f, policy, token, now, body, worlds) == Chat(f, policy, token, now, body, others)
  {
    if Enters(f, policy, token, now, body) {
      var a, b := ChatAttempts(f, policy, body, worlds), ChatAttempts(f, policy, body, others);
      DispatchedDepends(ChatPlan(f, policy, body), Admit(f, token, now).value.memberId, body, a, b);
    }
  }

  /** Which answer a chat request gets, for every store, policy, upstream and interleaving: 200
      exactly if some candidate is the first to succeed, 502 exactly if a rule was hit and all its
      candidates failed, 500 and 400 only without a rule. */
  lemma ChatStatus(f: Front, policy: Policy, token: Option<string>, now: nat, body: Json, worlds: nat -> World)
    ensures
      var status := Chat(f, policy, token, now, body, worlds).answer.Status();
      var ruleSet, attempts := ChatPlan(f, policy, body).ruleSet, ChatAttempts(f, policy, body, worlds);
      if !Enters(f, policy, token, now, body) then status in {503, 401, 429, 403}
      else
        (status == 200 <==> exists k: nat :: FirstToSucceed(attempts, ruleSet, k)) &&
        (status == 502 <==> ruleSet != "" && forall a :: a in attempts ==> !a.Succeeded?) &&
        (status == 500 <==> ruleSet == "" && forall a :: a in attempts ==> a.ChatFailed?) &&
        (status == 400 <==> ruleSet == "" && exists k: nat :: FirstWithoutBackend(attempts, k))
  {
    if Enters(f, policy, token, now, body) {
      var session := Admit(f, token, now).value;
      DispatchedStatus(ChatPlan(f, policy, body), session.memberId, body, ChatAttempts(f, policy, body, worlds));
    }
  }

  /** A rule set named "" is hit by a request without a model, and dispatched like no rule: the first
      of its candidates that nobody serves ends the search with 400, and if all fail it is 500. */
  lemma EmptyNameIsNoRule(f: Front, policy: Policy, token: Option<string>, now: nat, body: Json, worlds: nat -> World,
                          rule: Rules.Rule)
    requires rule == Rules.Rule("*", 0, "fixed", [Rules.Candidate("x", None)], ["y"])
    requires f.ruleSets == map["" := Rules.RuleSet("r", "", 1, [rule])]
    requires body == Obj(map[]) && Enters(f, policy, token, now, body)
    ensures ChatPlan(f, policy, body) == Plan("", ["x", "y"])
    ensures
      var answer := Chat(f, policy, token, now, body, worlds).answer;
      (Try(worlds(0), "x", body).NoBackend? ==> answer.Status() == 400) &&
      (Try(worlds(0), "x", body).ChatFailed? && Try(worlds(1), "y", body).ChatFailed? ==> answer.Status() == 500)
  {
    var est := Estimate(policy.text(body));
    ChosenAlone(rule);
    OneCandidate(rule.candidates, rule.fallback);
    Rules.ResolvedExactly(f.ruleSets, "", est);
    assert Rules.Resolved(f.ruleSets, "", est) == Some(Rules.Resolution("", ["x", "y"]));
    var plan, attempts := ChatPlan(f, policy, body), ChatAttempts(f, policy, body, worlds);
    assert attempts == [Try(worlds(0), "x", body), Try(worlds(1), "y", body)];
    TwoAttempts(attempts[0], attempts[1]);
  }

  lemma TwoAttempts(a: Attempt, b: Attempt)
    ensures a.NoBackend? ==> Search([a, b], "", 0) == Unroutable(0)
    ensures a.ChatFailed? && b.ChatFailed? ==> Search([a, b], "", 0) == Exhausted
  {
    assert Search([a, b], "", 2) == Exhausted;
    assert b.ChatFailed? ==> Search([a, b], "", 1) == Exhausted;
  }

  lemma ChosenAlone(rule: Rules.Rule)
    requires rule.matchModel == "*"
    ensures Rules.ChooseRule([rule], "") == Some(rule)
  {
    assert [rule][0] == rule;
  }

  lemma OneCandidate(candidates: seq<Rules.Candidate>, fallback: seq<string>)
    requires candidates == [Rules.Candidate("x", None)] && fallback == ["y"]
    ensures Rules.NamesOf(candidates) + Rules.NonEmpty(fallback) == ["x", "y"]
  {
    assert candidates[1..] == [] && fallback[1..] == [];
    assert Rules.NamesOf(candidates) == ["x"];
    assert Rules.NonEmpty(fallback) == ["y"];
  }

  /** The token was put in place by the history of the auth service for session `x`, which is still good. */
  ghost predicate TokenIsGood(setup: Auth.Setup, events: seq<Auth.Event>, token: Option<string>, now: nat,
                              x: Auth.Session) {
    token == Some(x.token) && now <= x.expiresAt &&
    Auth.HasOrigin(setup, events, x) && !Auth.IsBannedBy(setup, events, x.memberId)
  }

  predicate WithinQuota(f: Front, member: string) {
    member in f.quotas && f.quotas[member] > 0 ==> Usage.UsageOf(f.store, member).Total() < f.quotas[member]
  }

  /** Who is refused and why, from the history of the auth service: the first check that fails
      decides, in the order sharing, token, quota, policy. */
  lemma RefusalsExactly(f: Front, policy: Policy, token: Option<string>, now: nat, body: Json, worlds: nat -> World,
                        setup: Auth.Setup, events: seq<Auth.Event>, x: Auth.Session)
    requires f.auth == Auth.Run(setup, events) && Auth.Legal(events)
    ensures Admit(f, token, now) == Ok(x) <==>
            f.sharing && TokenIsGood(setup, events, token, now, x) && WithinQuota(f, x.memberId)
    ensures
      var status := Chat(f, policy, token, now, body, worlds).answer.Status();
      (status == 503 <==> !f.sharing) &&
      (status == 401 ==> !TokenIsGood(setup, events, token, now, x)) &&
      (f.sharing && TokenIsGood(setup, events, token, now, x) ==>
        (status == 429 <==> !WithinQuota(f, x.memberId)) &&
        (status == 403 <==> WithinQuota(f, x.memberId) && policy.check(policy.text(body)).Some?))
  {
    if token.Some? {
      Auth.VerifiesExactly(setup, events, token.value, now, x);
    }
    if Enters(f, policy, token, now, body) {
      var member := Admit(f, token, now).value.memberId;
      DispatchedStatuses(ChatPlan(f, policy, body), member, body, ChatAttempts(f, policy, body, worlds));
    }
  }

  lemma DispatchedStatuses(plan: Plan, member: string, body: Json, attempts: seq<Attempt>)
    requires |attempts| == |plan.candidates|
    ensures Dispatched(plan, member, body, attempts).answer.Status() in {200, 400, 500, 502}
  {
    SearchFits(attempts, plan.ruleSet);
  }

  // ------------------------------------------------------------------------ charges

  function Apply(store: Usage.Store, steps: seq<Usage.Step>): Usage.Store
    decreases |steps|
  {
    if steps == [] then store else Apply(Usage.After(store, steps[0]), steps[1..])
  }

  lemma ApplyOne(store: Usage.Store, a: Usage.Step)
    ensures Apply(store, [a]) == Usage.After(store, a)
  {
    assert [a][1..] == [];
  }

  lemma ApplyOneOrTwo(store: Usage.Store, a: Usage.Step, b: Usage.Step)
    ensures Apply(store, [a]) == Usage.After(store, a)
    ensures Apply(store, [a] + [b]) == Usage.After(Usage.After(store, a), b)
  {
    ApplyOne(store, a);
    ApplyOne(Usage.After(store, a), b);
    assert ([a] + [b])[1..] == [b];
  }

  /** A success costs the member exactly what the reply says, once, as one call; nobody else
      anything; and a rule's share is the same number of tokens. */
  lemma ChargedOnce(store: Usage.Store, member: string, plan: Plan, model: string, backend: Registry.Backend,
                    reply: Reply,
                    other: string)
    ensures
      var after := Apply(store, Charged(member, plan, model, backend, reply));
      var u, v := Usage.UsageOf(store, member), Usage.UsageOf(after, member);
      var cost := CallOf(member, model, backend, reply).Cost();
      v.Total() == u.Total() + cost && v.calls == u.calls + 1 &&
      (plan.ruleSet == "" ==> v.ruleSetTokens == u.ruleSetTokens) &&
      (plan.ruleSet != "" ==> v.ruleSetTokens == Usage.Added(u.ruleSetTokens, plan.ruleSet, cost)) &&
      (other != member ==> Usage.UsageOf(after, other) == Usage.UsageOf(store, other))
  {
    var call := CallOf(member, model, backend, reply);
    ApplyOneOrTwo(store, Usage.Record(call), Usage.RecordRule(member, plan.ruleSet, call.Cost()));
  }

  lemma ConcludedCharges(plan: Plan, member: string, body: Json, attempts: seq<Attempt>, out: Outcome)
    requires |attempts| == |plan.candidates| && IsOutcomeOf(out, attempts)
    ensures
      var e := Concluded(plan, member, body, attempts, out);
      (e.steps == [] <==> !out.Reached?) && (e.answer.Status() == 200 <==> out.Reached?)
  {
  }

  lemma DispatchedCharges(plan: Plan, member: string, body: Json, attempts: seq<Attempt>, k: nat)
    requires |attempts| == |plan.candidates|
    ensures
      var e := Dispatched(plan, member, body, attempts);
      (e.steps == [] <==> e.answer.Status() != 200) &&
      (FirstToSucceed(attempts, plan.ruleSet, k) ==> e == Success(plan, member, body, attempts, k))
  {
    SearchFits(attempts, plan.ruleSet);
    ConcludedCharges(plan, member, body, attempts, Search(attempts, plan.ruleSet, 0));
    FirstSuccess(attempts, plan.ruleSet, k);
  }

  /** Nothing is charged but for an answer of 200, and then exactly the first successful attempt is. */
  lemma ChatCharges(f: Front, policy: Policy, token: Option<string>, now: nat, body: Json, worlds: nat -> World, k: nat)
    ensures
      var e := Chat(f, policy, token, now, body, worlds);
      e.steps == [] <==> e.answer.Status() != 200
    ensures
      var plan, attempts := ChatPlan(f, policy, body), ChatAttempts(f, policy, body, worlds);
      Enters(f, policy, token, now, body) && FirstToSucceed(attempts, plan.ruleSet, k) ==>
        Chat(f, policy, token, now, body, worlds) ==
          Success(plan, Admit(f, token, now).value.memberId, body, attempts, k)
  {
    if Enters(f, policy, token, now, body) {
      var member := Admit(f, token, now).value.memberId;
      DispatchedCharges(ChatPlan(f, policy, body), member, body, ChatAttempts(f, policy, body, worlds), k);
    }
  }

  /** A chat request is, for the quota, an arrival followed by one end: the check is the arrival's
      check, a success records what a success records for the member, and a failure nothing; the
      store it ends on may have moved on in between. */
  lemma ChatIsArriveThenEnd(f: Front, policy: Policy, token: Option<string>, now: nat, body: Json, worlds: nat -> World,
                            x: Auth.Session, inFlight: multiset<string>, later: Quota.Gate, k: nat, other: string)
    requires f.sharing && token.Some? && Auth.Verify(f.auth, token.value, now) == Some(x)
    requires x.memberId in later.inFlight
    ensures
      var arrived := Quota.Next(f.quotas, Quota.Gate(f.store, inFlight), Quota.Arrive(x.memberId));
      arrived.store == f.store &&
      arrived.inFlight == (if Admit(f, token, now).Ok? then inFlight + multiset{x.memberId} else inFlight)
    ensures
      var plan, attempts := ChatPlan(f, policy, body), ChatAttempts(f, policy, body, worlds);
      Enters(f, policy, token, now, body) && FirstToSucceed(attempts, plan.ruleSet, k) ==>
        var e := Chat(f, policy, token, now, body, worlds);
        var call := CallOf(x.memberId, plan.candidates[k], attempts[k].backend, attempts[k].reply);
        var ended := Quota.Next(f.quotas, later, Quota.Succeed(call));
        Usage.UsageOf(Apply(later.store, e.steps), other).Total() == Quota.Total(ended, other)
    ensures
      var e := Chat(f, policy, token, now, body, worlds);
      e.answer.Status() != 200 ==>
        Apply(later.store, e.steps) == Quota.Next(f.quotas, later, Quota.Fail(x.memberId)).store
  {
    ChatCharges(f, policy, token, now, body, worlds, k);
    var plan, attempts := ChatPlan(f, policy, body), ChatAttempts(f, policy, body, worlds);
    if Enters(f, policy, token, now, body) && FirstToSucceed(attempts, plan.ruleSet, k) {
      ChargedLikeQuota(later, x.memberId, plan, plan.candidates[k], attempts[k].backend, attempts[k].reply, other);
    }
  }

  lemma ChargedLikeQuota(g: Quota.Gate, member: string, plan: Plan, model: string, backend: Registry.Backend,
                         reply: Reply,
                         other: string)
    ensures
      var call := CallOf(member, model, backend, reply);
      Usage.UsageOf(Apply(g.store, Charged(member, plan, model, backend, reply)), other).Total() ==
      Usage.UsageOf(Usage.Recorded(g.store, call), other).Total()
  {
    var call := CallOf(member, model, backend, reply);
    ApplyOneOrTwo(g.store, Usage.Record(call), Usage.RecordRule(member, plan.ruleSet, call.Cost()));
  }

  /** A streaming request depends on the first attempt alone. */
  lemma StreamTriesOne(f: Front, policy: Policy, token: Option<string>, now: nat, body: Json, worlds: nat -> World,
                       others: nat -> World)
    requires WantsStream(body) && worlds(0) == others(0)
    ensures Chat(f, policy, token, now, body, worlds) == Chat(f, policy, token, now, body, others)
  {
    var attempts := ChatAttempts(f, policy, body, worlds);
    assert |attempts| <= 1;
    TriedInRange(attempts, ChatPlan(f, policy, body).ruleSet, 0);
    UntriedDoNotMatter(f, policy, token, now, body, worlds, others);
  }

  /** What a streaming client assembles is the normal form of what the first successful upstream replied. */
  lemma StreamedChatAssembles(f: Front, policy: Policy, token: Option<string>, now: nat, body: Json,
                              worlds: nat -> World, k: nat)
    requires Enters(f, policy, token, now, body) && WantsStream(body)
    requires FirstToSucceed(ChatAttempts(f, policy, body, worlds), ChatPlan(f, policy, body).ruleSet, k)
    ensures
      var answer := Chat(f, policy, token, now, body, worlds).answer;
      answer.Served? && answer.body.EventStream? &&
      OpenAiSse.AssembleText(answer.body.text) ==
        Ok(OpenAiSse.Normalized(ChatAttempts(f, policy, body, worlds)[k].reply))
  {
    ChatCharges(f, policy, token, now, body, worlds, k);
    OpenAiSse.PrintedStreamAssembles(ChatAttempts(f, policy, body, worlds)[k].reply);
  }

  /** Attempt `i` sees the registry built from `backends[i]` and the health left by `runs[i]`. */
  ghost predicate RoutedBy(worlds: nat -> World, backends: nat -> seq<Registry.Backend>,
                           runs: nat -> seq<Health.Event>) {
    forall i, model :: worlds(i).route(model) ==
      Registry.Routed(Registry.IndexOf(backends(i)), Health.Run(runs(i)).states, model)
  }

  /** Whatever polls, edits and replacements run in between, no request is served by a backend
      that had failed out when it was tried. */
  lemma ServedByWorkingBackend(f: Front, policy: Policy, body: Json, worlds: nat -> World,
                               backends: nat -> seq<Registry.Backend>, runs: nat -> seq<Health.Event>, k: nat)
    requires RoutedBy(worlds, backends, runs)
    requires k < |ChatAttempts(f, policy, body, worlds)| && ChatAttempts(f, policy, body, worlds)[k].Succeeded?
    ensures !Registry.FailedOut(runs(k), ChatAttempts(f, policy, body, worlds)[k].backend.name)
  {
    var model := ChatPlan(f, policy, body).candidates[k];
    assert worlds(k).route(model) == Some(ChatAttempts(f, policy, body, worlds)[k].backend);
    Registry.IndexedNamesResolve(backends(k));
    Registry.RouteAvoidsRemoved(Registry.IndexOf(backends(k)), Health.Run(runs(k)).states, model);
    Registry.RemovedIffFailedOut(runs(k), ChatAttempts(f, policy, body, worlds)[k].backend.name);
  }

  // ----------------------------------------------------------------- field by field

  /** What is recorded of a success: the member, the backend's label, the model that was tried, and
      the reply's own token counts (0 for one that is missing). */
  lemma CallHolds(member: string, model: string, backend: Registry.Backend, reply: Reply)
    ensures
      var call, usage := CallOf(member, model, backend, reply), Field(Some(reply), "usage");
      call.member == member && call.provider == backend.usageLabel && call.model == model &&
      call.promptTokens == NumberIn(Field(usage, "prompt_tokens")).GetOr(0) &&
      call.completionTokens == NumberIn(Field(usage, "completion_tokens")).GetOr(0)
  {
    OpenAiSse.ReplyFields(reply);
  }

  /** What a success answers and records, for the first candidate that succeeds: that candidate by
      name, the rule set, the reply itself unless it is streamed; one call, and the rule set's share
      of the same cost if there is one. */
  lemma ServedHolds(f: Front, policy: Policy, token: Option<string>, now: nat, body: Json, worlds: nat -> World, k: nat)
    requires Enters(f, policy, token, now, body)
    requires FirstToSucceed(ChatAttempts(f, policy, body, worlds), ChatPlan(f, policy, body).ruleSet, k)
    ensures
      var e, plan := Chat(f, policy, token, now, body, worlds), ChatPlan(f, policy, body);
      var a := ChatAttempts(f, policy, body, worlds)[k];
      var member := Auth.Verify(f.auth, token.value, now).value.memberId;
      e.answer.Served? && e.answer.ruleSet == plan.ruleSet && e.answer.upstream == plan.candidates[k] &&
      (!WantsStream(body) ==> e.answer.body == PlainJson(a.reply)) &&
      e.steps != [] && e.steps[0] == Usage.Record(CallOf(member, plan.candidates[k], a.backend, a.reply)) &&
      (plan.ruleSet == "" ==> |e.steps| == 1) &&
      (plan.ruleSet != "" ==>
        |e.steps| == 2 && e.steps[1] == Usage.RecordRule(member, plan.ruleSet, e.steps[0].call.Cost()))
  {
    ChatCharges(f, policy, token, now, body, worlds, k);
  }

  /** What a failure answers: without a rule set, the requested model by name if the first that nobody
      serves ends the search; else the error of the last candidate. */
  lemma FailedHolds(f: Front, policy: Policy, token: Option<string>, now: nat, body: Json, worlds: nat -> World)
    requires Enters(f, policy, token, now, body)
    ensures
      var answer := Chat(f, policy, token, now, body, worlds).answer;
      var plan, attempts := ChatPlan(f, policy, body), ChatAttempts(f, policy, body, worlds);
      (answer.Status() == 400 ==> answer == NotAvailable(TextIn(Field(Some(body), "model")).GetOr(""))) &&
      (answer.Status() in {500, 502} ==>
        answer.AllFailed? && answer.ruleSet == plan.ruleSet && attempts != [] &&
        answer.error ==
          if attempts[|attempts| - 1].ChatFailed? then "backend error: " + attempts[|attempts| - 1].error
          else "model not available: " + plan.candidates[|attempts| - 1])
  {
    ChatPlanExactly(f, policy, body);
    var plan, attempts := ChatPlan(f, policy, body), ChatAttempts(f, policy, body, worlds);
    SearchFits(attempts, plan.ruleSet);
    ConcludedStatus(plan, Admit(f, token, now).value.memberId, body, attempts, Search(attempts, plan.ruleSet, 0));
  }

  /** Which models are tried: without a hit the requested name itself; on a hit what the rule
      resolves to, and of that only the first if the request wants a stream. */
  lemma ChatPlanExactly(f: Front, policy: Policy, body: Json)
    ensures
      var model := TextIn(Field(Some(body), "model")).GetOr("");
      var resolved := Rules.Resolved(f.ruleSets, model, Rules.EstimateTokens(policy.text(body)));
      var streams := Field(Some(body), "stream") == Some(Bool(true));
      var plan := ChatPlan(f, policy, body);
      match resolved {
        case None => plan == Plan("", [model])
        case Some(r) =>
          r.candidates != [] && plan.ruleSet == r.ruleSet &&
          plan.candidates == if streams then [r.candidates[0]] else r.candidates
      }
  {
    PlanOf(f.ruleSets, TextIn(Field(Some(body), "model")).GetOr(""), Rules.EstimateTokens(policy.text(body)));
  }

  /** One attempt succeeds exactly if the model routes and that backend replies; it fails in the chat
      exactly if the model routes and that backend reports this error. */
  lemma TryExactly(w: World, model: string, fwd: Json, b: Registry.Backend, reply: Reply, error: string)
    ensures Try(w, model, fwd) == Succeeded(b, reply) <==> w.route(model) == Some(b) && w.chat(b.name, fwd) == Ok(reply)
    ensures Try(w, model, fwd).NoBackend? <==> w.route(model).None?
    ensures w.route(model) == Some(b) ==>
      (Try(w, model, fwd) == ChatFailed(b.name, error) <==> w.chat(b.name, fwd) == Err(error))
  {
  }

  /** The upstreams asked in a list of attempts: for each model that routes, its backend, with the
      body to forward. */
  ghost function RoutedAsks(worlds: nat -> World, models: seq<string>, fwd: Json, n: nat): seq<Asked>
    requires n <= |models|
  {
    if n == 0 then []
    else
      RoutedAsks(worlds, models, fwd, n - 1) +
      match worlds(n - 1).route(models[n - 1]) {
        case None => []
        case Some(b) => [Asked(b.name, fwd)]
      }
  }

  lemma {:induction false} AskedAreRouted(worlds: nat -> World, models: seq<string>, fwd: Json, n: nat)
    requires n <= |models|
    ensures AskedIn(Attempts(worlds, models, fwd)[..n], fwd) == RoutedAsks(worlds, models, fwd, n)
  {
    if n > 0 {
      AskedAreRouted(worlds, models, fwd, n - 1);
      AskedMore(Attempts(worlds, models, fwd), n - 1, fwd);
    }
  }

  /** Who is turned away as unauthorized: exactly those whose token is good for no session. */
  lemma UnauthorizedExactly(f: Front, policy: Policy, token: Option<string>, now: nat, body: Json, worlds: nat -> World,
                            setup: Auth.Setup, events: seq<Auth.Event>)
    requires f.auth == Auth.Run(setup, events) && Auth.Legal(events)
    ensures Chat(f, policy, token, now, body, worlds).answer.Status() == 401 <==>
            f.sharing && forall y :: !TokenIsGood(setup, events, token, now, y)
  {
    if token.Some? {
      forall y
        ensures Auth.Verify(f.auth, token.value, now) == Some(y) <==> TokenIsGood(setup, events, token, now, y)
      {
        Auth.VerifiesExactly(setup, events, token.value, now, y);
      }
    }
    if Enters(f, policy, token, now, body) {
      var member := Admit(f, token, now).value.memberId;
      DispatchedStatuses(ChatPlan(f, policy, body), member, body, ChatAttempts(f, policy, body, worlds));
    }
    if Auth.Verify(f.auth, token.GetOr(""), now).Some? && token.Some? {
      assert TokenIsGood(setup, events, token, now, Auth.Verify(f.auth, token.value, now).value);
    }
  }

  // ----------------------------------------------------------------------- messages

  function MessagesBody(stream: bool, reply: Reply): Body {
    if stream then EventStream(AnthropicSse.EventsText(AnthropicSse.Events(reply)))
    else PlainJson(Anthropic.AnthropicReply(reply))
  }

  function MessagesPlan(f: Front, policy: Policy, body: Json): Plan {
    var plan := PlanFor(f.ruleSets, GetStr(Anthropic.OpenAiRequest(body), "model").GetOr(""),
                        Estimate(policy.text(body)));
    if |plan.candidates| > 1 then plan.(candidates := plan.candidates[..1]) else plan
  }

  /** `body` is None if the bytes are not JSON. */
  function Messages(f: Front, policy: Policy, token: Option<string>, now: nat, body: Option<Json>, w: World): Effect {
    match Admit(f, token, now)
    case Err(answer) => Turned(answer)
    case Ok(session) =>
      if body.None? then Turned(BadJson)
      else
        match policy.check(policy.text(body.value))
        case Some(category) => Turned(Blocked(category))
        case None =>
          var plan := MessagesPlan(f, policy, body.value);
          PlanIsNotEmpty(f, policy, body.value);
          var model := plan.candidates[0];
          var attempt := Try(w, model, Anthropic.OpenAiRequest(body.value));
          Attempted(plan.ruleSet, model, session.memberId, WantsStream(body.value),
                    Anthropic.OpenAiRequest(body.value), attempt)
  }

  /** What comes of the one attempt. */
  function Attempted(ruleSet: string, model: string, member: string, stream: bool, request: Json, a: Attempt): Effect {
    match a
    case NoBackend => Effect(NotAvailable(model), [], AskedBy(a, request))
    case ChatFailed(_, error) => Effect(AllFailed("backend error: " + error, ""), [], AskedBy(a, request))
    case Succeeded(backend, reply) =>
      Effect(Served(ruleSet, model, MessagesBody(stream, reply)),
             Charged(member, Plan(ruleSet, [model]), model, backend, reply), AskedBy(a, request))
  }

  /** What is answered before anything is tried here: the same refusals, a body that is no JSON, or the
      policy; nothing is recorded and nobody asked. */
  lemma MessagesRefusals(f: Front, policy: Policy, token: Option<string>, now: nat, body: Option<Json>, w: World)
    requires body.Some? ==> !Enters(f, policy, token, now, body.value)
    ensures
      var e := Messages(f, policy, token, now, body, w);
      e.steps == [] && e.asked == [] &&
      (Admit(f, token, now).Err? ==> e.answer == Admit(f, token, now).error) &&
      (Admit(f, token, now).Ok? ==> e.answer.Status() == if body.None? then 400 else 403)
  {
  }

  /** Which model is tried here: the first that the rule resolves to on a hit, else the requested one. */
  lemma MessagesPlanExactly(f: Front, policy: Policy, body: Json)
    ensures
      var model := TextIn(Field(Some(body), "model")).GetOr("default");
      var resolved := Rules.Resolved(f.ruleSets, model, Rules.EstimateTokens(policy.text(body)));
      match resolved {
        case None => MessagesPlan(f, policy, body) == Plan("", [model])
        case Some(r) => r.candidates != [] && MessagesPlan(f, policy, body) == Plan(r.ruleSet, [r.candidates[0]])
      }
  {
    var model := TextIn(Field(Some(body), "model")).GetOr("default");
    RequestedModel(body);
    PlanOf(f.ruleSets, model, Rules.EstimateTokens(policy.text(body)));
  }

  lemma RequestedModel(body: Json)
    ensures GetStr(Anthropic.OpenAiRequest(body), "model") == Some(TextIn(Field(Some(body), "model")).GetOr("default"))
  {
    AnthropicFields.RequestHolds(body, Anthropic.Messages(body));
  }

  lemma PlanOf(ruleSets: map<string, Rules.RuleSet>, model: string, est: U64)
    ensures
      match Rules.Resolved(ruleSets, model, est) {
        case None => PlanFor(ruleSets, model, est) == Plan("", [model])
        case Some(r) => r.candidates != [] && PlanFor(ruleSets, model, est) == Plan(r.ruleSet, r.candidates)
      }
  {
    Rules.ResolvedExactly(ruleSets, model, est);
  }

  /** What comes of its one attempt: the model and the rule set by name, the translated reply unless
      it is streamed, one call recorded, and the upstream asked once if there is one. */
  lemma AttemptedHolds(ruleSet: string, model: string, member: string, stream: bool, request: Json, a: Attempt)
    ensures
      var e := Attempted(ruleSet, model, member, stream, request, a);
      match a {
        case NoBackend => e.answer == NotAvailable(model) && e.steps == [] && e.asked == []
        case ChatFailed(name, _) => e.answer.Status() == 500 && e.steps == [] && e.asked == [Asked(name, request)]
        case Succeeded(backend, reply) =>
          e.answer.Served? && e.answer.upstream == model && e.answer.ruleSet == ruleSet &&
          (!stream ==> e.answer.body == PlainJson(Anthropic.AnthropicReply(reply))) &&
          e.steps != [] && e.steps[0] == Usage.Record(CallOf(member, model, backend, reply)) &&
          e.asked == [Asked(backend.name, request)]
      }
  {
  }

  lemma MessagesIsAttempted(f: Front, policy: Policy, token: Option<string>, now: nat, body: Json, w: World)
    requires Enters(f, policy, token, now, body)
    ensures
      var plan, request := MessagesPlan(f, policy, body), Anthropic.OpenAiRequest(body);
      var member := Auth.Verify(f.auth, token.value, now).value.memberId;
      |plan.candidates| == 1 &&
      Messages(f, policy, token, now, Some(body), w) ==
      Attempted(plan.ruleSet, plan.candidates[0], member, WantsStream(body), request,
                Try(w, plan.candidates[0], request))
  {
    PlanIsNotEmpty(f, policy, body);
  }

  /** Streaming or not, a client of this endpoint receives the same message. */
  lemma StreamedMessageIsPlain(reply: Reply, limit: nat)
    requires JsonText.Fits(reply, JsonText.RECURSION_LIMIT) &&
             limit >= JsonText.RECURSION_LIMIT + AnthropicSse.EVENT_LEVELS
    ensures
      var frames := AnthropicSse.ReadFrames(Text.Lines(MessagesBody(true, reply).text), "", None);
      var events := AnthropicSse.DecodeAll(frames, limit);
      events.Some? && AnthropicSse.Run(AnthropicSse.IDLE, events.value).Some? &&
      AnthropicSse.Received(AnthropicSse.Run(AnthropicSse.IDLE, events.value).value) ==
        Some(MessagesBody(false, reply).v)
  {
    AnthropicSse.StreamRefinesReply(reply, limit);
  }

  lemma PlanIsNotEmpty(f: Front, policy: Policy, body: Json)
    ensures |MessagesPlan(f, policy, body).candidates| == 1
  {
  }

  /** The messages endpoint is a chat that tries one model and treats a rule's model like any other:
      same admission, same charge, and never a 502. */
  lemma MessagesIsOneAttempt(f: Front, policy: Policy, token: Option<string>, now: nat, body: Json, w: World)
    requires Enters(f, policy, token, now, body)
    ensures
      var plan, request := MessagesPlan(f, policy, body), Anthropic.OpenAiRequest(body);
      var e := Messages(f, policy, token, now, Some(body), w);
      var member, attempts := Admit(f, token, now).value.memberId, Attempts(_ => w, plan.candidates, request);
      var one := Dispatched(Plan("", plan.candidates), member, body, attempts);
      e.answer.Status() == one.answer.Status() != 502 && (e.steps == [] <==> one.steps == []) &&
      (e.steps != [] ==> e.steps[0] == one.steps[0])
  {
    var plan, request := MessagesPlan(f, policy, body), Anthropic.OpenAiRequest(body);
    var attempts := Attempts(_ => w, plan.candidates, request);
    assert attempts[0] == Try(w, plan.candidates[0], request);
    AttemptedIsDispatched(plan.ruleSet, plan.candidates[0], Admit(f, token, now).value.memberId, body, request,
                          attempts[0]);
    assert attempts == [attempts[0]] && plan.candidates == [plan.candidates[0]];
  }

  lemma AttemptedIsDispatched(ruleSet: string, model: string, member: string, body: Json, request: Json, a: Attempt)
    ensures
      var e := Attempted(ruleSet, model, member, WantsStream(body), request, a);
      var one := Dispatched(Plan("", [model]), member, body, [a]);
      e.answer.Status() == one.answer.Status() != 502 && (e.steps == [] <==> one.steps == []) &&
      (e.steps != [] ==> e.steps[0] == one.steps[0])
  {
    var out := if a.Succeeded? then Reached(0) else if a.NoBackend? then Unroutable(0) else Exhausted;
    SearchOne(a);
    ConcludedStatus(Plan("", [model]), member, body, [a], out);
    ConcludedCharges(Plan("", [model]), member, body, [a], out);
    AttemptedHolds(ruleSet, model, member, WantsStream(body), request, a);
  }

  lemma SearchOne(a: Attempt)
    ensures Search([a], "", 0) ==
            if a.Succeeded? then Reached(0) else if a.NoBackend? then Unroutable(0) else Exhausted
  {
    assert [a][0] == a && Search([a], "", 1) == Exhausted;
    SearchOn([a], "", 0);
  }

  // ------------------------------------------------------------------------ gateway

  /** The upstreams as one request finds them. Every request to one of them is logged. */
  class Upstreams {
    const worlds: nat -> World
    ghost var log: seq<Asked>

    constructor (worlds: nat -> World)
      ensures this.worlds == worlds && log == []
    {
      this.worlds, log := worlds, [];
    }

    /** Sends a body to a backend at attempt `i`. */
    method Ask(i: nat, backend: string, body: Json) returns (r: Result<Reply, string>)
      modifies this
      ensures r == worlds(i).chat(backend, body) && log == old(log) + [Asked(backend, body)]
    {
      log := log + [Asked(backend, body)];
      r := worlds(i).chat(backend, body);
    }

    /** One attempt: nobody is asked unless the model routes. */
    method TryOne(i: nat, model: string, fwd: Json) returns (a: Attempt)
      modifies this
      ensures a == Try(worlds(i), model, fwd) && log == old(log) + AskedBy(a, fwd)
    {
      var backend := worlds(i).route(model);
      if backend.None? {
        return NoBackend;
      }
      var reply := Ask(i, backend.value.name, fwd);
      match reply {
        case Err(e) => return ChatFailed(backend.value.name, e);
        case Ok(v) => return Succeeded(backend.value, v);
      }
    }
  }

  method TryCandidates(up: Upstreams, candidates: seq<string>, ruleSet: string, fwd: Json)
      returns (out: Outcome, attempt: Attempt, lastError: string)
    modifies up
    ensures
      var attempts := Attempts(up.worlds, candidates, fwd);
      out == Search(attempts, ruleSet, 0) && (out == Exhausted ==> lastError == LastError(attempts, candidates)) &&
      (out.Reached? ==> out.i < |attempts| && attempt == attempts[out.i] && attempt.Succeeded?)
    ensures
      var attempts := Attempts(up.worlds, candidates, fwd);
      var n := Tried(out, |attempts|);
      n <= |attempts| && up.log == old(up.log) + AskedUpTo(attempts, n, fwd)
  {
    out, attempt, lastError := TryInTurn(up, candidates, ruleSet, fwd, Attempts(up.worlds, candidates, fwd));
  }

  /** The loop, where `attempts` is what the attempts find if they are made. */
  method TryInTurn(up: Upstreams, candidates: seq<string>, ruleSet: string, fwd: Json, ghost attempts: seq<Attempt>)
      returns (out: Outcome, attempt: Attempt, lastError: string)
    requires |attempts| == |candidates|
    requires forall i: nat :: i < |attempts| ==> attempts[i] == Try(up.worlds(i), candidates[i], fwd)
    modifies up
    ensures EndsAs(attempts, candidates, ruleSet, out, attempt, lastError)
    ensures up.log == old(up.log) + AskedUpTo(attempts, Tried(out, |attempts|), fwd)
  {
    ghost var start := up.log;
    attempt, lastError := NoBackend, NO_CANDIDATES;
    for i := 0 to |candidates|
      invariant Underway(attempts, candidates, ruleSet, i, lastError)
      invariant up.log == start + AskedUpTo(attempts, i, fwd)
    {
      attempt := up.TryOne(i, candidates[i], fwd);
      assert attempt == attempts[i];
      LogMore(start, attempts, i, fwd);
      UnderwayOn(attempts, candidates, ruleSet, i, lastError);
      if attempt.Succeeded? {
        return Reached(i), attempt, lastError;
      }
      if attempt.NoBackend? && ruleSet == "" {
        return Unroutable(i), attempt, lastError;
      }
      lastError := ErrorOf(attempt, candidates[i]);
    }
    UnderwayEnds(attempts, candidates, ruleSet, attempt, lastError);
    out := Exhausted;
  }

  /** The search has ended like this: at this attempt, if it reached one, or with this last error. */
  ghost predicate EndsAs(attempts: seq<Attempt>, candidates: seq<string>, ruleSet: string, out: Outcome,
                         attempt: Attempt,
                         lastError: string) {
    |attempts| == |candidates| && out == Search(attempts, ruleSet, 0) && Tried(out, |attempts|) <= |attempts| &&
    (out == Exhausted ==> lastError == LastError(attempts, candidates)) &&
    (out.Reached? ==> attempt == attempts[out.i] && attempt.Succeeded?)
  }

  function AskedUpTo(attempts: seq<Attempt>, i: nat, fwd: Json): seq<Asked>
    requires i <= |attempts|
  {
    AskedIn(attempts[..i], fwd)
  }

  lemma AskedMore(attempts: seq<Attempt>, i: nat, fwd: Json)
    requires i < |attempts|
    ensures AskedUpTo(attempts, i + 1, fwd) == AskedUpTo(attempts, i, fwd) + AskedBy(attempts[i], fwd)
  {
    assert attempts[..i + 1][..i] == attempts[..i];
  }

  lemma LogMore(start: seq<Asked>, attempts: seq<Attempt>, i: nat, fwd: Json)
    requires i < |attempts|
    ensures start + AskedUpTo(attempts, i, fwd) + AskedBy(attempts[i], fwd) == start + AskedUpTo(attempts, i + 1, fwd)
  {
    AskedMore(attempts, i, fwd);
  }

  /** The first `i` candidates were given up, the last with this error. */
  ghost predicate Underway(attempts: seq<Attempt>, candidates: seq<string>, ruleSet: string, i: nat,
                           lastError: string) {
    i <= |attempts| == |candidates| && Search(attempts, ruleSet, 0) == Search(attempts, ruleSet, i) &&
    lastError == LastError(attempts[..i], candidates[..i])
  }

  lemma UnderwayOn(attempts: seq<Attempt>, candidates: seq<string>, ruleSet: string, i: nat, lastError: string)
    requires Underway(attempts, candidates, ruleSet, i, lastError) && i < |attempts|
    ensures attempts[i].Succeeded? ==> EndsAs(attempts, candidates, ruleSet, Reached(i), attempts[i], lastError)
    ensures attempts[i].NoBackend? && ruleSet == "" ==>
      EndsAs(attempts, candidates, ruleSet, Unroutable(i), attempts[i], lastError)
    ensures PassedOver(attempts[i], ruleSet) ==>
      Underway(attempts, candidates, ruleSet, i + 1, ErrorOf(attempts[i], candidates[i]))
  {
    SearchOn(attempts, ruleSet, i);
    LastErrorAt(attempts, candidates, i);
  }

  lemma UnderwayEnds(attempts: seq<Attempt>, candidates: seq<string>, ruleSet: string, attempt: Attempt,
                     lastError: string)
    requires Underway(attempts, candidates, ruleSet, |attempts|, lastError)
    ensures EndsAs(attempts, candidates, ruleSet, Exhausted, attempt, lastError)
  {
    assert attempts[..|attempts|] == attempts && candidates[..|candidates|] == candidates;
  }

  lemma SearchOn(attempts: seq<Attempt>, ruleSet: string, i: nat)
    requires i < |attempts|
    ensures attempts[i].Succeeded? ==> Search(attempts, ruleSet, i) == Reached(i)
    ensures attempts[i].NoBackend? && ruleSet == "" ==> Search(attempts, ruleSet, i) == Unroutable(i)
    ensures PassedOver(attempts[i], ruleSet) ==> Search(attempts, ruleSet, i) == Search(attempts, ruleSet, i + 1)
  {
  }

  method Reply200(stream: bool, ruleSet: string, model: string, reply: Reply) returns (answer: Answer)
    ensures answer == Served(ruleSet, model, ChatBody(stream, reply))
  {
    if stream {
      var text := OpenAiSse.PrintStream(reply);
      return Served(ruleSet, model, EventStream(text));
    }
    return Served(ruleSet, model, PlainJson(reply));
  }

  method Messages200(stream: bool, ruleSet: string, model: string, reply: Reply) returns (answer: Answer)
    ensures answer == Served(ruleSet, model, MessagesBody(stream, reply))
  {
    if stream {
      var text := AnthropicSse.PrintEvents(reply);
      return Served(ruleSet, model, EventStream(text));
    }
    var translated := Anthropic.ToAnthropic(reply);
    return Served(ruleSet, model, PlainJson(translated));
  }

  class Gateway {
    const auth: Auth.AuthService
    const quotas: Quota.QuotaService
    const rules: Rules.RuleResolver
    const usage: Usage.UsageService
    const policy: Policy
    var sharing: bool

    constructor (auth: Auth.AuthService, quotas: Quota.QuotaService, rules: Rules.RuleResolver,
                 usage: Usage.UsageService,
                 policy: Policy)
      ensures this.auth == auth && this.quotas == quotas && this.rules == rules && this.usage == usage
      ensures this.policy == policy && sharing
    {
      this.auth, this.quotas, this.rules, this.usage, this.policy := auth, quotas, rules, usage, policy;
      sharing := true;
    }

    ghost function Contents(): Front
      reads this, auth, quotas, rules, usage
    {
      Front(sharing, auth.Contents(), quotas.quotas, usage.byMember, rules.inner)
    }

    /** This answer was given, and the store and the log moved on by exactly what the effect says. */
    ghost predicate Performed(e: Effect, answer: Answer, store: Usage.Store, log: seq<Asked>, up: Upstreams)
      reads this, usage, up
    {
      answer == e.answer && usage.byMember == Apply(store, e.steps) && up.log == log + e.asked
    }

    method AdmitRequest(token: Option<string>, now: nat) returns (r: Result<Auth.Session, Answer>)
      ensures r == Admit(Contents(), token, now)
    {
      if !sharing {
        return Err(Paused);
      }
      if token.None? {
        return Err(Unauthorized);
      }
      var session := auth.VerifyToken(token.value, now);
      if session.None? {
        return Err(Unauthorized);
      }
      var verdict := quotas.Check(session.value.memberId, usage.Total(session.value.memberId));
      if verdict.Exceeded? {
        return Err(OverQuota(verdict.limit));
      }
      return Ok(session.value);
    }

    method Charge(member: string, ruleSet: string, model: string, backend: Registry.Backend, reply: Reply)
      modifies usage
      ensures usage.byMember == Apply(old(usage.byMember), Charged(member, Plan(ruleSet, []), model, backend, reply))
      ensures usage.disk == usage.byMember
    {
      var call := CallOf(member, model, backend, reply);
      ApplyOneOrTwo(usage.byMember, Usage.Record(call), Usage.RecordRule(member, ruleSet, call.Cost()));
      usage.Record(call);
      if ruleSet != "" {
        usage.RecordRule(member, ruleSet, call.Cost());
      }
    }

    /** POST /v1/chat/completions */
    method ChatCompletions(token: Option<string>, now: nat, body: Json, up: Upstreams) returns (answer: Answer)
      modifies usage, up
      ensures Performed(Chat(old(Contents()), policy, token, now, body, up.worlds), answer, old(usage.byMember),
                        old(up.log), up)
    {
      var admitted := AdmitRequest(token, now);
      if admitted.Err? {
        return admitted.error;
      }
      var session := admitted.value;
      var category := policy.check(policy.text(body));
      if category.Some? {
        return Blocked(category.value);
      }
      var model := GetStr(body, "model").GetOr("");
      var ruleSet, candidates := PlanRequest(model, Estimate(policy.text(body)));
      var stream, fwd := PrepareUpstream(body);
      if stream && |candidates| > 1 {
        candidates := candidates[..1];
      }
      assert Plan(ruleSet, candidates) == ChatPlan(old(Contents()), policy, body);
      answer := Serve(session.memberId, Plan(ruleSet, candidates), body, fwd, up);
    }

    method Serve(member: string, plan: Plan, body: Json, fwd: Json, up: Upstreams) returns (answer: Answer)
      requires fwd == Upstream(body)
      modifies usage, up
      ensures
        var e := Dispatched(plan, member, body, Attempts(up.worlds, plan.candidates, fwd));
        Performed(e, answer, old(usage.byMember), old(up.log), up)
    {
      var out, attempt, lastError := TryCandidates(up, plan.candidates, plan.ruleSet, fwd);
      ghost var attempts := Attempts(up.worlds, plan.candidates, fwd);
      DispatchedAsks(plan, member, body, attempts);
      match out {
        case Unroutable(_) => answer := NotAvailable(GetStr(body, "model").GetOr(""));
        case Exhausted => answer := AllFailed(lastError, plan.ruleSet);
        case Reached(i) =>
          Charge(member, plan.ruleSet, plan.candidates[i], attempt.backend, attempt.reply);
          answer := Reply200(WantsStream(body), plan.ruleSet, plan.candidates[i], attempt.reply);
      }
    }

    method PlanRequest(model: string, est: U64) returns (ruleSet: string, candidates: seq<string>)
      ensures Plan(ruleSet, candidates) == PlanFor(rules.inner, model, est)
    {
      var resolution := rules.Resolve(model, est);
      if resolution.None? {
        return "", [model];
      }
      ruleSet, candidates := resolution.value.ruleSet, resolution.value.candidates;
      if candidates == [] {
        candidates := [model];
      }
    }

    /** POST /v1/messages */
    method AnswerMessages(token: Option<string>, now: nat, body: Option<Json>, up: Upstreams) returns (answer: Answer)
      modifies usage, up
      ensures
        var e := Messages(old(Contents()), policy, token, now, body, up.worlds(0));
        Performed(e, answer, old(usage.byMember), old(up.log), up)
    {
      var admitted := AdmitRequest(token, now);
      if admitted.Err? {
        return admitted.error;
      }
      var session := admitted.value;
      if body.None? {
        return BadJson;
      }
      var category := policy.check(policy.text(body.value));
      if category.Some? {
        return Blocked(category.value);
      }
      var request := Anthropic.ToOpenAi(body.value);
      var model := GetStr(request, "model").GetOr("");
      var ruleSet, candidates := PlanRequest(model, Estimate(policy.text(body.value)));
      var cand := candidates[0];
      answer := ServeOne(session.memberId, ruleSet, cand, WantsStream(body.value), request, up);
    }

    method ServeOne(member: string, ruleSet: string, model: string, stream: bool, request: Json, up: Upstreams)
        returns (answer: Answer)
      modifies usage, up
      ensures
        var e := Attempted(ruleSet, model, member, stream, request, Try(up.worlds(0), model, request));
        Performed(e, answer, old(usage.byMember), old(up.log), up)
    {
      var attempt := up.TryOne(0, model, request);
      match attempt {
        case NoBackend => answer := NotAvailable(model);
        case ChatFailed(_, error) => answer := AllFailed("backend error: " + error, "");
        case Succeeded(backend, reply) =>
          Charge(member, ruleSet, model, backend, reply);
          answer := Messages200(stream, ruleSet, model, reply);
      }
    }
  }
}
