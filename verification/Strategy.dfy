/** The policy summary that the leader hands out, the copy that the member keeps, and what a refusal
    by that copy is worth while the leader moves on. */
module Strategy {
  import opened Wrappers
  import opened Json
  import JsonText
  import Fingerprint
  import Auth
  import Quota
  import Rules
  import Usage
  import Dispatch

  datatype Summary = Summary(version: U64, rules: seq<string>, limit: U64, used: nat, banned: bool)

  datatype Block = Banned | QuotaExceeded(limit: U64)

  /** The check a member makes on its copy before it sends a request. */
  function Preflight(x: Summary): Option<Block> {
    if x.banned then Some(Banned)
    else if x.limit > 0 && x.used >= x.limit then Some(QuotaExceeded(x.limit))
    else None
  }

  /** The member's copy, and the file it is kept in. */
  class StrategyCache {
    var inner: Option<Summary>
    const persists: bool
    var disk: Option<Summary>

    constructor (persists: bool, disk: Option<Summary>)
      ensures this.persists == persists && this.disk == disk
      ensures inner == if persists then disk else None
    {
      this.persists, this.disk := persists, disk;
      inner := if persists then disk else None;
    }

    /** After a fetch; a fetch that fails changes nothing. */
    method Set(summary: Summary)
      modifies this
      ensures inner == Some(summary) && (persists ==> disk == inner) && (!persists ==> disk == old(disk))
    {
      inner := Some(summary);
      if persists {
        disk := Some(summary);
      }
    }

    function RuleNames(): seq<string>
      reads this
    {
      match inner
      case None => []
      case Some(x) => x.rules
    }

    /** Without a copy nothing is refused. */
    function PreflightBlock(): Option<Block>
      reads this
    {
      match inner
      case None => None
      case Some(x) => Preflight(x)
    }
  }

  // ------------------------------------------------------------------------- leader

  function RuleNamesOf(ruleSets: map<string, Rules.RuleSet>): seq<string> {
    JsonText.SortedKeys(ruleSets.Keys)
  }

  function LimitOf(quotas: Quota.Quotas, member: string): U64 {
    if member in quotas then quotas[member] else 0
  }

  function UsedBy(f: Dispatch.Front, member: string): nat {
    Usage.UsageOf(f.store, member).Total()
  }

  function SummaryOf(f: Dispatch.Front, member: string): Summary {
    var rules, limit, banned := RuleNamesOf(f.ruleSets), LimitOf(f.quotas, member), member in f.auth.banned;
    Summary(Fingerprint.Version(rules, limit, banned), rules, limit, UsedBy(f, member), banned)
  }

  /** What the leader answers to the holder of a token, banned or not. */
  function SummaryFor(f: Dispatch.Front, token: string, now: nat): Option<Summary> {
    match Auth.Lookup(f.auth, token, now)
    case None => None
    case Some(session) => Some(SummaryOf(f, session.memberId))
  }

  datatype Event =
    | OfAuth(e: Auth.Event)
    | SetQuota(member: string, limit: U64)
    | Charge(step: Usage.Step)
    | SetSharing(on: bool)
    | SetRules(ruleSets: map<string, Rules.RuleSet>)

  function Next(setup: Auth.Setup, f: Dispatch.Front, e: Event): Dispatch.Front {
    match e
    case OfAuth(a) => f.(auth := Auth.Next(setup, f.auth, a))
    case SetQuota(member, limit) => f.(quotas := Quota.WithLimit(f.quotas, member, limit))
    case Charge(step) => f.(store := Usage.After(f.store, step))
    case SetSharing(on) => f.(sharing := on)
    case SetRules(ruleSets) => f.(ruleSets := ruleSets)
  }

  function Run(setup: Auth.Setup, f: Dispatch.Front, events: seq<Event>): Dispatch.Front {
    if events == [] then f
    else Next(setup, Run(setup, f, events[..|events| - 1]), events[|events| - 1])
  }

  /** The leader's present state bears out what the summary refuses. */
  predicate Backed(f: Dispatch.Front, x: Summary, me: string) {
    match Preflight(x)
    case None => true
    case Some(Banned) => me in f.auth.banned
    case Some(QuotaExceeded(_)) => Quota.Judge(f.quotas, me, UsedBy(f, me)).Exceeded?
  }

  /** The event takes away the ground of the refusal: the ban is lifted, or lost in a restart
      without a file; or the quota is lifted, or raised above what is used. */
  predicate Lifts(setup: Auth.Setup, f: Dispatch.Front, x: Summary, me: string, e: Event) {
    match Preflight(x)
    case None => false
    case Some(Banned) =>
      e.OfAuth? && ((e.e.op.Unban? && e.e.op.member == me) || (e.e.op.Restart? && !setup.keepsBans))
    case Some(QuotaExceeded(_)) =>
      e.SetQuota? && e.member == me && (e.limit == 0 || e.limit > UsedBy(f, me))
  }

  lemma UsageGrows(store: Usage.Store, step: Usage.Step, member: string)
    ensures Usage.UsageOf(Usage.After(store, step), member).Total() >= Usage.UsageOf(store, member).Total()
  {
  }

  lemma BansMove(setup: Auth.Setup, s: Auth.State, e: Auth.Event, me: string)
    requires me in s.banned
    ensures me in Auth.Next(setup, s, e).banned <==>
            !((e.op.Unban? && e.op.member == me) || (e.op.Restart? && !setup.keepsBans))
  {
  }

  /** One step of the leader: a refusal that was borne out still is, unless the step lifts it. */
  lemma StepExactly(setup: Auth.Setup, f: Dispatch.Front, x: Summary, me: string, e: Event)
    requires Backed(f, x, me)
    ensures Backed(Next(setup, f, e), x, me) <==> !Lifts(setup, f, x, me, e)
  {
    if Preflight(x) == Some(Banned) {
      if e.OfAuth? {
        BansMove(setup, f.auth, e.e, me);
      }
    } else if e.Charge? {
      UsageGrows(f.store, e.step, me);
    }
  }

  /** After every one of these events, and before the first. */
  predicate BackedThroughout(setup: Auth.Setup, f: Dispatch.Front, x: Summary, me: string, events: seq<Event>) {
    Backed(Run(setup, f, events), x, me) &&
    (events != [] ==> BackedThroughout(setup, f, x, me, events[..|events| - 1]))
  }

  /** None of these events lifts the refusal when it comes. */
  predicate NothingLifts(setup: Auth.Setup, f: Dispatch.Front, x: Summary, me: string, events: seq<Event>) {
    events != [] ==>
      var init, last := events[..|events| - 1], events[|events| - 1];
      NothingLifts(setup, f, x, me, init) && !Lifts(setup, Run(setup, f, init), x, me, last)
  }

  /** From a fetch on, whatever the leader does: the copy's refusal is borne out all the time
      exactly if no step lifts it. */
  lemma {:induction false} StaleRefusalExactly(setup: Auth.Setup, f: Dispatch.Front, me: string, events: seq<Event>)
    ensures
      var x := SummaryOf(f, me);
      BackedThroughout(setup, f, x, me, events) <==> NothingLifts(setup, f, x, me, events)
  {
    var x := SummaryOf(f, me);
    if events != [] {
      var init, last := events[..|events| - 1], events[|events| - 1];
      StaleRefusalExactly(setup, f, me, init);
      if BackedThroughout(setup, f, x, me, init) {
        StepExactly(setup, Run(setup, f, init), x, me, last);
      }
    }
  }

  /** The token, if there is such a one, is the member's. */
  predicate Owns(f: Dispatch.Front, token: string, me: string) {
    token in f.auth.sessions ==> f.auth.sessions[token].memberId == me
  }

  /** A member that refuses itself on a copy of any age refuses nothing that the leader would let
      in: with no lifting step since the fetch, the leader turns away every token of the member. */
  lemma RefusalIsSound(setup: Auth.Setup, cache: StrategyCache, f: Dispatch.Front, me: string, events: seq<Event>,
                       token: string, now: nat)
    requires cache.inner == Some(SummaryOf(f, me)) && cache.PreflightBlock().Some?
    requires NothingLifts(setup, f, SummaryOf(f, me), me, events)
    requires Owns(Run(setup, f, events), token, me)
    ensures Dispatch.Admit(Run(setup, f, events), Some(token), now).Err?
  {
    StaleRefusalExactly(setup, f, me, events);
    assert Backed(Run(setup, f, events), SummaryOf(f, me), me);
  }

  /** What a summary says: the rule sets by name in order, the member's limit or 0, what it has used,
      whether it is banned, and the fingerprint of names, limit and ban. */
  lemma SummaryHolds(f: Dispatch.Front, me: string)
    ensures
      var x := SummaryOf(f, me);
      JsonText.Lists(x.rules, f.ruleSets.Keys) &&
      (forall i, j :: 0 <= i < j < |x.rules| ==> JsonText.AtMost(x.rules[i], x.rules[j])) &&
      x.used == Usage.UsageOf(f.store, me).promptTokens + Usage.UsageOf(f.store, me).completionTokens &&
      (me in f.quotas ==> x.limit == f.quotas[me]) && (me !in f.quotas ==> x.limit == 0) &&
      (x.banned <==> me in f.auth.banned) && x.version == Fingerprint.Version(x.rules, x.limit, x.banned)
  {
  }

  /** What the member shows as its models while it has a copy: every rule set that the leader had at
      the fetch, once, and nothing else; without a copy, nothing is shown and nothing refused. */
  lemma CopyNamesRuleSets(cache: StrategyCache, f: Dispatch.Front, me: string)
    ensures cache.inner == Some(SummaryOf(f, me)) ==> JsonText.Lists(cache.RuleNames(), f.ruleSets.Keys)
    ensures cache.inner.None? ==> cache.RuleNames() == [] && cache.PreflightBlock().None?
  {
  }

  /** A fresh copy decides as the leader does, for a token that has not expired. */
  lemma FreshCopyDecides(f: Dispatch.Front, me: string, token: string, now: nat)
    requires f.sharing && Auth.Lookup(f.auth, token, now).Some? && Auth.Lookup(f.auth, token, now).value.memberId == me
    ensures Preflight(SummaryOf(f, me)).None? <==> Dispatch.Admit(f, Some(token), now).Ok?
    ensures Preflight(SummaryOf(f, me)) == Some(Banned) <==>
            Dispatch.Admit(f, Some(token), now) == Err(Dispatch.Unauthorized)
    ensures forall l: U64 :: Preflight(SummaryOf(f, me)) == Some(QuotaExceeded(l)) <==>
              Dispatch.Admit(f, Some(token), now) == Err(Dispatch.OverQuota(l))
  {
  }

  /** After a lifting step the copy refuses what the leader lets in, if nothing else is in the way. */
  lemma LiftedRefusalIsWrong(setup: Auth.Setup, f: Dispatch.Front, x: Summary, me: string, e: Event, token: string,
                             now: nat)
    requires Lifts(setup, f, x, me, e)
    requires
      var after := Next(setup, f, e);
      after.sharing && Auth.Lookup(after.auth, token, now).Some? &&
      Auth.Lookup(after.auth, token, now).value.memberId == me
    requires Preflight(x) == Some(Banned) ==> Quota.Judge(f.quotas, me, UsedBy(f, me)).Allowed?
    requires Preflight(x) != Some(Banned) ==> me !in f.auth.banned
    ensures Preflight(x).Some? && Dispatch.Admit(Next(setup, f, e), Some(token), now).Ok?
  {
  }

  /** A fetch gives the member a token of its own and then its own summary, and a ban does not keep
      it from reading that it is banned as long as it still has a token. */
  lemma FetchReadsOwnSummary(setup: Auth.Setup, f: Dispatch.Front, me: string, ip: string, minted: string, now: U64,
                             x: Auth.Session)
    requires Auth.Keyed(f.auth.sessions)
    requires Auth.Answers(setup, f.auth, Auth.Request(me, me, ip), minted, now, Ok(x))
    ensures
      var after := f.(auth := Auth.Issued(setup, f.auth, Auth.Request(me, me, ip), minted, now));
      SummaryFor(after, x.token, now) == Some(SummaryOf(after, me)) &&
      (me in f.auth.banned ==> Preflight(SummaryOf(after, me)) == Some(Banned))
  {
  }

  /** The ban flag alone always shows in the version. */
  lemma BanShowsInVersion(f: Dispatch.Front, g: Dispatch.Front, me: string)
    requires f.ruleSets == g.ruleSets && LimitOf(f.quotas, me) == LimitOf(g.quotas, me)
    requires (me in f.auth.banned) != (me in g.auth.banned)
    ensures SummaryOf(f, me).version != SummaryOf(g, me).version
  {
    Fingerprint.BanChangesVersion(RuleNamesOf(f.ruleSets), LimitOf(f.quotas, me));
  }
}
