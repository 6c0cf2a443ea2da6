/** Sessions and bans: a member is given a token by naming its machine, keeps it until it expires
    or is rotated out, and can be banned without losing it. Time, fresh tokens and the two files
    are parameters. */
module Auth {
  import opened Wrappers
  import opened Json

  datatype Session = Session(token: string, memberId: string, machineName: string, displayName: string,
                             expiresAt: nat, issuedAt: nat)

  /** By token. */
  type Sessions = map<string, Session>

  datatype State = State(sessions: Sessions, banned: set<string>, bannedIps: set<string>)

  /** How long a token lasts (0 is for ever), and which of the two files there are. */
  datatype Setup = Setup(ttl: nat, keepsBans: bool, keepsSessions: bool)

  datatype Request = Request(machine: string, display: string, ip: string)

  const NOTHING := State(map[], {}, {})

  /** The member's tokens that expire after this second. */
  function Live(sessions: Sessions, member: string, now: nat): set<string> {
    set t | t in sessions && sessions[t].memberId == member && sessions[t].expiresAt > now
  }

  predicate Refused(s: State, r: Request) {
    r.ip in s.bannedIps || r.machine in s.banned
  }

  function NewSession(setup: Setup, r: Request, token: string, now: nat): Session {
    Session(token, r.machine, r.machine, if r.display == "" then r.machine else r.display,
            if setup.ttl == 0 then U64_BOUND - 1 else now + setup.ttl, now)
  }

  function Issued(setup: Setup, s: State, r: Request, token: string, now: nat): State {
    if Live(s.sessions, r.machine, now) != {} || Refused(s, r) then s
    else s.(sessions := s.sessions[token := NewSession(setup, r, token, now)])
  }

  /** What `issue` may answer: one of the member's live sessions if there are any, whoever is
      banned; a new one if there are none and nobody is banned. */
  ghost predicate Answers(setup: Setup, s: State, r: Request, token: string, now: nat,
                          answer: Result<Session, string>) {
    var live := Live(s.sessions, r.machine, now);
    if live != {} then answer.Ok? && answer.value.token in live && answer.value == s.sessions[answer.value.token]
    else if Refused(s, r) then answer == Err("banned")
    else answer == Ok(NewSession(setup, r, token, now))
  }

  /** Without the sessions of one member. */
  function Without(sessions: Sessions, member: string): Sessions {
    map t | t in sessions && sessions[t].memberId != member :: sessions[t]
  }

  function Rotated(setup: Setup, s: State, r: Request, token: string, now: nat): State {
    Issued(setup, s.(sessions := Without(s.sessions, r.machine)), r, token, now)
  }

  function Lookup(s: State, token: string, now: nat): Option<Session> {
    if token !in s.sessions || s.sessions[token].expiresAt < now then None else Some(s.sessions[token])
  }

  function Verify(s: State, token: string, now: nat): Option<Session> {
    match Lookup(s, token, now)
    case None => None
    case Some(x) => if x.memberId in s.banned then None else Some(x)
  }

  function Revoked(s: State, member: string, ip: string): State {
    s.(banned := s.banned + {member}, bannedIps := s.bannedIps + if ip == "" then {} else {ip})
  }

  function Unbanned(s: State, member: string, ip: string): State {
    s.(banned := s.banned - {member}, bannedIps := s.bannedIps - if ip == "" then {} else {ip})
  }

  /** The sessions that expire after this second. */
  function Kept(sessions: Sessions, now: nat): Sessions {
    map t | t in sessions && sessions[t].expiresAt > now :: sessions[t]
  }

  /** The state of a service that is started on the files of one that stopped. */
  function Restarted(setup: Setup, s: State, now: nat): State {
    State(if setup.keepsSessions then Kept(s.sessions, now) else map[],
          if setup.keepsBans then s.banned else {},
          if setup.keepsBans then s.bannedIps else {})
  }

  /** Every session is filed under its own token. */
  ghost predicate Keyed(sessions: Sessions) {
    forall t :: t in sessions ==> sessions[t].token == t
  }

  /** What a rotation may answer: what `issue` may once the machine's sessions are gone. */
  ghost predicate RotationAnswers(setup: Setup, s: State, r: Request, token: string, now: nat,
                                  answer: Result<Session, string>) {
    Answers(setup, s.(sessions := Without(s.sessions, r.machine)), r, token, now, answer)
  }

  // ------------------------------------------------------------------------- events

  datatype Op =
    | Issue(r: Request, token: string)
    | Rotate(r: Request, token: string)
    | Revoke(member: string, ip: string)
    | Unban(member: string, ip: string)
    | Restart

  datatype Event = Event(now: nat, op: Op)

  function Next(setup: Setup, s: State, e: Event): State {
    match e.op
    case Issue(r, token) => Issued(setup, s, r, token, e.now)
    case Rotate(r, token) => Rotated(setup, s, r, token, e.now)
    case Revoke(member, ip) => Revoked(s, member, ip)
    case Unban(member, ip) => Unbanned(s, member, ip)
    case Restart => Restarted(setup, s, e.now)
  }

  /** The session that this event puts in place, if any. */
  function MintedBy(setup: Setup, s: State, e: Event): Option<Session> {
    if (e.op.Rotate? || (e.op.Issue? && Live(s.sessions, e.op.r.machine, e.now) == {})) && !Refused(s, e.op.r)
    then Some(NewSession(setup, e.op.r, e.op.token, e.now))
    else None
  }

  // -------------------------------------------------------------------------- files

  datatype Bans = Bans(members: set<string>, ips: set<string>)

  const NO_BANS := Bans({}, {})

  /** The two files, if they exist. */
  datatype Files = Files(bans: Option<Bans>, sessions: Option<set<Session>>)

  function SavedBans(setup: Setup, f: Files, s: State): Files {
    if setup.keepsBans then f.(bans := Some(Bans(s.banned, s.bannedIps))) else f
  }

  function SavedSessions(setup: Setup, f: Files, s: State): Files {
    if setup.keepsSessions then f.(sessions := Some(s.sessions.Values)) else f
  }

  /** Which files an event writes: a new session and a rotation the sessions, a ban both files, an
      unban the bans. */
  function FilesAfter(setup: Setup, f: Files, s: State, e: Event): Files {
    var after := Next(setup, s, e);
    match e.op
    case Issue(_, _) => if MintedBy(setup, s, e).Some? then SavedSessions(setup, f, after) else f
    case Rotate(_, _) => SavedSessions(setup, f, after)
    case Revoke(_, _) => SavedSessions(setup, SavedBans(setup, f, after), after)
    case Unban(_, _) => SavedBans(setup, f, after)
    case Restart => f
  }

  /** The sessions in a file that expire after this second. */
  ghost function Unexpired(file: Option<set<Session>>, now: nat): set<Session> {
    set x | x in file.GetOr({}) && x.expiresAt > now
  }

  /** No two unexpired sessions in the file have the same token. */
  ghost predicate OneEach(file: Option<set<Session>>, now: nat) {
    forall x, y :: x in Unexpired(file, now) && y in Unexpired(file, now) && x.token == y.token ==> x == y
  }

  /** A service started on the files in this second finds what the state holds, less what has expired. */
  ghost predicate Reloads(setup: Setup, f: Files, s: State, now: nat) {
    (setup.keepsBans ==> f.bans.GetOr(NO_BANS) == Bans(s.banned, s.bannedIps)) &&
    (setup.keepsSessions ==> Unexpired(f.sessions, now) == Kept(s.sessions, now).Values)
  }

  lemma ValuesDetermine(a: Sessions, b: Sessions)
    requires Keyed(a) && Keyed(b) && a.Values == b.Values
    ensures a == b
  {
    forall t | t in a
      ensures t in b && a[t] == b[t]
    {
      assert a[t] in b.Values;
    }
    forall t | t in b
      ensures t in a
    {
      assert b[t] in a.Values;
    }
  }

  /** What was just saved reloads. */
  lemma SavedValues(sessions: Sessions, now: nat)
    ensures Unexpired(Some(sessions.Values), now) == Kept(sessions, now).Values
  {
    forall x | x in Unexpired(Some(sessions.Values), now)
      ensures x in Kept(sessions, now).Values
    {
      var t :| t in sessions && sessions[t] == x;
      assert Kept(sessions, now)[t] == x;
    }
  }

  /** What reloads now reloads at any later time. */
  lemma ReloadsLater(setup: Setup, f: Files, s: State, now: nat, later: nat)
    requires Reloads(setup, f, s, now) && now <= later
    ensures Reloads(setup, f, s, later)
  {
    if setup.keepsSessions {
      forall x | x in Unexpired(f.sessions, later)
        ensures x in Kept(s.sessions, later).Values
      {
        assert x in Unexpired(f.sessions, now);
        var t :| t in Kept(s.sessions, now) && Kept(s.sessions, now)[t] == x;
        assert Kept(s.sessions, later)[t] == x;
      }
      forall x | x in Kept(s.sessions, later).Values
        ensures x in Unexpired(f.sessions, later)
      {
        var t :| t in Kept(s.sessions, later) && Kept(s.sessions, later)[t] == x;
        assert Kept(s.sessions, now)[t] == x;
        assert x in Unexpired(f.sessions, now);
      }
    }
  }

  // ------------------------------------------------------------------------ service

  class AuthService {
    const setup: Setup
    var sessions: Sessions
    var banned: set<string>
    var bannedIps: set<string>
    var bansFile: Option<Bans>
    var sessionsFile: Option<set<Session>>

    ghost function Contents(): State
      reads this
    {
      State(sessions, banned, bannedIps)
    }

    ghost function Disk(): Files
      reads this
    {
      Files(bansFile, sessionsFile)
    }

    ghost predicate Valid()
      reads this
    {
      Keyed(sessions)
    }

    constructor (setup: Setup, bansFile: Option<Bans>, sessionsFile: Option<set<Session>>, now: nat)
      ensures this.setup == setup && Disk() == Files(bansFile, sessionsFile)
      ensures Valid() && sessions == Kept(sessions, now)
      ensures Bans(banned, bannedIps) == if setup.keepsBans then bansFile.GetOr(NO_BANS) else NO_BANS
      ensures !setup.keepsSessions ==> sessions == map[]
      ensures sessions.Values <= Unexpired(sessionsFile, now)
      ensures setup.keepsSessions && OneEach(sessionsFile, now) ==> sessions.Values == Unexpired(sessionsFile, now)
    {
      this.setup, this.bansFile, this.sessionsFile := setup, bansFile, sessionsFile;
      sessions, banned, bannedIps := map[], {}, {};
      new;
      if setup.keepsBans && bansFile.Some? {
        banned, bannedIps := bansFile.value.members, bansFile.value.ips;
      }
      if setup.keepsSessions && sessionsFile.Some? {
        LoadSessions(sessionsFile.value, now);
      }
    }

    method LoadSessions(file: set<Session>, now: nat)
      requires sessions == map[]
      modifies this`sessions
      ensures Keyed(sessions) && forall t :: t in sessions ==> sessions[t].expiresAt > now
      ensures sessions.Values <= Unexpired(Some(file), now)
      ensures OneEach(Some(file), now) ==> Unexpired(Some(file), now) == sessions.Values
    {
      var rest := file;
      while rest != {}
        invariant rest <= file && Keyed(sessions)
        invariant forall t :: t in sessions ==> sessions[t].expiresAt > now && sessions[t] in file - rest
        invariant forall x :: x in file - rest && x.expiresAt > now ==> x.token in sessions
      {
        var x :| x in rest;
        if x.expiresAt > now {
          sessions := sessions[x.token := x];
        }
        rest := rest - {x};
      }
    }

    method Issue(r: Request, token: string, now: nat) returns (answer: Result<Session, string>)
      requires Valid()
      modifies this
      ensures Valid() && Contents() == Issued(setup, old(Contents()), r, token, now)
      ensures Disk() == FilesAfter(setup, old(Disk()), old(Contents()), Event(now, Op.Issue(r, token)))
      ensures Answers(setup, old(Contents()), r, token, now, answer)
    {
      var live := Live(sessions, r.machine, now);
      if live != {} {
        var t :| t in live;
        return Ok(sessions[t]);
      }
      if IsBanned(r.ip) || IsMemberBanned(r.machine) {
        return Err("banned");
      }
      var session := NewSession(setup, r, token, now);
      sessions := sessions[session.token := session];
      SaveSessions();
      return Ok(session);
    }

    method Rotate(r: Request, token: string, now: nat) returns (answer: Result<Session, string>)
      requires Valid()
      modifies this
      ensures Valid() && Contents() == Rotated(setup, old(Contents()), r, token, now)
      ensures Disk() == FilesAfter(setup, old(Disk()), old(Contents()), Event(now, Op.Rotate(r, token)))
      ensures RotationAnswers(setup, old(Contents()), r, token, now, answer)
    {
      sessions := map t | t in sessions && sessions[t].memberId != r.machine :: sessions[t];
      SaveSessions();
      assert Live(sessions, r.machine, now) == {};
      answer := Issue(r, token, now);
    }

    method VerifyToken(token: string, now: nat) returns (answer: Option<Session>)
      ensures answer == Verify(Contents(), token, now)
    {
      if token !in sessions {
        return None;
      }
      var s := sessions[token];
      if s.expiresAt < now || IsMemberBanned(s.memberId) {
        return None;
      }
      return Some(s);
    }

    /** Does not ask about bans. */
    method LookupToken(token: string, now: nat) returns (answer: Option<Session>)
      ensures answer == Lookup(Contents(), token, now)
    {
      if token !in sessions || sessions[token].expiresAt < now {
        return None;
      }
      return Some(sessions[token]);
    }

    method RevokeMember(member: string, ip: string)
      requires Valid()
      modifies this
      ensures Valid() && Contents() == Revoked(old(Contents()), member, ip)
      ensures forall now :: Disk() == FilesAfter(setup, old(Disk()), old(Contents()), Event(now, Revoke(member, ip)))
    {
      banned := banned + {member};
      if ip != "" {
        bannedIps := bannedIps + {ip};
      }
      Save();
      SaveSessions();
    }

    method Unban(member: string, ip: string)
      requires Valid()
      modifies this
      ensures Valid() && Contents() == Unbanned(old(Contents()), member, ip)
      ensures forall now :: Disk() == FilesAfter(setup, old(Disk()), old(Contents()), Event(now, Op.Unban(member, ip)))
    {
      banned := banned - {member};
      if ip != "" {
        bannedIps := bannedIps - {ip};
      }
      Save();
    }

    /** Another service, started on the files of this one. */
    method Restart(now: nat) returns (next: AuthService)
      requires Valid() && Reloads(setup, Disk(), Contents(), now)
      ensures fresh(next) && next.Valid() && next.setup == setup && next.Disk() == Disk()
      ensures next.Contents() == Restarted(setup, Contents(), now)
    {
      next := new AuthService(setup, bansFile, sessionsFile, now);
      if setup.keepsSessions {
        assert OneEach(sessionsFile, now);
        ValuesDetermine(next.sessions, Kept(sessions, now));
      }
    }

    predicate IsMemberBanned(member: string)
      reads this
    {
      member in banned
    }

    predicate IsBanned(ip: string)
      reads this
    {
      ip in bannedIps
    }

    method Save()
      modifies this`bansFile
      ensures Disk() == SavedBans(setup, old(Disk()), Contents())
    {
      if setup.keepsBans {
        bansFile := Some(Bans(banned, bannedIps));
      }
    }

    method SaveSessions()
      modifies this`sessionsFile
      ensures Disk() == SavedSessions(setup, old(Disk()), Contents())
    {
      if setup.keepsSessions {
        sessionsFile := Some(sessions.Values);
      }
    }
  }

  // --------------------------------------------------------------------------- runs

  function RunFrom(setup: Setup, s: State, events: seq<Event>): State {
    if events == [] then s
    else Next(setup, RunFrom(setup, s, events[..|events| - 1]), events[|events| - 1])
  }

  /** The state after these events, first to last. */
  function Run(setup: Setup, events: seq<Event>): State {
    RunFrom(setup, NOTHING, events)
  }

  function Fresh(op: Op): set<string> {
    if op.Issue? || op.Rotate? then {op.token} else {}
  }

  /** The clock does not go back and no token is generated twice. */
  ghost predicate Legal(events: seq<Event>) {
    forall i, j :: 0 <= i < j < |events| ==>
      events[i].now <= events[j].now && Fresh(events[i].op) !! Fresh(events[j].op)
  }

  /** The last event is no later than this. */
  ghost predicate EndsBy(events: seq<Event>, now: nat) {
    events == [] || events[|events| - 1].now <= now
  }

  function Generated(events: seq<Event>): set<string> {
    set e, t | e in events && t in Fresh(e.op) :: t
  }

  ghost predicate OneLiveEach(sessions: Sessions, now: nat) {
    forall t, u | t in sessions && u in sessions && sessions[t].memberId == sessions[u].memberId ::
      sessions[t].expiresAt > now && sessions[u].expiresAt > now ==> t == u
  }

  lemma LegalInit(events: seq<Event>, now: nat)
    requires events != [] && Legal(events) && EndsBy(events, now)
    ensures
      var init, last := events[..|events| - 1], events[|events| - 1];
      Legal(init) && EndsBy(init, last.now) && last.now <= now && Generated(init) !! Fresh(last.op) &&
      Generated(events) == Generated(init) + Fresh(last.op)
  {
    var init, last := events[..|events| - 1], events[|events| - 1];
    assert events == init + [last];
    GeneratedMore(init, last);
    forall t | t in Generated(init)
      ensures t !in Fresh(last.op)
    {
      var e :| e in init && t in Fresh(e.op);
      var i :| 0 <= i < |init| && init[i] == e;
      assert Fresh(events[i].op) !! Fresh(events[|init|].op);
    }
  }

  lemma GeneratedMore(init: seq<Event>, last: Event)
    ensures Generated(init + [last]) == Generated(init) + Fresh(last.op)
  {
    forall t | t in Generated(init)
      ensures t in Generated(init + [last])
    {
      var e :| e in init && t in Fresh(e.op);
      assert e in init + [last];
    }
    assert last in init + [last];
  }

  lemma StepKeepsOneLive(setup: Setup, s: State, e: Event)
    requires Keyed(s.sessions) && OneLiveEach(s.sessions, e.now) && Fresh(e.op) !! s.sessions.Keys
    ensures
      var n := Next(setup, s, e);
      Keyed(n.sessions) && OneLiveEach(n.sessions, e.now) && n.sessions.Keys <= s.sessions.Keys + Fresh(e.op)
  {
    if e.op.Rotate? {
      IssueKeepsOneLive(setup, s.(sessions := Without(s.sessions, e.op.r.machine)), e.op.r, e.op.token, e.now);
    } else if e.op.Issue? {
      IssueKeepsOneLive(setup, s, e.op.r, e.op.token, e.now);
    }
  }

  lemma IssueKeepsOneLive(setup: Setup, s: State, r: Request, token: string, now: nat)
    requires Keyed(s.sessions) && OneLiveEach(s.sessions, now) && token !in s.sessions
    ensures
      var n := Issued(setup, s, r, token, now);
      Keyed(n.sessions) && OneLiveEach(n.sessions, now) && n.sessions.Keys <= s.sessions.Keys + {token}
  {
    forall t | t in s.sessions && s.sessions[t].memberId == r.machine && s.sessions[t].expiresAt > now
      ensures t in Live(s.sessions, r.machine, now)
    {
    }
  }

  /** Over every run no member has two sessions that expire after the present second; each is
      filed under its token, which was generated in the run. */
  lemma {:induction false} AtMostOneLive(setup: Setup, events: seq<Event>, now: nat)
    requires Legal(events) && EndsBy(events, now)
    ensures
      var sessions := Run(setup, events).sessions;
      Keyed(sessions) && OneLiveEach(sessions, now) && sessions.Keys <= Generated(events)
  {
    if events != [] {
      var init, last := events[..|events| - 1], events[|events| - 1];
      LegalInit(events, now);
      AtMostOneLive(setup, init, last.now);
      StepKeepsOneLive(setup, Run(setup, init), last);
    }
  }

  // ------------------------------------------------------------------ files over a run

  /** The files after these events, if there were none before. */
  function FilesOf(setup: Setup, events: seq<Event>): Files {
    if events == [] then Files(None, None)
    else
      var init := events[..|events| - 1];
      FilesAfter(setup, FilesOf(setup, init), Run(setup, init), events[|events| - 1])
  }

  lemma SavedReloads(setup: Setup, f: Files, s: State, now: nat)
    ensures Unexpired(SavedSessions(setup, f, s).sessions, now) ==
            if setup.keepsSessions then Kept(s.sessions, now).Values else Unexpired(f.sessions, now)
  {
    SavedValues(s.sessions, now);
  }

  lemma StepReloads(setup: Setup, f: Files, s: State, e: Event)
    requires Reloads(setup, f, s, e.now)
    ensures Reloads(setup, FilesAfter(setup, f, s, e), Next(setup, s, e), e.now)
  {
    var after := Next(setup, s, e);
    SavedReloads(setup, f, after, e.now);
    match e.op
    case Revoke(_, _) => SavedReloads(setup, SavedBans(setup, f, after), after, e.now);
    case Restart => assert Kept(Kept(s.sessions, e.now), e.now) == Kept(s.sessions, e.now);
    case _ =>
  }

  /** After every run, at any later time: the files give back the bans, and every session that has
      not expired by then. */
  lemma {:induction false} FilesReload(setup: Setup, events: seq<Event>, now: nat)
    requires Legal(events) && EndsBy(events, now)
    ensures Reloads(setup, FilesOf(setup, events), Run(setup, events), now)
  {
    if events != [] {
      var init, last := events[..|events| - 1], events[|events| - 1];
      LegalInit(events, now);
      FilesReload(setup, init, last.now);
      StepReloads(setup, FilesOf(setup, init), Run(setup, init), last);
      ReloadsLater(setup, FilesOf(setup, events), Run(setup, events), last.now, now);
    } else {
      assert Kept(map[], now).Values == {};
    }
  }

  // ------------------------------------------------- which sessions there are, from the history

  /** The event leaves the session where it is: it does not rotate its member's tokens, and a
      restart finds it in a file and unexpired. */
  predicate Spares(setup: Setup, e: Event, x: Session) {
    (e.op.Rotate? ==> e.op.r.machine != x.memberId) && (e.op.Restart? ==> setup.keepsSessions && x.expiresAt > e.now)
  }

  /** Event `i` put the session in place, and every later event has spared it. */
  ghost predicate Origin(setup: Setup, events: seq<Event>, i: nat, x: Session) {
    i < |events| && MintedBy(setup, Run(setup, events[..i]), events[i]) == Some(x) &&
    forall j :: i < j < |events| ==> Spares(setup, events[j], x)
  }

  ghost predicate HasOrigin(setup: Setup, events: seq<Event>, x: Session) {
    exists i: nat :: Origin(setup, events, i, x)
  }

  ghost predicate Held(s: State, x: Session) {
    x.token in s.sessions && s.sessions[x.token] == x
  }

  lemma HeldStep(setup: Setup, s: State, e: Event, x: Session)
    requires Keyed(s.sessions) && Fresh(e.op) !! s.sessions.Keys
    ensures Held(Next(setup, s, e), x) <==> MintedBy(setup, s, e) == Some(x) || (Held(s, x) && Spares(setup, e, x))
  {
    if e.op.Rotate? {
      assert Live(Without(s.sessions, e.op.r.machine), e.op.r.machine, e.now) == {};
    }
  }

  lemma OriginStep(setup: Setup, init: seq<Event>, e: Event, x: Session)
    ensures HasOrigin(setup, init + [e], x) <==>
            MintedBy(setup, Run(setup, init), e) == Some(x) || (HasOrigin(setup, init, x) && Spares(setup, e, x))
  {
    var events := init + [e];
    assert events[..|init|] == init;
    if HasOrigin(setup, events, x) {
      var i: nat :| Origin(setup, events, i, x);
      if i < |init| {
        assert events[..i] == init[..i];
        assert Origin(setup, init, i, x) && events[|init|] == e;
      }
    }
    if MintedBy(setup, Run(setup, init), e) == Some(x) {
      assert Origin(setup, events, |init|, x);
    } else if HasOrigin(setup, init, x) && Spares(setup, e, x) {
      var i: nat :| Origin(setup, init, i, x);
      assert events[..i] == init[..i];
      assert Origin(setup, events, i, x);
    }
  }

  /** A session is there exactly when an event put it there and all later events spared it. */
  lemma {:induction false} SessionsExactly(setup: Setup, events: seq<Event>, x: Session)
    requires Legal(events)
    ensures Held(Run(setup, events), x) <==> HasOrigin(setup, events, x)
  {
    if events != [] {
      var init, last := events[..|events| - 1], events[|events| - 1];
      LegalInit(events, last.now);
      AtMostOneLive(setup, init, last.now);
      SessionsExactly(setup, init, x);
      HeldStep(setup, Run(setup, init), last, x);
      OriginStep(setup, init, last, x);
      assert init + [last] == events;
    }
  }

  /** The last event that decides about the member is a ban. */
  ghost predicate BannedBy(setup: Setup, events: seq<Event>, i: nat, member: string) {
    i < |events| && events[i].op.Revoke? && events[i].op.member == member &&
    forall j :: i < j < |events| ==> KeepsBan(setup, events[j], member)
  }

  predicate KeepsBan(setup: Setup, e: Event, member: string) {
    (e.op.Unban? ==> e.op.member != member) && (e.op.Restart? ==> setup.keepsBans)
  }

  ghost predicate IsBannedBy(setup: Setup, events: seq<Event>, member: string) {
    exists i: nat :: BannedBy(setup, events, i, member)
  }

  lemma {:induction false} BansExactly(setup: Setup, events: seq<Event>, member: string)
    ensures member in Run(setup, events).banned <==> IsBannedBy(setup, events, member)
  {
    if events != [] {
      var init, last := events[..|events| - 1], events[|events| - 1];
      BansExactly(setup, init, member);
      if last.op.Revoke? && last.op.member == member {
        assert BannedBy(setup, events, |init|, member);
      } else if IsBannedBy(setup, init, member) && KeepsBan(setup, last, member) {
        var i: nat :| BannedBy(setup, init, i, member);
        assert BannedBy(setup, events, i, member);
      } else if IsBannedBy(setup, events, member) {
        var i: nat :| BannedBy(setup, events, i, member);
        assert BannedBy(setup, init, i, member);
      }
    }
  }

  /** The last event that decides about the address is a ban that names it. */
  ghost predicate AddressBannedBy(setup: Setup, events: seq<Event>, i: nat, ip: string) {
    i < |events| && events[i].op.Revoke? && events[i].op.ip == ip != "" &&
    forall j :: i < j < |events| ==> KeepsAddressBan(setup, events[j], ip)
  }

  predicate KeepsAddressBan(setup: Setup, e: Event, ip: string) {
    (e.op.Unban? ==> e.op.ip != ip) && (e.op.Restart? ==> setup.keepsBans)
  }

  ghost predicate IsAddressBannedBy(setup: Setup, events: seq<Event>, ip: string) {
    exists i: nat :: AddressBannedBy(setup, events, i, ip)
  }

  lemma {:induction false} AddressBansExactly(setup: Setup, events: seq<Event>, ip: string)
    ensures ip in Run(setup, events).bannedIps <==> IsAddressBannedBy(setup, events, ip)
  {
    if events != [] {
      var init, last := events[..|events| - 1], events[|events| - 1];
      AddressBansExactly(setup, init, ip);
      if last.op.Revoke? && last.op.ip == ip && ip != "" {
        assert AddressBannedBy(setup, events, |init|, ip);
      } else if IsAddressBannedBy(setup, init, ip) && KeepsAddressBan(setup, last, ip) {
        var i: nat :| AddressBannedBy(setup, init, i, ip);
        assert AddressBannedBy(setup, events, i, ip);
      } else if IsAddressBannedBy(setup, events, ip) {
        var i: nat :| AddressBannedBy(setup, events, i, ip);
        assert AddressBannedBy(setup, init, i, ip);
      }
    }
  }

  // ------------------------------------------------- who is given a token, from the history

  /** The machine has a session that expires after this second. */
  ghost predicate HasLive(setup: Setup, events: seq<Event>, machine: string, now: nat) {
    exists x: Session :: HasOrigin(setup, events, x) && x.memberId == machine && now < x.expiresAt
  }

  /** Neither the machine nor the address is banned. */
  ghost predicate MayEnter(setup: Setup, events: seq<Event>, r: Request) {
    !IsAddressBannedBy(setup, events, r.ip) && !IsBannedBy(setup, events, r.machine)
  }

  /** A new session for the request: the machine is the member, the shown name falls back to it, and
      it lasts as long as set up. */
  ghost predicate IsNewFor(setup: Setup, x: Session, r: Request, token: string, now: nat) {
    x.token == token && x.memberId == r.machine && x.machineName == r.machine && x.issuedAt == now &&
    (r.display != "" ==> x.displayName == r.display) && (r.display == "" ==> x.displayName == r.machine) &&
    (setup.ttl > 0 ==> x.expiresAt == now + setup.ttl) && (setup.ttl == 0 ==> x.expiresAt == U64_BOUND - 1)
  }

  lemma LiveIsHeld(setup: Setup, events: seq<Event>, machine: string, now: nat)
    requires Legal(events)
    ensures Live(Run(setup, events).sessions, machine, now) != {} <==> HasLive(setup, events, machine, now)
  {
    var sessions := Run(setup, events).sessions;
    if events != [] {
      AtMostOneLive(setup, events, events[|events| - 1].now);
    }
    if t :| t in Live(sessions, machine, now) {
      SessionsExactly(setup, events, sessions[t]);
    }
    if x: Session :| HasOrigin(setup, events, x) && x.memberId == machine && now < x.expiresAt {
      SessionsExactly(setup, events, x);
      assert x.token in Live(sessions, machine, now);
    }
  }

  /** What `issue` does, from the history alone: a machine with a live session gets it again, whoever
      is banned, and nothing changes; else a ban of the machine or of the address it asks from is an
      error, and nothing changes; else there is one session more, a new one for this machine. */
  lemma IssueExactly(setup: Setup, events: seq<Event>, r: Request, token: string, now: nat,
                     answer: Result<Session, string>)
    requires Legal(events) && Answers(setup, Run(setup, events), r, token, now, answer)
    ensures
      var before, after := Run(setup, events), Run(setup, events + [Event(now, Issue(r, token))]);
      if HasLive(setup, events, r.machine, now) then
        after == before && answer.Ok? && HasOrigin(setup, events, answer.value) && answer.value.memberId == r.machine
      else if !MayEnter(setup, events, r) then after == before && answer == Err("banned")
      else
        answer.Ok? && IsNewFor(setup, answer.value, r, token, now) &&
        after == before.(sessions := before.sessions[token := answer.value])
  {
    var s := Run(setup, events);
    RunMore(setup, events, Event(now, Issue(r, token)));
    LiveIsHeld(setup, events, r.machine, now);
    AddressBansExactly(setup, events, r.ip);
    BansExactly(setup, events, r.machine);
    if HasLive(setup, events, r.machine, now) {
      if events != [] {
        AtMostOneLive(setup, events, events[|events| - 1].now);
      }
      SessionsExactly(setup, events, answer.value);
    }
  }

  /** What `rotate` does: the machine's sessions are gone in any case and all others stay; a ban of
      the machine or of the address is an error and leaves it at that; else there is a new one. */
  lemma RotateExactly(setup: Setup, events: seq<Event>, r: Request, token: string, now: nat,
                     answer: Result<Session, string>)
    requires Legal(events) && RotationAnswers(setup, Run(setup, events), r, token, now, answer)
    ensures
      var before, after := Run(setup, events), Run(setup, events + [Event(now, Rotate(r, token))]);
      var others := map t | t in before.sessions && before.sessions[t].memberId != r.machine :: before.sessions[t];
      if !MayEnter(setup, events, r) then after == before.(sessions := others) && answer == Err("banned")
      else
        answer.Ok? && IsNewFor(setup, answer.value, r, token, now) &&
        after == before.(sessions := others[token := answer.value])
  {
    var s := Run(setup, events);
    RunMore(setup, events, Event(now, Rotate(r, token)));
    AddressBansExactly(setup, events, r.ip);
    BansExactly(setup, events, r.machine);
    assert Live(Without(s.sessions, r.machine), r.machine, now) == {};
  }

  lemma RunMore(setup: Setup, events: seq<Event>, e: Event)
    ensures Run(setup, events + [e]) == Next(setup, Run(setup, events), e)
  {
    assert (events + [e])[..|events|] == events;
  }

  /** Nothing that comes from a banned address adds a token, under whatever machine name. */
  lemma NothingNewFromBannedAddress(setup: Setup, events: seq<Event>, e: Event)
    requires e.op.Issue? || e.op.Rotate?
    requires IsAddressBannedBy(setup, events, e.op.r.ip)
    ensures Run(setup, events + [e]).sessions.Keys <= Run(setup, events).sessions.Keys
  {
    RunMore(setup, events, e);
    AddressBansExactly(setup, events, e.op.r.ip);
  }

  /** What `verify` says, from the history alone: exactly a session that was put in place and
      spared by every event since, that has not expired, and whose member is not banned. */
  lemma VerifiesExactly(setup: Setup, events: seq<Event>, token: string, now: nat, x: Session)
    requires Legal(events)
    ensures Verify(Run(setup, events), token, now) == Some(x) <==>
            x.token == token && HasOrigin(setup, events, x) && now <= x.expiresAt &&
            !IsBannedBy(setup, events, x.memberId)
  {
    var s := Run(setup, events);
    SessionsExactly(setup, events, x);
    BansExactly(setup, events, x.memberId);
    if events != [] {
      AtMostOneLive(setup, events, events[|events| - 1].now);
    }
  }

  // ------------------------------------------------------------ what callers rely on

  lemma {:induction false} RunConcat(setup: Setup, s: State, a: seq<Event>, b: seq<Event>)
    ensures RunFrom(setup, s, a + b) == RunFrom(setup, RunFrom(setup, s, a), b)
  {
    if b == [] {
      assert a + b == a;
    } else {
      var init, last := b[..|b| - 1], b[|b| - 1];
      assert (a + b)[..|a + b| - 1] == a + init;
      RunConcat(setup, s, a, init);
    }
  }

  /** A client keeps its token: until it expires, whatever else happens but a rotation for the same
      machine (or a restart without a file), `issue` answers with the same session. */
  lemma IssueAnswersTheSame(setup: Setup, events: seq<Event>, more: seq<Event>, x: Session, r: Request, token: string,
                            now: nat,
                            answer: Result<Session, string>)
    requires Legal(events + more) && Legal(events) && EndsBy(events + more, now)
    requires Held(Run(setup, events), x) && r.machine == x.memberId && now < x.expiresAt
    requires forall e :: e in more ==> Spares(setup, e, x)
    requires Answers(setup, Run(setup, events + more), r, token, now, answer)
    ensures answer == Ok(x)
  {
    SessionsExactly(setup, events, x);
    var i: nat :| Origin(setup, events, i, x);
    assert (events + more)[..i] == events[..i];
    assert Origin(setup, events + more, i, x);
    SessionsExactly(setup, events + more, x);
    AtMostOneLive(setup, events + more, now);
    assert x.token in Live(Run(setup, events + more).sessions, r.machine, now);
  }

  lemma {:induction false} GoneStaysGone(setup: Setup, events: seq<Event>, more: seq<Event>, token: string)
    requires Legal(events + more) && token in Generated(events) && token !in Run(setup, events).sessions
    ensures token !in Run(setup, events + more).sessions
  {
    if more == [] {
      assert events + more == events;
    } else {
      var init, last := more[..|more| - 1], more[|more| - 1];
      assert (events + more)[..|events + more| - 1] == events + init;
      LegalInit(events + more, last.now);
      GoneStaysGone(setup, events, init, token);
    }
  }

  /** A token that a rotation replaces never verifies again, at any time, whatever follows. */
  lemma RotatedOutForEver(setup: Setup, events: seq<Event>, rotation: Event, more: seq<Event>, token: string, now: nat)
    requires Legal(events + [rotation] + more) && rotation.op.Rotate?
    requires
      var sessions := Run(setup, events).sessions;
      token in sessions && sessions[token].memberId == rotation.op.r.machine
    ensures Lookup(Run(setup, events + [rotation] + more), token, now) == None
    ensures Verify(Run(setup, events + [rotation] + more), token, now) == None
  {
    LegalPrefix(events + [rotation], more);
    RotatedOut(setup, events, rotation, token);
    GoneStaysGone(setup, events + [rotation], more, token);
  }

  lemma RotatedOut(setup: Setup, events: seq<Event>, rotation: Event, token: string)
    requires Legal(events + [rotation]) && rotation.op.Rotate?
    requires
      var sessions := Run(setup, events).sessions;
      token in sessions && sessions[token].memberId == rotation.op.r.machine
    ensures token in Generated(events + [rotation]) && token !in Run(setup, events + [rotation]).sessions
  {
    var upto := events + [rotation];
    assert upto[..|upto| - 1] == events;
    LegalInit(upto, rotation.now);
    AtMostOneLive(setup, events, rotation.now);
  }

  lemma LegalPrefix(events: seq<Event>, more: seq<Event>)
    requires Legal(events + more)
    ensures Legal(events)
  {
    forall i, j | 0 <= i < j < |events|
      ensures events[i].now <= events[j].now && Fresh(events[i].op) !! Fresh(events[j].op)
    {
      assert (events + more)[i] == events[i] && (events + more)[j] == events[j];
    }
  }

  function TokensOf(s: State, member: string): set<string> {
    set t | t in s.sessions && s.sessions[t].memberId == member
  }

  /** All through these events the member is banned. */
  ghost predicate BannedThroughout(setup: Setup, s: State, events: seq<Event>, member: string) {
    forall i :: 0 <= i <= |events| ==> member in RunFrom(setup, s, events[..i]).banned
  }

  /** While a member is banned it gets no new token, and none that it has verifies. */
  lemma {:induction false} NothingNewWhileBanned(setup: Setup, s: State, events: seq<Event>, member: string,
                                                 token: string,
                                                 now: nat)
    requires BannedThroughout(setup, s, events, member)
    ensures
      var after := RunFrom(setup, s, events);
      TokensOf(after, member) <= TokensOf(s, member) &&
      (token in TokensOf(after, member) ==> Verify(after, token, now) == None)
  {
    assert events[..|events|] == events;
    if events != [] {
      var init, last := events[..|events| - 1], events[|events| - 1];
      forall i | 0 <= i <= |init|
        ensures member in RunFrom(setup, s, init[..i]).banned
      {
        assert init[..i] == events[..i];
      }
      NothingNewWhileBanned(setup, s, init, member, token, now);
      NoNewToken(setup, RunFrom(setup, s, init), last, member);
    }
  }

  lemma NoNewToken(setup: Setup, s: State, e: Event, member: string)
    requires member in s.banned
    ensures TokensOf(Next(setup, s, e), member) <= TokensOf(s, member)
  {
  }

  /** Two tokens of one member can both verify only in the very second in which one of them
      expires: `verify` takes that second in, `issue` and a restart do not. */
  lemma TwoTokensOnlyAtExpiry(setup: Setup, events: seq<Event>, t: string, u: string, now: nat)
    requires Legal(events) && EndsBy(events, now) && t != u
    requires
      var s := Run(setup, events);
      Verify(s, t, now).Some? && Verify(s, u, now).Some? &&
      Verify(s, t, now).value.memberId == Verify(s, u, now).value.memberId
    ensures
      var s := Run(setup, events);
      s.sessions[t].expiresAt == now || s.sessions[u].expiresAt == now
  {
    AtMostOneLive(setup, events, now);
  }

  /** Two different tokens of the member verify. */
  ghost predicate TwoVerify(s: State, member: string, now: nat) {
    exists t, u :: t != u && VerifiesFor(s, t, member, now) && VerifiesFor(s, u, member, now)
  }

  predicate VerifiesFor(s: State, token: string, member: string, now: nat) {
    Verify(s, token, now).Some? && Verify(s, token, now).value.memberId == member
  }

  /** Two different sessions of the member are in place, one expiring now and one not before. */
  ghost predicate OneEndsNow(setup: Setup, events: seq<Event>, member: string, now: nat) {
    exists x: Session, y: Session ::
      HasOrigin(setup, events, x) && HasOrigin(setup, events, y) &&
      x != y && x.memberId == y.memberId == member && x.expiresAt == now <= y.expiresAt
  }

  lemma TwoVerifyOneEnds(setup: Setup, events: seq<Event>, member: string, now: nat, t: string, u: string)
    requires Legal(events) && EndsBy(events, now) && t != u
    requires VerifiesFor(Run(setup, events), t, member, now) && VerifiesFor(Run(setup, events), u, member, now)
    ensures OneEndsNow(setup, events, member, now)
  {
    var s := Run(setup, events);
    var x, y := s.sessions[t], s.sessions[u];
    AtMostOneLive(setup, events, now);
    SessionsExactly(setup, events, x);
    SessionsExactly(setup, events, y);
    TwoTokensOnlyAtExpiry(setup, events, t, u, now);
  }

  lemma OneEndsTwoVerify(setup: Setup, events: seq<Event>, member: string, now: nat, x: Session, y: Session)
    requires Legal(events) && !IsBannedBy(setup, events, member)
    requires HasOrigin(setup, events, x) && HasOrigin(setup, events, y)
    requires x != y && x.memberId == y.memberId == member && now <= x.expiresAt && now <= y.expiresAt
    ensures TwoVerify(Run(setup, events), member, now)
  {
    var s := Run(setup, events);
    VerifiesExactly(setup, events, x.token, now, x);
    VerifiesExactly(setup, events, y.token, now, y);
    assert VerifiesFor(s, x.token, member, now) && VerifiesFor(s, y.token, member, now);
  }

  /** Exactly when two tokens of a member that is not banned verify together. */
  lemma TwoTokensExactly(setup: Setup, events: seq<Event>, member: string, now: nat)
    requires Legal(events) && EndsBy(events, now) && !IsBannedBy(setup, events, member)
    ensures TwoVerify(Run(setup, events), member, now) <==> OneEndsNow(setup, events, member, now)
  {
    var s := Run(setup, events);
    if TwoVerify(s, member, now) {
      var t, u :| t != u && VerifiesFor(s, t, member, now) && VerifiesFor(s, u, member, now);
      TwoVerifyOneEnds(setup, events, member, now, t, u);
    }
    if OneEndsNow(setup, events, member, now) {
      var x: Session, y: Session :|
        HasOrigin(setup, events, x) && HasOrigin(setup, events, y) &&
        x != y && x.memberId == y.memberId == member && x.expiresAt == now <= y.expiresAt;
      OneEndsTwoVerify(setup, events, member, now, x, y);
    }
  }

  lemma RunOne(setup: Setup, s: State, e: Event)
    ensures RunFrom(setup, s, [e]) == Next(setup, s, e)
  {
    assert [e][..|[e]| - 1] == [];
  }

  lemma TwoTokensDoVerify()
    ensures
      var r := Request("pc", "", "");
      var events := [Event(0, Issue(r, "a")), Event(1, Issue(r, "b"))];
      var s := Run(Setup(1, true, true), events);
      Legal(events) && Verify(s, "a", 1).Some? && Verify(s, "b", 1).Some?
  {
    var setup, r := Setup(1, true, true), Request("pc", "", "");
    var e, f := Event(0, Issue(r, "a")), Event(1, Issue(r, "b"));
    var none: seq<Event> := [];
    assert [e, f] == none + [e] + [f];
    RunConcat(setup, NOTHING, none + [e], [f]);
    RunOne(setup, NOTHING, e);
    RunOne(setup, RunFrom(setup, NOTHING, [e]), f);
    assert none + [e] == [e];
    assert Live(map[], "pc", 0) == {};
  }

  // ------------------------------------------------------------------------ restart

  /** Alike but for sessions that have expired. */
  ghost predicate Alike(a: State, b: State, now: nat) {
    a.banned == b.banned && a.bannedIps == b.bannedIps && Kept(a.sessions, now) == Kept(b.sessions, now)
  }

  lemma AlikeLater(a: State, b: State, now: nat, later: nat)
    requires Alike(a, b, now) && now <= later
    ensures Alike(a, b, later)
  {
    forall t | t in Kept(a.sessions, later)
      ensures t in Kept(b.sessions, later) && a.sessions[t] == b.sessions[t]
    {
      assert t in Kept(a.sessions, now);
    }
    forall t | t in Kept(b.sessions, later)
      ensures t in Kept(a.sessions, later)
    {
      assert t in Kept(b.sessions, now);
    }
  }

  lemma LiveAlike(a: State, b: State, member: string, now: nat)
    requires Alike(a, b, now)
    ensures Live(a.sessions, member, now) == Live(b.sessions, member, now)
  {
    assert Live(a.sessions, member, now) == set t | t in Kept(a.sessions, now) &&
           Kept(a.sessions, now)[t].memberId == member;
    assert Live(b.sessions, member, now) == set t | t in Kept(b.sessions, now) &&
           Kept(b.sessions, now)[t].memberId == member;
  }

  lemma IssueAlike(setup: Setup, a: State, b: State, r: Request, token: string, now: nat)
    requires Alike(a, b, now)
    ensures Alike(Issued(setup, a, r, token, now), Issued(setup, b, r, token, now), now)
  {
    LiveAlike(a, b, r.machine, now);
    var x := NewSession(setup, r, token, now);
    KeptWith(a.sessions, token, x, now);
    KeptWith(b.sessions, token, x, now);
  }

  lemma KeptWith(sessions: Sessions, token: string, x: Session, now: nat)
    ensures Kept(sessions[token := x], now) ==
            if x.expiresAt > now then Kept(sessions, now)[token := x] else Kept(sessions, now) - {token}
  {
  }

  lemma KeptWithout(sessions: Sessions, member: string, now: nat)
    ensures Kept(Without(sessions, member), now) == Without(Kept(sessions, now), member)
  {
  }

  lemma StepAlike(setup: Setup, a: State, b: State, e: Event)
    requires Alike(a, b, e.now)
    ensures Alike(Next(setup, a, e), Next(setup, b, e), e.now)
  {
    match e.op
    case Issue(r, token) => IssueAlike(setup, a, b, r, token, e.now);
    case Rotate(r, token) =>
      KeptWithout(a.sessions, r.machine, e.now);
      KeptWithout(b.sessions, r.machine, e.now);
      var a', b' := a.(sessions := Without(a.sessions, r.machine)), b.(sessions := Without(b.sessions, r.machine));
      IssueAlike(setup, a', b', r, token, e.now);
    case _ =>
  }

  lemma {:induction false} RunAlike(setup: Setup, a: State, b: State, events: seq<Event>, start: nat, now: nat)
    requires Alike(a, b, start) && start <= now && EndsBy(events, now)
    requires forall i :: 0 <= i < |events| ==> start <= events[i].now
    requires Legal(events)
    ensures Alike(RunFrom(setup, a, events), RunFrom(setup, b, events), now)
  {
    if events == [] {
      AlikeLater(a, b, start, now);
    } else {
      var init, last := events[..|events| - 1], events[|events| - 1];
      LegalInit(events, now);
      RunAlike(setup, a, b, init, start, last.now);
      StepAlike(setup, RunFrom(setup, a, init), RunFrom(setup, b, init), last);
      AlikeLater(RunFrom(setup, a, events), RunFrom(setup, b, events), last.now, now);
    }
  }

  /** With both files, a restart put anywhere in a run changes nothing that expires later: at the
      end the bans, and the sessions that expire after the present second, are the same. */
  lemma RestartIsInvisible(setup: Setup, before: seq<Event>, more: seq<Event>, start: nat, now: nat)
    requires setup.keepsBans && setup.keepsSessions
    requires start <= now && EndsBy(more, now) && Legal(more)
    requires forall i :: 0 <= i < |more| ==> start <= more[i].now
    ensures Alike(Run(setup, before + [Event(start, Restart)] + more), Run(setup, before + more), now)
  {
    var restart := Event(start, Restart);
    RunConcat(setup, NOTHING, before + [restart], more);
    RunConcat(setup, NOTHING, before, more);
    assert (before + [restart])[..|before|] == before;
    var s := Run(setup, before);
    assert Kept(Kept(s.sessions, start), start) == Kept(s.sessions, start);
    RunAlike(setup, Next(setup, s, restart), s, more, start, now);
  }

  /** Between states that are alike `issue` may answer the same things, and `lookup` and `verify`
      agree on a token unless one side has it and it expires in this very second. */
  lemma AlikeAnswers(setup: Setup, a: State, b: State, now: nat, token: string, r: Request, next: string,
                     answer: Result<Session, string>)
    requires Alike(a, b, now)
    ensures Answers(setup, a, r, next, now, answer) <==> Answers(setup, b, r, next, now, answer)
    ensures Lookup(a, token, now) != Lookup(b, token, now) ==>
      (token in a.sessions && a.sessions[token].expiresAt == now) ||
      (token in b.sessions && b.sessions[token].expiresAt == now)
    ensures Lookup(a, token, now) == Lookup(b, token, now) ==> Verify(a, token, now) == Verify(b, token, now)
  {
    LiveAlike(a, b, r.machine, now);
    forall t | t in a.sessions && a.sessions[t].expiresAt > now
      ensures t in b.sessions && a.sessions[t] == b.sessions[t]
    {
      assert t in Kept(a.sessions, now) && Kept(b.sessions, now)[t] == a.sessions[t];
    }
    forall t | t in b.sessions && b.sessions[t].expiresAt > now
      ensures t in a.sessions && a.sessions[t] == b.sessions[t]
    {
      assert t in Kept(b.sessions, now) && Kept(a.sessions, now)[t] == b.sessions[t];
    }
  }

  /** Exactly when a restart shows: the token is there, unbanned, and expires in the second of the
      restart, in which it is also used. */
  lemma RestartShows(setup: Setup, s: State, token: string, start: nat, now: nat)
    requires setup.keepsBans && setup.keepsSessions && start <= now
    ensures Verify(Restarted(setup, s, start), token, now) != Verify(s, token, now) <==>
            start == now && token in s.sessions && s.sessions[token].expiresAt == now &&
            s.sessions[token].memberId !in s.banned
  {
  }
}
