/** Provider health: the state machine a poll drives, and what a run of polls, setting changes and
    deletions leaves in it. */
module Health {
  import opened Wrappers

  datatype Level = Good | Degraded | Removed

  datatype ProviderState = ProviderState(level: Level, failures: nat, latencyMs: Option<nat>, lastError: Option<string>)

  datatype PollConfig = PollConfig(enabled: bool, pollIntervalSecs: nat, failThreshold: nat, removeThreshold: nat)

  const DEFAULT_CONFIG := PollConfig(true, 15, 3, 10)
  const FRESH := ProviderState(Good, 0, None, None)

  /** The outcome of one probe. */
  datatype Probe = Success(latencyMs: Option<nat>) | Failure(reason: string)

  function LevelFor(failures: nat, cfg: PollConfig): Level {
    if failures >= cfg.removeThreshold then Removed
    else if failures >= cfg.failThreshold then Degraded
    else Good
  }

  /** A success clears everything; a failure counts and may change the level. */
  function Observed(st: ProviderState, probe: Probe, cfg: PollConfig): ProviderState {
    match probe
    case Success(latency) => ProviderState(Good, 0, latency, None)
    case Failure(reason) =>
      ProviderState(LevelFor(st.failures + 1, cfg), st.failures + 1, st.latencyMs, Some(reason))
  }

  type States = map<string, ProviderState>
  type Configs = map<string, PollConfig>

  /** An explicit setting, or the default: on for executor presets, off for the rest. */
  function ConfigOf(configs: Configs, id: string, isExecutor: bool): PollConfig {
    if id in configs then configs[id] else DEFAULT_CONFIG.(enabled := isExecutor)
  }

  /** A probe that was started under `cfg` comes in: it is dropped if polling was switched off in
      the meantime. */
  function Finished(states: States, configs: Configs, id: string, isExecutor: bool, cfg: PollConfig,
                    probe: Probe): States {
    if !ConfigOf(configs, id, isExecutor).enabled then states
    else states[id := Observed(if id in states then states[id] else FRESH, probe, cfg)]
  }

  class HealthMonitor {
    var states: States
    var configs: Configs

    constructor ()
      ensures states == map[] && configs == map[]
    {
      states, configs := map[], map[];
    }

    function Config(id: string, isExecutor: bool): PollConfig
      reads this
    {
      ConfigOf(configs, id, isExecutor)
    }

    method SetConfig(id: string, cfg: PollConfig)
      modifies this
      ensures configs == old(configs)[id := cfg] && states == old(states)
    {
      configs := configs[id := cfg];
    }

    /** After a backend is deleted. */
    method Remove(id: string)
      modifies this
      ensures states == old(states) - {id} && configs == old(configs) - {id}
    {
      states := states - {id};
      configs := configs - {id};
    }

    /** The end of one poll, after the probe. */
    method FinishPoll(id: string, isExecutor: bool, cfg: PollConfig, probe: Probe)
      modifies this
      ensures states == Finished(old(states), configs, id, isExecutor, cfg, probe) && configs == old(configs)
    {
      if !Config(id, isExecutor).enabled {
        return;
      }
      if id !in states {
        states := states[id := FRESH];
      }
      states := states[id := Observed(states[id], probe, cfg)];
    }

    /** The polling settings of a backend are edited: its state starts over. */
    method EditPolling(id: string, cfg: PollConfig)
      modifies this
      ensures states == old(states) - {id} && configs == old(configs)[id := cfg]
    {
      SetConfig(id, cfg);
      states := states - {id};
    }
  }

  // --------------------------------------------------------------------------- runs

  /** The poll loop has at most one probe under way: the backend, and the settings read before. */
  datatype Poll = Idle | Probing(id: string, isExecutor: bool, cfg: PollConfig)

  datatype System = System(states: States, configs: Configs, poll: Poll)

  const INITIAL := System(map[], map[], Idle)

  /** What can happen, each step atomic. Any backend may be probed at any time. A probe takes two
      steps, so anything may come between. */
  datatype Event =
    | BeginProbe(id: string, isExecutor: bool)
    | EndProbe(probe: Probe)
    | EditSettings(id: string, cfg: PollConfig)
    | Delete(id: string)
    | ReplaceBackends

  function Next(s: System, e: Event): System {
    match e
    case BeginProbe(id, isExecutor) =>
      var cfg := ConfigOf(s.configs, id, isExecutor);
      if s.poll.Idle? then s.(poll := Probing(id, isExecutor, cfg)) else s
    case EndProbe(probe) =>
      (match s.poll
       case Idle => s
       case Probing(id, isExecutor, cfg) =>
         System(Finished(s.states, s.configs, id, isExecutor, cfg, probe), s.configs, Idle))
    case EditSettings(id, cfg) => System(s.states - {id}, s.configs[id := cfg], s.poll)
    case Delete(id) => System(s.states - {id}, s.configs - {id}, s.poll)
    case ReplaceBackends => s
  }

  function Run(events: seq<Event>): System {
    if events == [] then INITIAL else Next(Run(events[..|events| - 1]), events[|events| - 1])
  }

  lemma RunMore(events: seq<Event>, e: Event)
    ensures Run(events + [e]) == Next(Run(events), e)
  {
    assert (events + [e])[..|events|] == events;
  }

  /** One probe result that counted, with the settings it was judged by. */
  datatype Sample = Sample(probe: Probe, cfg: PollConfig)

  /** The probe results that counted for a backend since its settings were last edited or it was
      last deleted. */
  function History(events: seq<Event>, id: string): seq<Sample> {
    if events == [] then []
    else
      var init, last := events[..|events| - 1], events[|events| - 1];
      var s := Run(init);
      match last
      case EndProbe(probe) =>
        if s.poll.Probing? && s.poll.id == id && ConfigOf(s.configs, id, s.poll.isExecutor).enabled then
          History(init, id) + [Sample(probe, s.poll.cfg)]
        else History(init, id)
      case EditSettings(i, _) => if i == id then [] else History(init, id)
      case Delete(i) => if i == id then [] else History(init, id)
      case _ => History(init, id)
  }

  /** How many failures the history ends with. */
  function FailureRun(history: seq<Sample>): nat {
    if history == [] || history[|history| - 1].probe.Success? then 0
    else 1 + FailureRun(history[..|history| - 1])
  }

  /** What the last success in the history said. */
  function LastLatency(history: seq<Sample>): Option<nat> {
    if history == [] then None
    else if history[|history| - 1].probe.Success? then history[|history| - 1].probe.latencyMs
    else LastLatency(history[..|history| - 1])
  }

  /** The state a history calls for: the level follows from the unbroken run of failures at its
      end and the thresholds the last of them was judged by. */
  ghost predicate Explains(history: seq<Sample>, st: ProviderState) {
    history != [] &&
    var n, last := FailureRun(history), history[|history| - 1];
    st.failures == n && st.latencyMs == LastLatency(history) &&
    (st.level.Removed? <==> n > 0 && n >= last.cfg.removeThreshold) &&
    (st.level.Degraded? <==> n > 0 && last.cfg.failThreshold <= n < last.cfg.removeThreshold) &&
    st.lastError == match last.probe { case Success(_) => None case Failure(reason) => Some(reason) }
  }

  /** Over every run, the state kept for a backend is the one its history calls for, and there is
      one exactly when there is a history. Replacing the backends changes none of it. */
  lemma {:induction false} StateExplained(events: seq<Event>, id: string)
    ensures id in Run(events).states <==> History(events, id) != []
    ensures id in Run(events).states ==> Explains(History(events, id), Run(events).states[id])
  {
    if events != [] {
      var init, last := events[..|events| - 1], events[|events| - 1];
      StateExplained(init, id);
      var before, after := History(init, id), History(events, id);
      if after != [] && after != before {
        assert after[..|after| - 1] == before;
      }
    }
  }

  /** One success puts a backend back, whatever came before. */
  lemma SuccessReadmits(events: seq<Event>, latency: Option<nat>)
    ensures
      var s := Run(events);
      var t := Run(events + [EndProbe(Success(latency))]);
      s.poll.Probing? && ConfigOf(s.configs, s.poll.id, s.poll.isExecutor).enabled ==>
        s.poll.id in t.states && t.states[s.poll.id].level == Good && t.states[s.poll.id].failures == 0
  {
    assert (events + [EndProbe(Success(latency))])[..|events|] == events;
  }

  /** A probe that outlives the deletion of its backend leaves a state behind for the deleted id
      exactly when polling is on by default for it, that is, for executor presets. */
  lemma LateProbe(events: seq<Event>, id: string, probe: Probe)
    requires Run(events).poll.Probing? && Run(events).poll.id == id
    ensures id in Run(events + [Delete(id)] + [EndProbe(probe)]).states <==> Run(events).poll.isExecutor
  {
    var deleted := events + [Delete(id)];
    assert deleted[..|events|] == events;
    assert (deleted + [EndProbe(probe)])[..|deleted|] == deleted;
  }
}
