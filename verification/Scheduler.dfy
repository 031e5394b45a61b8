/** internal/compactor/scheduler.go: when automatic compaction fires. The source keeps two counters
    since the last compaction; `turnsSinceLastFire` is reset differently on failure. */
module Scheduler {
  import opened Canonical

  datatype ScheduleConfig = ScheduleConfig(
    triggerTurns: int,
    budgetPressureRatio: real,
    minEvents: int,
    cooldownTurns: int)

  datatype Reason = NoReason | TurnCount | BudgetPressure

  /** The counters of a scheduler. */
  datatype Counters = Counters(
    totalTurns: nat,
    turnsSinceCompact: nat,
    turnsSinceLastFire: int,
    eventCount: int,
    lastBudgetRatio: real,
    totalFirings: nat,
    totalSuppressed: nat)

  const INITIAL := Counters(0, 0, 0, 0, 0.0, 0, 0)

  function TurnRecorded(c: Counters): Counters {
    c.(totalTurns := c.totalTurns + 1,
       turnsSinceCompact := c.turnsSinceCompact + 1,
       turnsSinceLastFire := c.turnsSinceLastFire + 1)
  }

  predicate TooFew(cfg: ScheduleConfig, c: Counters) {
    c.eventCount < cfg.minEvents
  }

  predicate CoolingDown(cfg: ScheduleConfig, c: Counters) {
    c.totalFirings > 0 && cfg.cooldownTurns > 0 && c.turnsSinceLastFire < cfg.cooldownTurns
  }

  function Decision(cfg: ScheduleConfig, c: Counters): Reason {
    if TooFew(cfg, c) || CoolingDown(cfg, c) then NoReason
    else if cfg.triggerTurns > 0 && c.turnsSinceCompact >= cfg.triggerTurns then TurnCount
    else if cfg.budgetPressureRatio > 0.0 && c.lastBudgetRatio >= cfg.budgetPressureRatio then BudgetPressure
    else NoReason
  }

  /** ShouldCompact also counts the checks that the cooldown suppressed. */
  function Checked(cfg: ScheduleConfig, c: Counters): Counters {
    if !TooFew(cfg, c) && CoolingDown(cfg, c) then c.(totalSuppressed := c.totalSuppressed + 1) else c
  }

  function Compacted(c: Counters): Counters {
    c.(turnsSinceCompact := 0, turnsSinceLastFire := 0, totalFirings := c.totalFirings + 1)
  }

  function CompactionFailed(cfg: ScheduleConfig, c: Counters): Counters {
    c.(turnsSinceLastFire := cfg.cooldownTurns)
  }

  class CompactionScheduler {
    const cfg: ScheduleConfig
    var totalTurns: nat
    var turnsSinceCompact: nat
    var turnsSinceLastFire: int
    var eventCount: int
    var lastBudgetRatio: real
    var totalFirings: nat
    var totalSuppressed: nat

    function State(): Counters
      reads this
    {
      Counters(totalTurns, turnsSinceCompact, turnsSinceLastFire, eventCount, lastBudgetRatio,
               totalFirings, totalSuppressed)
    }

    constructor (config: ScheduleConfig)
      ensures cfg == (if config.minEvents <= 0 then config.(minEvents := 20) else config)
      ensures State() == INITIAL
    {
      cfg := if config.minEvents <= 0 then config.(minEvents := 20) else config;
      totalTurns, turnsSinceCompact, turnsSinceLastFire := 0, 0, 0;
      eventCount, lastBudgetRatio, totalFirings, totalSuppressed := 0, 0.0, 0, 0;
    }

    method RecordTurn()
      modifies this
      ensures State() == TurnRecorded(old(State()))
    {
      totalTurns := totalTurns + 1;
      turnsSinceCompact := turnsSinceCompact + 1;
      turnsSinceLastFire := turnsSinceLastFire + 1;
    }

    method RecordBudgetPressure(ratio: real)
      modifies this
      ensures State() == old(State()).(lastBudgetRatio := ratio)
    {
      lastBudgetRatio := ratio;
    }

    method SetEventCount(n: int)
      modifies this
      ensures State() == old(State()).(eventCount := n)
    {
      eventCount := n;
    }

    method ShouldCompact() returns (should: bool, reason: Reason)
      modifies this
      ensures State() == Checked(cfg, old(State()))
      ensures reason == Decision(cfg, old(State())) && should == !reason.NoReason?
      ensures totalSuppressed > old(totalSuppressed) <==>
        old(eventCount >= cfg.minEvents && totalFirings > 0 && turnsSinceLastFire < cfg.cooldownTurns)
        && cfg.cooldownTurns > 0
    {
      if eventCount < cfg.minEvents {
        return false, NoReason;
      }
      if totalFirings > 0 && cfg.cooldownTurns > 0 && turnsSinceLastFire < cfg.cooldownTurns {
        totalSuppressed := totalSuppressed + 1;
        return false, NoReason;
      }
      if cfg.triggerTurns > 0 && turnsSinceCompact >= cfg.triggerTurns {
        return true, TurnCount;
      }
      if cfg.budgetPressureRatio > 0.0 && lastBudgetRatio >= cfg.budgetPressureRatio {
        return true, BudgetPressure;
      }
      return false, NoReason;
    }

    method MarkCompacted()
      modifies this
      ensures State() == Compacted(old(State()))
    {
      turnsSinceCompact := 0;
      turnsSinceLastFire := 0;
      totalFirings := totalFirings + 1;
    }

    method MarkCompactionFailed()
      modifies this
      ensures State() == CompactionFailed(cfg, old(State()))
    {
      turnsSinceLastFire := cfg.cooldownTurns;
    }

    /** recordTurnAndMaybeCompact: what the session does after each completed turn. `events` is the
        branch's event count, absent when listing it failed; `outcome` is how the pass ended. */
    method CompletedTurn(events: Option<nat>, outcome: Outcome) returns (fired: bool)
      modifies this
      ensures State() == AfterTurn(cfg, old(State()), events, outcome)
      ensures fired == Fires(cfg, old(State()), events, outcome)
    {
      RecordTurn();
      if events.Some? {
        SetEventCount(events.value);
      }
      var should, reason := ShouldCompact();
      if !should {
        return false;
      }
      match outcome {
        case Aborted => fired := false;
        case Failed =>
          MarkCompactionFailed();
          fired := false;
        case Succeeded =>
          MarkCompacted();
          fired := true;
      }
    }
  }

  // ----- Whole runs of the session's protocol -----

  /** How a started compaction pass ends: its request event could not be written, the compactor
      failed, or it succeeded. */
  datatype Outcome = Aborted | Failed | Succeeded

  /** One user turn: the budget ratios that its packets reported, and what follows it. */
  datatype Turn = Turn(ratios: seq<real>, completed: bool, events: Option<nat>, outcome: Outcome)

  function AtCheck(c: Counters, events: Option<nat>): Counters {
    var recorded := TurnRecorded(c);
    if events.Some? then recorded.(eventCount := events.value) else recorded
  }

  predicate Fires(cfg: ScheduleConfig, c: Counters, events: Option<nat>, outcome: Outcome) {
    !Decision(cfg, AtCheck(c, events)).NoReason? && outcome == Succeeded
  }

  function AfterTurn(cfg: ScheduleConfig, c: Counters, events: Option<nat>, outcome: Outcome): Counters {
    var atCheck := AtCheck(c, events);
    var checked := Checked(cfg, atCheck);
    if Decision(cfg, atCheck).NoReason? then checked
    else match outcome
      case Aborted => checked
      case Failed => CompactionFailed(cfg, checked)
      case Succeeded => Compacted(checked)
  }

  function Pressured(c: Counters, ratios: seq<real>): Counters {
    if ratios == [] then c else c.(lastBudgetRatio := ratios[|ratios| - 1])
  }

  /** A run: the counters at its end, and the turn numbers of its successful compactions. A turn
      that ends in an error reports its budget ratios but is not recorded. */
  datatype Run = Run(counters: Counters, fires: seq<nat>)

  function RunTurn(cfg: ScheduleConfig, run: Run, turn: Turn): Run {
    var c := Pressured(run.counters, turn.ratios);
    if !turn.completed then run.(counters := c)
    else
      var after := AfterTurn(cfg, c, turn.events, turn.outcome);
      Run(after, if Fires(cfg, c, turn.events, turn.outcome) then run.fires + [after.totalTurns] else run.fires)
  }

  function RunTurns(cfg: ScheduleConfig, turns: seq<Turn>): Run {
    if turns == [] then Run(INITIAL, [])
    else RunTurn(cfg, RunTurns(cfg, turns[..|turns| - 1]), turns[|turns| - 1])
  }

  function Min(a: int, b: int): int {
    if a <= b then a else b
  }

  /** The successes so far are spaced, and counted; `turnsSinceLastFire` never claims more turns
      than have passed since the last success, and loses none that the cooldown still needs. */
  ghost predicate RunOk(cfg: ScheduleConfig, run: Run) {
    var c := run.counters;
    && |run.fires| == c.totalFirings
    && (c.totalFirings > 0 ==> c.turnsSinceLastFire <= c.turnsSinceCompact)
    && (c.totalFirings > 0 ==> c.turnsSinceLastFire >= Min(c.turnsSinceCompact, cfg.cooldownTurns))
    && (c.totalFirings == 0 ==> c.turnsSinceCompact == c.totalTurns)
    && (c.totalFirings > 0 ==> run.fires[c.totalFirings - 1] + c.turnsSinceCompact == c.totalTurns)
    && (forall i | 0 < i < |run.fires| :: run.fires[i] - run.fires[i - 1] >= cfg.cooldownTurns)
  }

  lemma {:induction false} TurnKeepsRunOk(cfg: ScheduleConfig, run: Run, turn: Turn)
    requires RunOk(cfg, run)
    ensures RunOk(cfg, RunTurn(cfg, run, turn))
  {
    var c := Pressured(run.counters, turn.ratios);
    assert c == run.counters.(lastBudgetRatio := c.lastBudgetRatio);
    hide Decision;
  }

  lemma {:induction false} RunsAreOk(cfg: ScheduleConfig, turns: seq<Turn>)
    ensures RunOk(cfg, RunTurns(cfg, turns))
    decreases |turns|
  {
    hide RunOk, RunTurn;
    if turns == [] {
      InitialRunOk(cfg);
    } else {
      RunsAreOk(cfg, turns[..|turns| - 1]);
      TurnKeepsRunOk(cfg, RunTurns(cfg, turns[..|turns| - 1]), turns[|turns| - 1]);
    }
  }

  lemma InitialRunOk(cfg: ScheduleConfig)
    ensures RunOk(cfg, Run(INITIAL, []))
  {
  }

  /** Over any run, failures included, successful compactions are at least the cooldown apart. */
  lemma {:induction false} FiringsAreSpaced(cfg: ScheduleConfig, turns: seq<Turn>, i: nat, j: nat)
    requires i < j < |RunTurns(cfg, turns).fires|
    ensures RunTurns(cfg, turns).fires[j] - RunTurns(cfg, turns).fires[i] >= (j - i) * cfg.cooldownTurns
    decreases j
  {
    RunsAreOk(cfg, turns);
    if i + 1 < j {
      FiringsAreSpaced(cfg, turns, i, j - 1);
      assert (j - 1 - i) * cfg.cooldownTurns + cfg.cooldownTurns == (j - i) * cfg.cooldownTurns;
    }
  }

  /** Hence the number of firings is bounded by the number of turns. */
  lemma {:induction false} FiringsBounded(cfg: ScheduleConfig, turns: seq<Turn>)
    ensures var c := RunTurns(cfg, turns).counters;
            c.totalFirings > 0 ==> (c.totalFirings - 1) * cfg.cooldownTurns <= c.totalTurns
  {
    RunsAreOk(cfg, turns);
    var run := RunTurns(cfg, turns);
    if run.counters.totalFirings > 1 {
      FiringsAreSpaced(cfg, turns, 0, run.counters.totalFirings - 1);
    }
  }

  /** The decision as it should read: in terms of turns since the last success only. */
  predicate ShouldFire(cfg: ScheduleConfig, c: Counters) {
    && c.eventCount >= cfg.minEvents
    && (c.totalFirings > 0 ==> c.turnsSinceCompact >= cfg.cooldownTurns)
    && (|| (cfg.triggerTurns > 0 && c.turnsSinceCompact >= cfg.triggerTurns)
        || (cfg.budgetPressureRatio > 0.0 && c.lastBudgetRatio >= cfg.budgetPressureRatio))
  }

  /** In every reachable state, just before a check, the scheduler decides as `ShouldFire` says:
      the second counter and its reset on failure change nothing. */
  lemma {:induction false} DecisionExact(cfg: ScheduleConfig, turns: seq<Turn>, ratios: seq<real>, events: Option<nat>)
    ensures var c := AtCheck(Pressured(RunTurns(cfg, turns).counters, ratios), events);
            !Decision(cfg, c).NoReason? <==> ShouldFire(cfg, c)
  {
    RunsAreOk(cfg, turns);
  }

  /** Exactly which checks count as suppressed, in terms of turns since the last success only: those with
      enough events before the cooldown is over. A suppressed check does not fire. */
  lemma {:induction false} SuppressedExact(cfg: ScheduleConfig, turns: seq<Turn>, ratios: seq<real>,
                                           events: Option<nat>)
    ensures var c := AtCheck(Pressured(RunTurns(cfg, turns).counters, ratios), events);
      && Checked(cfg, c) == c.(totalSuppressed := Checked(cfg, c).totalSuppressed)
      && (Checked(cfg, c).totalSuppressed == c.totalSuppressed
          || (Checked(cfg, c).totalSuppressed == c.totalSuppressed + 1 && Decision(cfg, c).NoReason?))
      && (Checked(cfg, c).totalSuppressed > c.totalSuppressed <==>
            c.eventCount >= cfg.minEvents && c.totalFirings > 0 && c.turnsSinceCompact < cfg.cooldownTurns)
  {
    RunsAreOk(cfg, turns);
  }

  /** With enough events, a turn whose pass succeeds fires as soon as the turns since the last
      success reach both the trigger and the cooldown, however many passes failed meanwhile. */
  lemma {:induction false} FiresWhenDue(cfg: ScheduleConfig, turns: seq<Turn>, turn: Turn)
    requires turn.completed && turn.outcome == Succeeded && turn.events.Some? && turn.events.value >= cfg.minEvents
    requires cfg.triggerTurns > 0
    requires var c := RunTurns(cfg, turns).counters;
             c.turnsSinceCompact + 1 >= cfg.triggerTurns && c.turnsSinceCompact + 1 >= cfg.cooldownTurns
    ensures RunTurns(cfg, turns + [turn]).counters.totalFirings == RunTurns(cfg, turns).counters.totalFirings + 1
    ensures RunTurns(cfg, turns + [turn]).counters.turnsSinceCompact == 0
  {
    assert (turns + [turn])[..|turns|] == turns;
    DecisionExact(cfg, turns, turn.ratios, turn.events);
  }
}
