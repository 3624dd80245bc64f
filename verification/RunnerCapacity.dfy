/** The capacity limits over every interleaving of every run's transactions. */
module RunnerCapacity {
  import opened Wrappers
  import opened Protocol
  import opened Runner
  import opened RunnerLifecycle
  import opened RunnerOutcomes

  predicate Occupies(state: RunState) {
    state == Starting || state == Running || state == Suspending
  }

  function Occupied(db: Db): set<Uuid> {
    set r | r in db.runs && Occupies(db.runs[r].state)
  }

  function OccupiedBy(db: Db, userId: Uuid): set<Uuid> {
    set r | r in db.runs && db.runs[r].binding.userId == userId && Occupies(db.runs[r].state)
  }

  ghost predicate WithinLimits(db: Db, limits: Limits) {
    |Occupied(db)| <= limits.globalRuns && forall userId :: |OccupiedBy(db, userId)| <= limits.perUserRuns
  }

  lemma SubsetSize<T>(small: set<T>, large: set<T>)
    requires small <= large
    ensures |small| <= |large|
  {
    assert large == small + (large - small);
  }

  /** No run begins to occupy capacity, and none changes its user. */
  ghost predicate NoNewcomer(db: Db, db': Db) {
    forall r | r in db'.runs && Occupies(db'.runs[r].state) ::
      r in db.runs && Occupies(db.runs[r].state) && db.runs[r].binding.userId == db'.runs[r].binding.userId
  }

  lemma NoNewcomerKeepsLimits(db: Db, db': Db, limits: Limits)
    requires WithinLimits(db, limits) && NoNewcomer(db, db')
    ensures WithinLimits(db', limits)
  {
    SubsetSize(Occupied(db'), Occupied(db));
    forall userId ensures |OccupiedBy(db', userId)| <= limits.perUserRuns {
      SubsetSize(OccupiedBy(db', userId), OccupiedBy(db, userId));
    }
  }

  /** The steps after which a run waits, is over or is about to be. */
  predicate IsEnding(step: Step) {
    step.AbortStart? || step.EndCancel? || step.EndSuspend?
  }

  lemma EndingBringsNoNewcomer(config: Config, db: Db, step: Step)
    requires IsEnding(step)
    ensures NoNewcomer(db, Apply(config, db, step))
  {
    hide Consume, Schedule, StartCommitted, HasCapacity, CancelEvents, LossEvents, HandleAttemptLoss, SuspendBegin,
      CancelBegin, SetAttemptState;
    AttemptStatesKeepRuns();
  }

  /** Only scheduling and the commit of a start let a run occupy capacity. */
  lemma OthersBringNoNewcomer(config: Config, db: Db, step: Step)
    requires !step.ScheduleRun? && !step.CommitStart?
    ensures NoNewcomer(db, Apply(config, db, step))
  {
    hide Consume, Schedule, StartCommitted, HasCapacity, StartFailed, CancelFinish, SuspendFinish, HandleAttemptLoss;
    if step.ConsumeEvent? {
      ConsumeFrame(db, step.event);
    } else if IsEnding(step) {
      EndingBringsNoNewcomer(config, db, step);
    } else if step.LoseAttempt? {
      LossFrame(db, step.lost, step.deadlinePassed, config.maxAttempts);
    }
  }

  /** One run that takes up capacity, for itself and its user. */
  lemma Newcomer(db: Db, db': Db, r: Uuid)
    requires r in db.runs && r in db'.runs && db'.runs == db.runs[r := db'.runs[r]]
    requires db'.runs[r].binding == db.runs[r].binding && !Occupies(db.runs[r].state) && Occupies(db'.runs[r].state)
    ensures var user := db.runs[r].binding.userId;
            && |Occupied(db')| == |Occupied(db)| + 1 && |OccupiedBy(db', user)| == |OccupiedBy(db, user)| + 1
            && forall userId | userId != user :: OccupiedBy(db', userId) == OccupiedBy(db, userId)
  {
    var user := db.runs[r].binding.userId;
    assert Occupied(db') == Occupied(db) + {r};
    assert OccupiedBy(db', user) == OccupiedBy(db, user) + {r};
    forall userId | userId != user ensures OccupiedBy(db', userId) == OccupiedBy(db, userId) {
    }
  }

  lemma ScheduleKeepsLimits(config: Config, db: Db, r: Uuid, a: Uuid, number: nat)
    requires WithinLimits(db, config.limits)
    ensures WithinLimits(Schedule(db, config.limits, r, a, number).0, config.limits)
  {
    var db' := Schedule(db, config.limits, r, a, number).0;
    if db' != db {
      var user := db.runs[r].binding.userId;
      SubsetSize(Occupied(db), GlobalActive(db));
      SubsetSize(OccupiedBy(db, user), UserActive(db, user));
      hide Occupied, OccupiedBy, GlobalActive, UserActive;
      Newcomer(db, db', r);
      forall userId ensures |OccupiedBy(db', userId)| <= config.limits.perUserRuns {
        if userId != user {
          assert OccupiedBy(db', userId) == OccupiedBy(db, userId);
        }
      }
    }
  }

  /** Whether the commit of a start finds its run where scheduling left it, or gone. */
  predicate StartsInTime(db: Db, r: Uuid, a: Uuid) {
    r in db.runs && db.runs[r].activeAttemptId == Some(a) ==> Occupies(db.runs[r].state)
  }

  lemma LateCommitOccupies(db: Db, r: Uuid, a: Uuid)
    requires !StartsInTime(db, r, a)
    ensures var db' := StartCommitted(db, r, a); var user := db.runs[r].binding.userId;
            && |Occupied(db')| == |Occupied(db)| + 1 && |OccupiedBy(db', user)| == |OccupiedBy(db, user)| + 1
            && forall userId | userId != user :: OccupiedBy(db', userId) == OccupiedBy(db, userId)
  {
    hide Occupied, OccupiedBy;
    Newcomer(db, StartCommitted(db, r, a), r);
  }

  /** Whether the commit of a start comes in time, or finds room for one more run. */
  predicate StartFits(db: Db, r: Uuid, a: Uuid, limits: Limits) {
    || StartsInTime(db, r, a)
    || (|Occupied(db)| < limits.globalRuns && |OccupiedBy(db, db.runs[r].binding.userId)| < limits.perUserRuns)
  }

  /** A commit on a run that is reconciling or cancelling takes capacity nobody has granted it. */
  lemma CommitKeepsLimitsIff(db: Db, r: Uuid, a: Uuid, limits: Limits)
    requires WithinLimits(db, limits)
    ensures WithinLimits(StartCommitted(db, r, a), limits) <==> StartFits(db, r, a, limits)
  {
    var db' := StartCommitted(db, r, a);
    if StartsInTime(db, r, a) {
      assert NoNewcomer(db, db');
      NoNewcomerKeepsLimits(db, db', limits);
    } else {
      LateCommitOccupies(db, r, a);
      hide Occupied, OccupiedBy, StartCommitted;
      forall userId ensures |OccupiedBy(db, userId)| <= limits.perUserRuns {
      }
    }
  }

  /** Whether a step is not a commit, or one that fits. */
  predicate StepFits(config: Config, db: Db, step: Step) {
    step.CommitStart? ==> StartFits(db, step.r, step.a, config.limits)
  }

  ghost predicate StartsAllFit(config: Config, db: Db, steps: seq<Step>)
    decreases |steps|
  {
    steps != [] ==>
      && (Enabled(db, steps[0]) ==> StepFits(config, db, steps[0]))
      && StartsAllFit(config, if Enabled(db, steps[0]) then Apply(config, db, steps[0]) else db, steps[1..])
  }

  /** The limits hold now and after every one of these steps. */
  ghost predicate AlwaysWithinLimits(config: Config, db: Db, steps: seq<Step>)
    decreases |steps|
  {
    && WithinLimits(db, config.limits)
    && (steps != [] ==>
          AlwaysWithinLimits(config, if Enabled(db, steps[0]) then Apply(config, db, steps[0]) else db, steps[1..]))
  }

  lemma StepKeepsLimitsIff(config: Config, db: Db, step: Step)
    requires WithinLimits(db, config.limits) && Enabled(db, step)
    ensures WithinLimits(Apply(config, db, step), config.limits) <==> StepFits(config, db, step)
  {
    hide WithinLimits, Schedule, StartCommitted, Consume, StartFits;
    match step {
      case ScheduleRun(r, a, number) => ScheduleKeepsLimits(config, db, r, a, number);
      case CommitStart(r, a) => CommitKeepsLimitsIff(db, r, a, config.limits);
      case _ =>
        OthersBringNoNewcomer(config, db, step);
        NoNewcomerKeepsLimits(db, Apply(config, db, step), config.limits);
    }
  }

  lemma {:induction false} RunKeepsLimitsIff(config: Config, db: Db, steps: seq<Step>)
    requires WithinLimits(db, config.limits)
    ensures AlwaysWithinLimits(config, db, steps) <==> StartsAllFit(config, db, steps)
    decreases |steps|
  {
    hide WithinLimits, Apply, Enabled, StepFits;
    if steps != [] {
      var next := if Enabled(db, steps[0]) then Apply(config, db, steps[0]) else db;
      if Enabled(db, steps[0]) {
        StepKeepsLimitsIff(config, db, steps[0]);
      }
      if WithinLimits(next, config.limits) {
        RunKeepsLimitsIff(config, next, steps[1..]);
      }
    }
  }

  /**
   The runs that are starting, running or suspending never exceed the global limit, nor any user's
   the per-user limit, whatever schedules, suspensions, losses, proposals and cancels interleave, if
   and only if every start commits before its run is reconciled or cancelled or finds room for it.
   */
  lemma CapacityIsRespected(config: Config, steps: seq<Step>)
    ensures AlwaysWithinLimits(config, EMPTY, steps) <==> StartsAllFit(config, EMPTY, steps)
  {
    assert Occupied(EMPTY) == {};
    assert forall userId :: OccupiedBy(EMPTY, userId) == {};
    RunKeepsLimitsIff(config, EMPTY, steps);
  }

  /** Steps after which they are exceeded: a run that proposes before its start has committed is counted too late. */
  lemma LateStartExceedsLimits() returns (steps: seq<Step>)
    ensures |Occupied(Run(ONE_RUN, EMPTY, steps))| == 2 > ONE_RUN.limits.globalRuns
  {
    var s5, s6 := ScheduleRun(2, 20, 1), CommitStart(1, 10);
    var early, d4 := EarlyRun([s5] + ([s6] + []));
    steps := early + ([s5] + ([s6] + []));
    hide Consume, Schedule, IsNextNumber;
    SecondRun(d4);
    TakeStep(ONE_RUN, d4, s5, [s6] + []);
    var d5 := Apply(ONE_RUN, d4, s5);
    TakeStep(ONE_RUN, d5, s6, []);
    var d6 := Apply(ONE_RUN, d5, s6);
    assert d6.runs[1].state == Running && d6.runs[2].state == Starting && d6.runs.Keys == {1, 2};
    assert Occupied(d6) == {1, 2};
  }

  /** A run that proposes before its start has committed, and a second run of another user. */
  lemma EarlyRun(rest: seq<Step>) returns (steps: seq<Step>, db: Db)
    ensures Run(ONE_RUN, EMPTY, steps + rest) == Run(ONE_RUN, db, rest)
    ensures db.runs == map[1 := RunRow(FIRST_USER, CompletionReconciling, Some(10), 1, None),
             2 := RunRow(SECOND_USER, Accepted, None, 0, None)]
    ensures db.attempts == map[10 := FIRST_ATTEMPT]
  {
    hide Consume;
    var proposal := RunEvent(90, 1, FIRST_USER, ResultProposal(10, 1, [5], None, [Messages]));
    var s3, s4 := ConsumeEvent(proposal), AdmitRun(2, SECOND_USER);
    var start, d2 := FirstAttempt([s3] + ([s4] + rest));
    steps := start + [s3, s4];
    assert steps + rest == start + ([s3] + ([s4] + rest));
    TakeStep(ONE_RUN, d2, s3, [s4] + rest);
    EarlyProposal(d2, proposal);
    var d3 := Apply(ONE_RUN, d2, s3);
    TakeStep(ONE_RUN, d3, s4, rest);
    db := Apply(ONE_RUN, d3, s4);
  }

  lemma EarlyProposal(db: Db, event: RunEvent)
    requires db.runs == map[1 := RunRow(FIRST_USER, Starting, Some(10), 1, None)] && db.inbox == {}
    requires db.completions == map[] && db.messagesPayload == map[] && db.checkpointPayload == map[]
    requires event == RunEvent(90, 1, FIRST_USER, ResultProposal(10, 1, [5], None, [Messages]))
    ensures var db' := Consume(db, event).0;
            && db'.runs == map[1 := RunRow(FIRST_USER, CompletionReconciling, Some(10), 1, None)]
            && db'.attempts == db.attempts
  {
    DedupMembers([Messages]);
  }

  lemma SecondRun(db: Db)
    requires db.runs == map[1 := RunRow(FIRST_USER, CompletionReconciling, Some(10), 1, None),
             2 := RunRow(SECOND_USER, Accepted, None, 0, None)]
    requires db.attempts == map[10 := FIRST_ATTEMPT]
    ensures IsNextNumber(db, 2, 1)
    ensures var db' := Schedule(db, ONE_RUN.limits, 2, 20, 1).0;
            && db'.runs == db.runs[2 := RunRow(SECOND_USER, Starting, Some(20), 1, None)]
            && db'.attempts.Keys == {10, 20} && db'.attempts[10] == FIRST_ATTEMPT
  {
    assert GlobalActive(db) == {} && UserActive(db, SECOND_USER.userId) == {};
  }
}
