/**
 A concrete history after which executing a plan again never finishes its run,
 although the only crashes happened inside `Execute`. It uses plans without
 operations over projections without resources.
 */
module JournalCounterexample {
  import opened Wrappers
  import opened Catalog
  import opened Replaying
  import opened Journal
  import opened JournalSafety
  import opened JournalGuards
  import opened JournalPublication
  import opened JournalRecovery
  import opened JournalCases

  // Plans without operations.

  /** Any source snapshot without documents will do. */
  type Source = s: Snapshot | s.version > 0 && s.documentCount == 0 witness Snapshot(Scope(0, 0), 1, 0, 0, 0)

  function First(s: Source): Projection {
    Projection(s.scope, 1, s, StatePublished, map[], {}, map[])
  }

  function EmptyPlan(s: Source, run: RunID, base: Version, version: Version): Plan {
    Plan(SyncRun(run, s.scope, s, base, version, 0, RunStaged), [])
  }

  predicate Bare(s: Source, p: Projection) {
    p.version > 0 && p.scope == s.scope && p.snapshot == s && p.resources.Keys == {}
  }

  predicate Follows(s: Source, plan: Plan, current: Projection) {
    && plan == EmptyPlan(s, plan.run.id, current.version, plan.run.version)
    && plan.run.version > 0 && plan.run.version != current.version
    && Bare(s, current) && current.state.StatePublished?
    && plan !in current.applied
  }

  /** What a plan without operations publishes. */
  function Advanced(s: Source, current: Projection, plan: Plan): (p: Projection)
    requires Follows(s, plan, current)
    ensures Bare(s, p) && p.state.StatePublished?
    ensures p.version == plan.run.version && p.applied == current.applied + {plan}
  {
    Reduced(plan, current, map[])
  }

  lemma BareValid(s: Source, p: Projection)
    requires Bare(s, p)
    ensures ValidProjection(p)
  {
    assert CountedDocuments(p.resources) == {};
  }

  lemma EmptyReplay(s: Source, plan: Plan, current: Projection)
    requires Follows(s, plan, current)
    ensures Replay(plan, current, []) == Ok((Advanced(s, current, plan), Report(RunSucceeded, false, {})))
  {
    BareValid(s, current);
    BareValid(s, Advanced(s, current, plan));
    assert CompleteResults(plan, []);
    assert (set op | op in plan.operations) == {};
    assert Live(current) == {};
  }

  lemma NoReceiptsNeeded(d: Disk, plan: Plan)
    requires plan.operations == []
    ensures Complete(d, plan) && ResultsOf(d, plan) == []
    ensures StaleReceipts(d, plan, plan.operations) == []
    ensures Attempts(d, plan, plan.operations, AnyReceiptFailed(d, plan), map[]) == []
  {
  }

  /** The plan is on record with a run in this state, and reconciling finds nothing to do. */
  predicate Ready(d: Disk, plan: Plan, current: Projection, state: RunState) {
    && plan.run.id in d.plans && d.plans[plan.run.id] == plan
    && plan.run.id in d.runs && d.runs[plan.run.id] == plan.run.(state := state)
    && !state.IsTerminal()
    && d.pointer.Some?
    && Reconcile(d, d.pointer.value) == Returns(())
    && VerifiesBase(d, plan, current)
  }

  lemma FinalizeServes(s: Source, d: Disk, plan: Plan, current: Projection)
    requires Follows(s, plan, current) && Ready(d, plan, current, RunRunning)
    requires MatchesBase(d.pointer.value, plan, current)
    ensures Finalize(d, plan, current).actions
         == PublishCandidate(d, plan, Advanced(s, current, plan), plan.run.(state := RunRunning)).actions
  {
    hide Reduced;
    EmptyReplay(s, plan, current);
    NoReceiptsNeeded(d, plan);
    var served := FinalizeServing(d, plan, current, d.pointer.value, d.runs[plan.run.id]);
    assert FinalizeReconciled(d, plan, current, d.pointer.value) == served;
    assert [] + served.actions == served.actions;
    assert FinalizeStaged(d, plan, current).actions == served.actions;
    assert StagePlan(d, plan).actions == [];
  }

  lemma RunsAndServes(s: Source, e: Disk, plan: Plan, current: Projection, state: RunState)
    requires Follows(s, plan, current) && Ready(e, plan, current, state)
    requires MatchesBase(e.pointer.value, plan, current)
    requires Ready(Apply(e, PutRun(plan.run.(state := RunRunning))), plan, current, RunRunning)
    ensures var running := PutRun(plan.run.(state := RunRunning));
            ExecuteReconciled(e, plan, current, e.pointer.value, map[]).actions
            == [running] + PublishCandidate(Apply(e, running), plan, Advanced(s, current, plan), running.run).actions
  {
    hide Reduced, Advanced, Reconcile, PublishCandidate, Finalize, StagePlan;
    var running := PutRun(plan.run.(state := RunRunning));
    EmptyReplay(s, plan, current);
    NoReceiptsNeeded(e, plan);
    assert Run(e, [running]) == Apply(e, running);
    FinalizeServes(s, Apply(e, running), plan, current);
    assert [running] + [] == [running];
    var served := ExecuteServing(e, plan, current, map[]);
    assert served.actions == [running] + Finalize(Apply(e, running), plan, current).actions;
    assert ExecuteReconciled(e, plan, current, e.pointer.value, map[]) == served;
  }

  lemma ExecuteServes(s: Source, d: Disk, e: Disk, plan: Plan, current: Projection, state: RunState)
    requires StagePlan(d, plan).result.Ok? && e == Run(d, StagePlan(d, plan).actions)
    requires Follows(s, plan, current) && Ready(e, plan, current, state)
    requires MatchesBase(e.pointer.value, plan, current)
    requires Ready(Apply(e, PutRun(plan.run.(state := RunRunning))), plan, current, RunRunning)
    ensures var running := PutRun(plan.run.(state := RunRunning));
            Execute(d, plan, current, map[]).actions
            == StagePlan(d, plan).actions + [running]
               + PublishCandidate(Apply(e, running), plan, Advanced(s, current, plan), running.run).actions
  {
    hide Reduced, Advanced, Reconcile, PublishCandidate, ExecuteReconciled, StagePlan, ValidProjection;
    RunsAndServes(s, e, plan, current, state);
    BareValid(s, current);
    var served := ExecuteReconciled(e, plan, current, e.pointer.value, map[]);
    assert Run(e, []) == e;
    assert [] + served.actions == served.actions;
  }

  lemma ExecuteGoesStale(s: Source, d: Disk, e: Disk, plan: Plan, current: Projection, state: RunState)
    requires StagePlan(d, plan).result.Ok? && e == Run(d, StagePlan(d, plan).actions)
    requires Follows(s, plan, current) && Ready(e, plan, current, state)
    requires !MatchesBase(e.pointer.value, plan, current) && e.pointer.value.owner.None?
    ensures Execute(d, plan, current, map[]).actions
         == StagePlan(d, plan).actions
            + Conclude(e, plan, Demoted(Advanced(s, current, plan)), plan.run.(state := RunFailed)).actions
  {
    hide Reduced;
    EmptyReplay(s, plan, current);
    NoReceiptsNeeded(e, plan);
    BareValid(s, Demoted(Advanced(s, current, plan)));
    var failed := FailStale(e, plan, current, e.pointer.value);
    var concluded := Conclude(e, plan, Demoted(Advanced(s, current, plan)), plan.run.(state := RunFailed));
    assert StaleVerdict(plan, current, []) == Ok(Demoted(Advanced(s, current, plan)));
    assert [] + concluded.actions == concluded.actions;
    assert failed.actions == concluded.actions;
    assert ExecuteReconciled(e, plan, current, e.pointer.value, map[]) == failed;
    assert [] + failed.actions == failed.actions;
  }

  // The history: plan P is built on the candidate of plan Q before Q serves.

  function Q(s: Source): Plan {
    EmptyPlan(s, 1, 1, 2)
  }
  function P(s: Source): Plan {
    EmptyPlan(s, 2, 2, 3)
  }

  function Second(s: Source): Projection {
    Advanced(s, First(s), Q(s))
  }

  function Third(s: Source): Projection {
    Advanced(s, Second(s), P(s))
  }

  function Initialized(s: Source): Disk {
    Disk(map[], map[], map[], map[], map[1 := First(s)], Some(Named(First(s), None)))
  }

  /** Q was cut after persisting its candidate. */
  function Interrupted(s: Source, second: Projection): Disk {
    Disk(map[1 := Q(s)], map[1 := Q(s).run.(state := RunRunning)], map[], map[],
         map[1 := First(s), 2 := second], Some(Named(First(s), None)))
  }

  /** P went stale and was cut after persisting its verdict. */
  function Judged(s: Source, second: Projection, third: Projection): Disk {
    Disk(map[1 := Q(s), 2 := P(s)], map[1 := Q(s).run.(state := RunRunning), 2 := P(s).run], map[],
         map[2 := Demoted(third)],
         map[1 := First(s), 2 := second], Some(Named(First(s), None)))
  }

  /** Q was executed again and now serves. */
  function Resumed(s: Source, second: Projection, third: Projection): Disk {
    Disk(map[1 := Q(s), 2 := P(s)], map[1 := Q(s).run.(state := RunSucceeded), 2 := P(s).run], map[],
         map[1 := second, 2 := Demoted(third)],
         map[1 := First(s), 2 := second], Some(Named(second, Some(Owner(1, Q(s))))))
  }

  function History(s: Source): seq<Event> {
    [Event(CallInitialize(First(s)), 2),
     Event(CallExecute(Q(s), First(s), map[]), 4),
     Event(CallExecute(P(s), Second(s), map[]), 3),
     Event(CallExecute(Q(s), First(s), map[]), 4)]
  }

  lemma RunTwo(d: Disk, a: Action, b: Action)
    ensures Run(d, [a, b]) == Apply(Apply(d, a), b)
  {
    assert [a, b] == [a] + [b];
    RunAppend(d, [a], [b]);
  }

  lemma RunFour(d: Disk, a: Action, b: Action, c: Action, e: Action)
    ensures Run(d, [a, b, c, e]) == Apply(Apply(Apply(Apply(d, a), b), c), e)
  {
    assert [a, b, c, e][1..] == [b, c, e];
    assert [b, c, e][1..] == [c, e];
    RunTwo(Apply(Apply(d, a), b), c, e);
  }

  lemma Initializes(s: Source)
    ensures Run(EmptyDisk, Performed(EmptyDisk, Event(CallInitialize(First(s)), 2))) == Initialized(s)
  {
    BareValid(s, First(s));
    RunTwo(EmptyDisk, PutProjection(First(s)), PutPointer(Named(First(s), None)));
    assert InitializeServing(EmptyDisk, First(s)).actions
        == [PutProjection(First(s)), PutPointer(Named(First(s), None))];
  }

  function Running(s: Source): Action {
    PutRun(Q(s).run.(state := RunRunning))
  }

  lemma InterruptRuns(s: Source, second: Projection)
    requires second.version == 2
    ensures Run(Initialized(s), [PutPlan(Q(s)), PutRun(Q(s).run), Running(s), PutProjection(second)])
         == Interrupted(s, second)
  {
    RunFour(Initialized(s), PutPlan(Q(s)), PutRun(Q(s).run), Running(s), PutProjection(second));
  }

  lemma InterruptActions(s: Source)
    ensures Performed(Initialized(s), Event(CallExecute(Q(s), First(s), map[]), 4))
         == [PutPlan(Q(s)), PutRun(Q(s).run), Running(s), PutProjection(Second(s))]
  {
    hide Reduced, Execute, Replay, Demoted, Advanced, ValidProjection;
    var e := Initialized(s).(plans := map[1 := Q(s)], runs := map[1 := Q(s).run]);
    assert StagePlan(Initialized(s), Q(s)).actions == [PutPlan(Q(s)), PutRun(Q(s).run)];
    RunTwo(Initialized(s), PutPlan(Q(s)), PutRun(Q(s).run));
    ExecuteServes(s, Initialized(s), e, Q(s), First(s), RunStaged);
    var published := PublishCandidate(Apply(e, Running(s)), Q(s), Second(s), Running(s).run).actions;
    assert published[0] == PutProjection(Second(s));
    assert Execute(Initialized(s), Q(s), First(s), map[]).actions
        == [PutPlan(Q(s)), PutRun(Q(s).run), Running(s)] + published;
  }

  lemma JudgeRuns(s: Source, second: Projection, third: Projection)
    ensures Run(Interrupted(s, second), [PutPlan(P(s)), PutRun(P(s).run), PutVerdict(2, Demoted(third))])
         == Judged(s, second, third)
  {
    var d := Interrupted(s, second);
    RunAppend(d, [PutPlan(P(s)), PutRun(P(s).run)], [PutVerdict(2, Demoted(third))]);
    RunTwo(d, PutPlan(P(s)), PutRun(P(s).run));
    assert [PutPlan(P(s)), PutRun(P(s).run)] + [PutVerdict(2, Demoted(third))]
        == [PutPlan(P(s)), PutRun(P(s).run), PutVerdict(2, Demoted(third))];
  }

  lemma DemotedKeeps(p: Projection)
    ensures Demoted(p).version == p.version && Demoted(p).scope == p.scope && Demoted(p).state.StateFailed?
  {
  }

  lemma JudgeActions(s: Source)
    ensures Performed(Interrupted(s, Second(s)), Event(CallExecute(P(s), Second(s), map[]), 3))
         == [PutPlan(P(s)), PutRun(P(s).run), PutVerdict(2, Demoted(Third(s)))]
  {
    hide Reduced, Execute, Replay, Demoted, Advanced, ValidProjection;
    var d := Interrupted(s, Second(s));
    var e := d.(plans := map[1 := Q(s), 2 := P(s)], runs := map[1 := Q(s).run.(state := RunRunning), 2 := P(s).run]);
    assert StagePlan(d, P(s)).actions == [PutPlan(P(s)), PutRun(P(s).run)];
    RunTwo(d, PutPlan(P(s)), PutRun(P(s).run));
    ExecuteGoesStale(s, d, e, P(s), Second(s), RunStaged);
    DemotedKeeps(Third(s));
    var concluded := Conclude(e, P(s), Demoted(Third(s)), P(s).run.(state := RunFailed)).actions;
    assert concluded[0] == PutVerdict(2, Demoted(Third(s)));
    assert Execute(d, P(s), Second(s), map[]).actions == [PutPlan(P(s)), PutRun(P(s).run)] + concluded;
  }

  function Done(s: Source): Action {
    PutRun(Q(s).run.(state := RunSucceeded))
  }

  lemma ResumeRuns(s: Source, second: Projection, third: Projection)
    requires second.version == 2
    ensures Run(Judged(s, second, third),
                [Running(s), PutPointer(Named(second, Some(Owner(1, Q(s))))), PutVerdict(1, second), Done(s)])
         == Resumed(s, second, third)
  {
    RunFour(
      Judged(s, second, third),
      Running(s), PutPointer(Named(second, Some(Owner(1, Q(s))))), PutVerdict(1, second), Done(s));
  }

  lemma ResumePublishes(s: Source, second: Projection, third: Projection)
    requires second.version == 2 && second.scope == s.scope
    ensures var d := Judged(s, second, third);
            && Apply(d, Running(s)) == d
            && PublishCandidate(d, Q(s), second, Running(s).run).actions
               == [PutPointer(Named(second, Some(Owner(1, Q(s))))), PutVerdict(1, second), Done(s)]
  {
    hide Demoted;
    var d := Judged(s, second, third);
    assert Apply(d, Running(s)).runs == d.runs;
    var moved := PutPointer(Named(second, Some(Owner(1, Q(s)))));
    assert [] + [moved] == [moved];
    assert Run(d, [moved]) == Apply(d, moved);
    assert Conclude(Apply(d, moved), Q(s), second, Done(s).run).actions == [PutVerdict(1, second), Done(s)];
  }

  lemma ResumeActions(s: Source)
    ensures Performed(Judged(s, Second(s), Third(s)), Event(CallExecute(Q(s), First(s), map[]), 4))
         == [Running(s), PutPointer(Named(Second(s), Some(Owner(1, Q(s))))), PutVerdict(1, Second(s)), Done(s)]
  {
    hide Reduced, Execute, Replay, Demoted, Advanced, ValidProjection, PublishCandidate;
    var d := Judged(s, Second(s), Third(s));
    assert StagePlan(d, Q(s)).actions == [];
    ResumePublishes(s, Second(s), Third(s));
    ExecuteServes(s, d, d, Q(s), First(s), RunRunning);
  }

  /** One event further, given what it performs and where that leads. */
  lemma Advances(history: seq<Event>, event: Event, d: Disk, actions: seq<Action>, e: Disk)
    requires DiskAfter(history) == d && Performed(d, event) == actions && Run(d, actions) == e
    ensures DiskAfter(history + [event]) == e
  {
    hide Performed, Run;
    OneMoreEvent(history, event);
  }

  lemma HistoryReaches(s: Source)
    ensures DiskAfter(History(s)) == Resumed(s, Second(s), Third(s))
  {
    hide Performed, Resumed, Judged, Interrupted, Initialized, Run, DiskAfter, Reduced, ActionsOf, Demoted, Advanced;
    var h, second, third := History(s), Second(s), Third(s);
    NothingYet();
    Initializes(s);
    Advances([], h[0], EmptyDisk, Performed(EmptyDisk, h[0]), Initialized(s));
    InterruptActions(s);
    InterruptRuns(s, second);
    Advances([] + [h[0]], h[1], Initialized(s), Performed(Initialized(s), h[1]), Interrupted(s, second));
    JudgeActions(s);
    JudgeRuns(s, second, third);
    Advances([] + [h[0]] + [h[1]], h[2], Interrupted(s, second), Performed(Interrupted(s, second), h[2]),
             Judged(s, second, third));
    ResumeActions(s);
    ResumeRuns(s, second, third);
    Advances([] + [h[0]] + [h[1]] + [h[2]], h[3], Judged(s, second, third),
             Performed(Judged(s, second, third), h[3]), Resumed(s, second, third));
    assert [] + [h[0]] + [h[1]] + [h[2]] + [h[3]] == h;
  }

  lemma NothingYet()
    ensures DiskAfter([]) == EmptyDisk
  {
  }

  lemma HistoryIsPlain(s: Source)
    ensures Fresh(History(s)) && WithoutRollback(History(s))
  {
  }

  lemma ResumedBlocks(s: Source, d: Disk, second: Projection, third: Projection, replies: map<Operation, Reply>)
    requires d == Resumed(s, second, third) && second.version == 2
    requires Replay(P(s), second, SuccessfulResults(P(s))).Ok?
    ensures !Recovers(d, P(s), second, replies)
  {
    hide Replay, Demoted;
    assert WillSucceed(d, P(s), replies);
    assert d.pointer.value.version == P(s).run.base;
    assert P(s).run.id in d.verdicts && !Finished(d, P(s).run.id);
  }

  /**
   Executing P again does not finish its run: the verdict it persisted as a stale
   plan cannot be replaced now that its base serves.
   */
  lemma RecoveryFails(s: Source, replies: map<Operation, Reply>)
    ensures Fresh(History(s)) && WithoutRollback(History(s))
    ensures var d := DiskAfter(History(s));
            && 2 in d.plans && d.plans[2] == P(s) && VerifiesBase(d, P(s), Second(s))
            && !Finished(Run(d, Execute(d, P(s), Second(s), replies).actions), 2)
  {
    hide Reduced, Execute, Demoted;
    HistoryIsPlain(s);
    HistoryReaches(s);
    EmptyReplay(s, P(s), Second(s));
    assert SuccessfulResults(P(s)) == [];
    ResumedBlocks(s, DiskAfter(History(s)), Second(s), Third(s), replies);
    RecoveryExact(History(s), P(s), Second(s), replies);
  }

  lemma WedgeRuns(s: Source, d: Disk, second: Projection, third: Projection, next: Pointer)
    requires d == Resumed(s, second, third) && third.version == 3 && third.state.StatePublished?
    requires next == Named(third, Some(Owner(2, P(s))))
    ensures Wedged(Run(d, [PutRun(P(s).run.(state := RunRunning)), PutProjection(third), PutPointer(next)]))
  {
    var running := PutRun(P(s).run.(state := RunRunning));
    RunAppend(d, [running], [PutProjection(third), PutPointer(next)]);
    assert [running] + [PutProjection(third), PutPointer(next)] == [running, PutProjection(third), PutPointer(next)];
    RunTwo(Apply(d, running), PutProjection(third), PutPointer(next));
    DemotedKeeps(third);
  }

  lemma WedgeActions(s: Source, d: Disk, next: Pointer)
    requires d == Resumed(s, Second(s), Third(s)) && next == Named(Third(s), Some(Owner(2, P(s))))
    ensures Execute(d, P(s), Second(s), map[]).actions
         == [PutRun(P(s).run.(state := RunRunning)), PutProjection(Third(s)), PutPointer(next)]
  {
    hide Reduced, Execute, Replay, Demoted, Advanced, ValidProjection;
    var running := PutRun(P(s).run.(state := RunRunning));
    var f := Apply(d, running);
    assert StagePlan(d, P(s)).actions == [];
    ExecuteServes(s, d, d, P(s), Second(s), RunStaged);
    RunTwo(f, PutProjection(Third(s)), PutPointer(next));
    var g := Run(f, [PutProjection(Third(s)), PutPointer(next)]);
    DemotedKeeps(Third(s));
    assert Conclude(g, P(s), Third(s), P(s).run.(state := RunSucceeded)).result.Err?;
    assert [PutProjection(Third(s))] + [PutPointer(next)] == [PutProjection(Third(s)), PutPointer(next)];
    assert PublishCandidate(f, P(s), Third(s), running.run).actions == [PutProjection(Third(s)), PutPointer(next)];
  }

  /** And it wedges the pointer, for good unless rolled back: no run finishes any more. */
  lemma ExecutionWedges(s: Source, more: seq<Event>)
    requires Fresh(more) && WithoutRollback(more)
    ensures Wedged(DiskAfter(History(s) + [Event(CallExecute(P(s), Second(s), map[]), 3)] + more))
  {
    hide Reduced, Execute, Demoted;
    HistoryIsPlain(s);
    HistoryReaches(s);
    var d, event := DiskAfter(History(s)), Event(CallExecute(P(s), Second(s), map[]), 3);
    var next := Named(Third(s), Some(Owner(2, P(s))));
    WedgeActions(s, d, next);
    WedgeRuns(s, d, Second(s), Third(s), next);
    OneMoreEvent(History(s), event);
    WedgeIsPermanent(History(s) + [event], more);
  }
}
