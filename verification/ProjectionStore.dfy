/**
 The store itself: operations that act on the durable records one action at a
 time. Each is proved to perform exactly the actions, and to give exactly the
 answer, that the journal's effect describes. A store is valid when its whole log
 is guarded: then every prefix of the log, which is what a crash leaves, has a safe
 serving pointer, and every public operation keeps it so.
 */
module Store {
  import opened Wrappers
  import opened Catalog
  import opened Replaying
  import opened Journal
  import opened JournalSafety
  import opened JournalGuards
  import opened JournalPublication
  import opened JournalReports
  import opened JournalReceipts

  lemma NoActions(d: Disk, log: seq<Action>)
    ensures Run(d, []) == d && log + [] == log
  {
  }

  function StaleReceipt(plan: Plan, op: Operation): seq<Action> {
    [PutResult(ResultKey(plan.run.id, op), OperationFailed(StaleBaseProjection))]
  }

  lemma {:induction false} StaleReceiptsLast(d: Disk, plan: Plan, ops: seq<Operation>, last: Operation)
    ensures StaleReceipts(d, plan, ops + [last])
         == StaleReceipts(d, plan, ops) + (if HasResult(d, plan, last) then [] else StaleReceipt(plan, last))
    decreases |ops|
  {
    if ops != [] {
      assert (ops + [last])[1..] == ops[1..] + [last];
      StaleReceiptsLast(d, plan, ops[1..], last);
    } else {
      assert ops + [last] == [last];
    }
  }

  lemma StaleReceiptsExtend(d: Disk, plan: Plan, ops: seq<Operation>, i: nat)
    requires i < |ops|
    ensures StaleReceipts(d, plan, ops[..i + 1])
         == StaleReceipts(d, plan, ops[..i]) + (if HasResult(d, plan, ops[i]) then [] else StaleReceipt(plan, ops[i]))
  {
    assert ops[..i + 1] == ops[..i] + [ops[i]];
    StaleReceiptsLast(d, plan, ops[..i], ops[i]);
  }

  /** Whether a failure is on record, or has occurred, once these operations are done. */
  function FailedAfter(
    d: Disk, plan: Plan, ops: seq<Operation>, failed: bool, replies: map<Operation, Reply>): bool
  {
    if ops == [] then failed
    else if HasResult(d, plan, ops[0]) then FailedAfter(d, plan, ops[1..], failed, replies)
    else
      FailedAfter(d, plan, ops[1..], failed || AttemptOutcome(ops[0], failed, replies).OperationFailed?, replies)
  }

  lemma {:induction false} AttemptsLast(
    d: Disk, plan: Plan, ops: seq<Operation>, last: Operation, failed: bool, replies: map<Operation, Reply>)
    ensures var after := FailedAfter(d, plan, ops, failed, replies);
            && Attempts(d, plan, ops + [last], failed, replies)
               == Attempts(d, plan, ops, failed, replies)
                  + (if HasResult(d, plan, last) then [] else Attempt(plan, last, after, replies))
            && FailedAfter(d, plan, ops + [last], failed, replies)
               == (if HasResult(d, plan, last) then after
                   else after || AttemptOutcome(last, after, replies).OperationFailed?)
    decreases |ops|
  {
    hide AttemptOutcome, Attempt;
    if ops == [] {
      assert ops + [last] == [last];
    } else {
      assert (ops + [last])[1..] == ops[1..] + [last];
      if HasResult(d, plan, ops[0]) {
        AttemptsLast(d, plan, ops[1..], last, failed, replies);
      } else {
        AttemptsLast(
          d, plan, ops[1..], last, failed || AttemptOutcome(ops[0], failed, replies).OperationFailed?, replies);
      }
    }
  }

  lemma AttemptsExtend(
    d: Disk, plan: Plan, ops: seq<Operation>, i: nat, failed: bool, replies: map<Operation, Reply>)
    requires i < |ops|
    ensures var after := FailedAfter(d, plan, ops[..i], failed, replies);
            && Attempts(d, plan, ops[..i + 1], failed, replies)
               == Attempts(d, plan, ops[..i], failed, replies)
                  + (if HasResult(d, plan, ops[i]) then [] else Attempt(plan, ops[i], after, replies))
            && FailedAfter(d, plan, ops[..i + 1], failed, replies)
               == (if HasResult(d, plan, ops[i]) then after
                   else after || AttemptOutcome(ops[i], after, replies).OperationFailed?)
  {
    assert ops[..i + 1] == ops[..i] + [ops[i]];
    AttemptsLast(d, plan, ops[..i], ops[i], failed, replies);
  }

  /** Recording one operation leaves the later ones as they were. */
  lemma OthersPending(d: Disk, e: Disk, plan: Plan, i: nat, outcome: Outcome)
    requires Distinct(plan.operations) && i < |plan.operations|
    requires e.results == d.results[ResultKey(plan.run.id, plan.operations[i]) := outcome]
    ensures forall j | i < j < |plan.operations| ::
              HasResult(e, plan, plan.operations[j]) <==> HasResult(d, plan, plan.operations[j])
  {
  }

  lemma GuardedIsSafe(log: seq<Action>)
    requires Guarded(EmptyDisk, log)
    ensures Inv(Run(EmptyDisk, log)) && ServingIsSafe(Run(EmptyDisk, log))
  {
    EmptyInv();
    GuardedKeeps(EmptyDisk, log);
    InvIsSafe(Run(EmptyDisk, log));
  }

  class ProjectionStore {
    var disk: Disk
    /** Every action performed so far. */
    ghost var log: seq<Action>

    /** The records are what a guarded log left behind. */
    ghost predicate Valid()
      reads this
    {
      Guarded(EmptyDisk, log) && disk == Run(EmptyDisk, log)
    }

    constructor ()
      ensures Valid() && disk == EmptyDisk && log == []
    {
      disk, log := EmptyDisk, [];
    }

    /** Opens the records of a store that stopped after some prefix of its log. */
    constructor Reopen(records: Disk, ghost written: seq<Action>, ghost survived: nat)
      requires Guarded(EmptyDisk, written) && survived <= |written|
      requires records == Run(EmptyDisk, written[..survived])
      ensures Valid() && ServingIsSafe(disk)
      ensures disk == records && log == written[..survived]
    {
      disk, log := records, written[..survived];
      GuardedPrefix(EmptyDisk, written, survived);
      GuardedIsSafe(written[..survived]);
    }

    /** A crash at any moment of a valid store's life leaves a safe pointer. */
    lemma EveryPrefixIsSafe(survived: nat)
      requires Valid() && survived <= |log|
      ensures Guarded(EmptyDisk, log[..survived]) && ServingIsSafe(Run(EmptyDisk, log[..survived]))
    {
      GuardedPrefix(EmptyDisk, log, survived);
      GuardedIsSafe(log[..survived]);
    }

    /** Guarded actions, performed on a valid store, leave a valid one. */
    lemma StaysValid(before: Disk, earlier: seq<Action>, actions: seq<Action>)
      requires Guarded(EmptyDisk, earlier) && before == Run(EmptyDisk, earlier)
      requires Guarded(before, actions) && Did(before, earlier, actions)
      ensures Valid() && ServingIsSafe(disk)
    {
      GuardedAppend(EmptyDisk, earlier, actions);
      RunAppend(EmptyDisk, earlier, actions);
      GuardedIsSafe(log);
    }

    /** Exactly these actions lead from an earlier state to this one. */
    ghost predicate Did(before: Disk, earlier: seq<Action>, actions: seq<Action>)
      reads this
    {
      disk == Run(before, actions) && log == earlier + actions
    }

    lemma DidThen(before: Disk, earlier: seq<Action>, xs: seq<Action>, middle: Disk, ys: seq<Action>)
      requires middle == Run(before, xs) && Did(middle, earlier + xs, ys)
      ensures Did(before, earlier, xs + ys)
    {
      RunAppend(before, xs, ys);
      assert earlier + xs + ys == earlier + (xs + ys);
    }

    /** One atomic write, or one call of the executor. */
    method Perform(a: Action)
      modifies this
      ensures Did(old(disk), old(log), [a]) && disk == Apply(old(disk), a)
    {
      match a {
        case PutPlan(plan) => disk := disk.(plans := disk.plans[plan.run.id := plan]);
        case PutRun(run) => disk := disk.(runs := disk.runs[run.id := run]);
        case PutResult(key, outcome) => disk := disk.(results := disk.results[key := outcome]);
        case PutVerdict(owner, verdict) => disk := disk.(verdicts := disk.verdicts[owner := verdict]);
        case PutProjection(candidate) => disk := disk.(projections := disk.projections[candidate.version := candidate]);
        case PutPointer(pointer) => disk := disk.(pointer := Some(pointer));
        case RemoveProjection(version) => disk := disk.(projections := disk.projections - {version});
        case Invoke(_) =>
      }
      log := log + [a];
    }

    method StageLocked(plan: Plan) returns (result: Result<(), StoreError>)
      modifies this
      ensures var staged := StagePlan(old(disk), plan);
              Did(old(disk), old(log), staged.actions) && result == staged.result
    {
      NoActions(disk, log);
      var id := plan.run.id;
      if !ValidPlan(plan) {
        return Err(InvalidInput);
      }
      if id in disk.plans && disk.plans[id] != plan {
        return Err(JournalConflict);
      }
      ghost var d, l := disk, log;
      ghost var planned := if id in disk.plans then [] else [PutPlan(plan)];
      if id !in disk.plans {
        Perform(PutPlan(plan));
      }
      assert Did(d, l, planned) && disk.runs == d.runs;
      if id in disk.runs {
        return if SameIdentity(disk.runs[id], plan.run) then Ok(()) else Err(JournalConflict);
      }
      ghost var middle := disk;
      Perform(PutRun(plan.run));
      DidThen(d, l, planned, middle, [PutRun(plan.run)]);
      return Ok(());
    }

    method Stage(plan: Plan) returns (result: Result<(), StoreError>)
      requires Valid()
      modifies this
      ensures Valid() && ServingIsSafe(disk)
      ensures var staged := StagePlan(old(disk), plan);
              Did(old(disk), old(log), staged.actions) && result == staged.result
      ensures result.Ok? ==> IsStaged(disk, plan)
    {
      ghost var d, l := disk, log;
      GuardedIsSafe(l);
      result := StageLocked(plan);
      StageSound(d, plan);
      StaysValid(d, l, StagePlan(d, plan).actions);
    }

    method RecordLocked(plan: Plan, op: Operation, outcome: Outcome) returns (result: Result<(), StoreError>)
      modifies this
      ensures var recorded := RecordStaged(old(disk), plan, op, outcome);
              Did(old(disk), old(log), recorded.actions) && result == recorded.result
    {
      NoActions(disk, log);
      var canonical := CanonicalOutcome(outcome);
      if op !in plan.operations {
        return Err(InvalidInput);
      }
      var key := ResultKey(plan.run.id, op);
      if key in disk.results {
        return if disk.results[key] == canonical then Ok(()) else Err(JournalConflict);
      }
      Perform(PutResult(key, canonical));
      return Ok(());
    }

    method RecordResult(plan: Plan, op: Operation, outcome: Outcome) returns (result: Result<(), StoreError>)
      requires Valid()
      modifies this
      ensures Valid() && ServingIsSafe(disk)
      ensures result.Ok? ==>
                HasResult(disk, plan, op) && disk.results[ResultKey(plan.run.id, op)] == CanonicalOutcome(outcome)
      ensures var recorded := Journal.RecordResult(old(disk), plan, op, outcome);
              Did(old(disk), old(log), recorded.actions) && result == recorded.result
    {
      hide Guarded, ServingIsSafe, ValidPlan, CanonicalOutcome;
      ghost var d, l := disk, log;
      GuardedIsSafe(l);
      RecordSound(d, plan, op, outcome);
      result := StageLocked(plan);
      if result.Err? {
        StaysValid(d, l, StagePlan(d, plan).actions);
        return;
      }
      ghost var e := disk;
      result := RecordLocked(plan, op, outcome);
      if result.Ok? {
        RecordStands(e, plan, op, outcome);
      }
      DidThen(d, l, StagePlan(d, plan).actions, e, RecordStaged(e, plan, op, outcome).actions);
      StaysValid(d, l, Journal.RecordResult(d, plan, op, outcome).actions);
    }

    /** The receipts in plan order, or none while one is missing. */
    method CompleteResults(plan: Plan) returns (results: Option<seq<OperationResult>>)
      ensures results.Some? <==> Complete(disk, plan)
      ensures results.Some? ==> results.value == ResultsOf(disk, plan)
    {
      var read: seq<OperationResult> := [];
      for i := 0 to |plan.operations|
        invariant |read| == i
        invariant forall j | 0 <= j < i ::
                    && HasResult(disk, plan, plan.operations[j])
                    && read[j] == OperationResult(plan.operations[j],
                                                  disk.results[ResultKey(plan.run.id, plan.operations[j])])
      {
        var key := ResultKey(plan.run.id, plan.operations[i]);
        if key !in disk.results {
          assert !HasResult(disk, plan, plan.operations[i]);
          return None;
        }
        read := read + [OperationResult(plan.operations[i], disk.results[key])];
      }
      return Some(read);
    }

    method ReadExecution(plan: Plan, state: RunState) returns (result: Result<Execution, StoreError>)
      ensures result == PersistedExecution(disk, plan, state).result
    {
      if plan.run.id !in disk.verdicts || disk.pointer.None? {
        return Err(MissingRecord);
      }
      return Ok(Execution(disk.verdicts[plan.run.id], state, disk.pointer.value, false, true));
    }

    /** Persists the run's projection once and then its terminal record. */
    method ConcludeLocked(plan: Plan, verdict: Projection, run: SyncRun) returns (result: Result<(), StoreError>)
      modifies this
      ensures var concluded := Conclude(old(disk), plan, verdict, run);
              Did(old(disk), old(log), concluded.actions) && result == concluded.result
    {
      NoActions(disk, log);
      if verdict.version != plan.run.version || verdict.scope != plan.run.scope {
        return Err(JournalConflict);
      }
      ghost var d, l := disk, log;
      if plan.run.id in disk.verdicts {
        if disk.verdicts[plan.run.id] != verdict {
          return Err(JournalConflict);
        }
        Perform(PutRun(run));
      } else {
        Perform(PutVerdict(plan.run.id, verdict));
        ghost var e := disk;
        Perform(PutRun(run));
        DidThen(d, l, [PutVerdict(plan.run.id, verdict)], e, [PutRun(run)]);
        assert [PutVerdict(plan.run.id, verdict)] + [PutRun(run)] == [PutVerdict(plan.run.id, verdict), PutRun(run)];
      }
      return Ok(());
    }

    method ReconcileUnfinishedOwner(pointer: Pointer, plan: Plan, run: SyncRun)
      returns (result: Result<(), StoreError>)
      modifies this
      ensures var reconciled := ReconcileUnfinished(old(disk), pointer, plan, run);
              Did(old(disk), old(log), reconciled.actions) && result == reconciled.result
    {
      NoActions(disk, log);
      var results := CompleteResults(plan);
      if results.None? {
        return Err(JournalConflict);
      }
      var succeeded := AllSuccessful(results.value);
      ReceiptsRead(disk, plan, results.value);
      if !succeeded {
        return Err(JournalConflict);
      }
      if plan.run.base !in disk.projections {
        return Err(MissingRecord);
      }
      var replayed := ReplayResults(plan, disk.projections[plan.run.base], results.value);
      if replayed.Err? {
        return Err(ReplayFailed);
      }
      var (projection, report) := replayed.value;
      if !projection.state.StatePublished? || !report.runState.RunSucceeded?
         || projection.snapshot.version != pointer.snapshotVersion {
        return Err(JournalConflict);
      }
      if pointer.version !in disk.projections {
        return Err(MissingRecord);
      }
      if disk.projections[pointer.version] != projection {
        return Err(JournalConflict);
      }
      result := ConcludeLocked(plan, projection, run.(state := RunSucceeded));
    }

    method ReconcileOwner(pointer: Pointer) returns (result: Result<(), StoreError>)
      modifies this
      ensures var reconciled := Reconcile(old(disk), pointer);
              Did(old(disk), old(log), reconciled.actions) && result == reconciled.result
    {
      NoActions(disk, log);
      if pointer.owner.None? {
        return Ok(());
      }
      var id := pointer.owner.value.run;
      if id !in disk.plans || id !in disk.runs {
        return Err(MissingRecord);
      }
      var plan, run := disk.plans[id], disk.runs[id];
      if plan != pointer.owner.value.plan || plan.run.id != id || plan.run.version != pointer.version
         || plan.run.scope != pointer.scope || !SameIdentity(run, plan.run) || run.state.RunFailed? {
        return Err(JournalConflict);
      }
      if run.state.RunSucceeded? {
        if id !in disk.verdicts || pointer.version !in disk.projections {
          return Err(MissingRecord);
        }
        return if disk.verdicts[id] == disk.projections[pointer.version] then Ok(()) else Err(JournalConflict);
      }
      result := ReconcileUnfinishedOwner(pointer, plan, run);
    }

    /** Receipts for every operation that has none, in plan order. */
    method RecordStaleReceipts(plan: Plan)
      requires ValidPlan(plan)
      modifies this
      ensures Did(old(disk), old(log), StaleReceipts(old(disk), plan, plan.operations))
    {
      hide ValidRun, ValidOperation, Canonical;
      ghost var d, l := disk, log;
      var ops := plan.operations;
      NoActions(d, l);
      for i := 0 to |ops|
        invariant Did(d, l, StaleReceipts(d, plan, ops[..i]))
        invariant forall j | i <= j < |ops| :: HasResult(disk, plan, ops[j]) <==> HasResult(d, plan, ops[j])
      {
        StaleReceiptsExtend(d, plan, ops, i);
        if ResultKey(plan.run.id, ops[i]) !in disk.results {
          ghost var e := disk;
          RecordStaleReceipt(plan, ops[i]);
          OthersPending(e, disk, plan, i, OperationFailed(StaleBaseProjection));
          DidThen(d, l, StaleReceipts(d, plan, ops[..i]), e, StaleReceipt(plan, ops[i]));
        } else {
          assert StaleReceipts(d, plan, ops[..i]) + [] == StaleReceipts(d, plan, ops[..i]);
        }
      }
      assert ops[..|ops|] == ops;
    }

    method RecordStaleReceipt(plan: Plan, op: Operation)
      requires op in plan.operations && !HasResult(disk, plan, op)
      modifies this
      ensures Did(old(disk), old(log), StaleReceipt(plan, op))
      ensures disk.results == old(disk).results[ResultKey(plan.run.id, op) := OperationFailed(StaleBaseProjection)]
    {
      ghost var d := disk;
      var recorded := RecordLocked(plan, op, OperationFailed(StaleBaseProjection));
      assert recorded.Ok? && Run(d, StaleReceipt(plan, op)) == Apply(d, StaleReceipt(plan, op)[0]);
    }

    method PersistStaleFailure(plan: Plan, current: Projection, pointer: Pointer)
      returns (result: Result<Execution, StoreError>)
      requires ValidPlan(plan)
      modifies this
      ensures var failed := StaleFailure(old(disk), plan, current, pointer);
              Did(old(disk), old(log), failed.actions) && result == failed.result
    {
      ghost var d, l := disk, log;
      RecordStaleReceipts(plan);
      ghost var e := disk;
      result := ConcludeStale(plan, current, pointer);
      DidThen(d, l, StaleReceipts(d, plan, plan.operations), e, StaleConcluded(e, plan, current, pointer).actions);
    }

    method ConcludeStale(plan: Plan, current: Projection, pointer: Pointer)
      returns (result: Result<Execution, StoreError>)
      modifies this
      ensures var concluded := StaleConcluded(old(disk), plan, current, pointer);
              Did(old(disk), old(log), concluded.actions) && result == concluded.result
    {
      hide ValidProjection, Replay, Demoted;
      NoActions(disk, log);
      var results := CompleteResults(plan);
      if results.None? {
        return Err(IncompleteReceipts);
      }
      var replayed := ReplayResults(plan, current, results.value);
      if replayed.Err? {
        return Err(ReplayFailed);
      }
      var (projection, report) := replayed.value;
      if report.runState.RunSucceeded? {
        projection := Demoted(projection);
      }
      if !ValidProjection(projection) {
        return Err(InvalidInput);
      }
      if !projection.state.StateFailed? {
        return Err(JournalConflict);
      }
      var concluded := ConcludeLocked(plan, projection, plan.run.(state := RunFailed));
      if concluded.Err? {
        return Err(concluded.error);
      }
      return Ok(Execution(projection, RunFailed, pointer, false, false));
    }

    method FailStaleLocked(plan: Plan, current: Projection, pointer: Pointer)
      returns (result: Result<Execution, StoreError>)
      requires ValidPlan(plan)
      modifies this
      ensures var failed := FailStale(old(disk), plan, current, pointer);
              Did(old(disk), old(log), failed.actions) && result == failed.result
    {
      result := PersistStaleFailure(plan, current, pointer);
      if result.Ok? {
        result := Err(StaleServingPointer);
      }
    }

    /** Candidate, pointer, run projection, run record, in this order. */
    method Publish(plan: Plan, projection: Projection, run: SyncRun) returns (result: Result<Execution, StoreError>)
      modifies this
      ensures var published := PublishCandidate(old(disk), plan, projection, run);
              Did(old(disk), old(log), published.actions) && result == published.result
    {
      NoActions(disk, log);
      ghost var d, l := disk, log;
      if projection.version in disk.projections && disk.projections[projection.version] != projection {
        return Err(JournalConflict);
      }
      ghost var candidate := if projection.version in d.projections then [] else [PutProjection(projection)];
      if projection.version !in disk.projections {
        Perform(PutProjection(projection));
      }
      ghost var e := disk;
      var next := Named(projection, Some(Owner(plan.run.id, plan)));
      Perform(PutPointer(next));
      DidThen(d, l, candidate, e, [PutPointer(next)]);
      ghost var moved := disk;
      var concluded := ConcludeLocked(plan, projection, run.(state := RunSucceeded));
      ghost var rest := Conclude(moved, plan, projection, run.(state := RunSucceeded));
      assert rest.result.Err? ==> rest.actions == [];
      DidThen(d, l, candidate + [PutPointer(next)], moved, rest.actions);
      if concluded.Err? {
        assert candidate + [PutPointer(next)] + [] == candidate + [PutPointer(next)];
        return Err(concluded.error);
      }
      return Ok(Execution(projection, RunSucceeded, next, true, false));
    }

    method FinalizeBase(plan: Plan, current: Projection, pointer: Pointer, run: SyncRun)
      returns (result: Result<Execution, StoreError>)
      modifies this
      ensures var finalized := FinalizeServing(old(disk), plan, current, pointer, run);
              Did(old(disk), old(log), finalized.actions) && result == finalized.result
    {
      hide Replay, ValidProjection, ValidPlan, ResultsOf, Complete, PublishCandidate;
      NoActions(disk, log);
      var results := CompleteResults(plan);
      if results.None? {
        return Err(IncompleteReceipts);
      }
      var replayed := ReplayResults(plan, current, results.value);
      if replayed.Err? {
        return Err(ReplayFailed);
      }
      var (projection, report) := replayed.value;
      if report.runState.RunFailed? {
        var concluded := ConcludeLocked(plan, projection, run.(state := RunFailed));
        if concluded.Err? {
          return Err(concluded.error);
        }
        return Ok(Execution(projection, RunFailed, pointer, false, false));
      }
      if !projection.state.StatePublished? {
        return Err(ReplayFailed);
      }
      result := Publish(plan, projection, run);
    }

    method FinalizeOwn(plan: Plan, current: Projection, pointer: Pointer, run: SyncRun)
      returns (result: Result<Execution, StoreError>)
      modifies this
      ensures var finalized := FinalizeOwned(old(disk), plan, current, pointer, run);
              Did(old(disk), old(log), finalized.actions) && result == finalized.result
    {
      hide Replay, ValidProjection, ValidPlan, ResultsOf, Complete;
      NoActions(disk, log);
      var results := CompleteResults(plan);
      if results.None? {
        return Err(IncompleteReceipts);
      }
      var replayed := ReplayResults(plan, current, results.value);
      if replayed.Err? {
        return Err(ReplayFailed);
      }
      var (projection, report) := replayed.value;
      if !projection.state.StatePublished? || !report.runState.RunSucceeded? {
        return Err(JournalConflict);
      }
      var concluded := ConcludeLocked(plan, projection, run.(state := RunSucceeded));
      if concluded.Err? {
        return Err(concluded.error);
      }
      return Ok(Execution(projection, RunSucceeded, pointer, false, true));
    }

    method FinalizeAfterReconciling(plan: Plan, current: Projection, pointer: Pointer)
      returns (result: Result<Execution, StoreError>)
      requires ValidPlan(plan)
      modifies this
      ensures var finalized := FinalizeReconciled(old(disk), plan, current, pointer);
              Did(old(disk), old(log), finalized.actions) && result == finalized.result
    {
      NoActions(disk, log);
      if plan.run.id !in disk.runs {
        return Err(MissingRecord);
      }
      var run := disk.runs[plan.run.id];
      if run.state.IsTerminal() {
        result := ReadExecution(plan, run.state);
      } else if !VerifiesBase(disk, plan, current) {
        return Err(JournalConflict);
      } else if MatchesBase(pointer, plan, current) {
        result := FinalizeBase(plan, current, pointer, run);
      } else if OwnedBy(pointer, plan) {
        result := FinalizeOwn(plan, current, pointer, run);
      } else {
        result := FailStaleLocked(plan, current, pointer);
      }
    }

    method FinalizeAfterStaging(plan: Plan, current: Projection) returns (result: Result<Execution, StoreError>)
      requires ValidPlan(plan)
      modifies this
      ensures var finalized := FinalizeStaged(old(disk), plan, current);
              Did(old(disk), old(log), finalized.actions) && result == finalized.result
    {
      NoActions(disk, log);
      ghost var d, l := disk, log;
      if !ValidProjection(current) || current.scope != plan.run.scope || current.version != plan.run.base {
        return Err(InvalidInput);
      }
      if plan.run.id !in disk.runs {
        return Err(MissingRecord);
      }
      if disk.runs[plan.run.id].state.IsTerminal() {
        result := ReadExecution(plan, disk.runs[plan.run.id].state);
        return;
      }
      if disk.pointer.None? {
        return Err(MissingRecord);
      }
      var pointer := disk.pointer.value;
      var reconciled := ReconcileOwner(pointer);
      if reconciled.Err? {
        ReconcileErrs(d, pointer);
        return Err(reconciled.error);
      }
      ghost var e := disk;
      result := FinalizeAfterReconciling(plan, current, pointer);
      DidThen(d, l, Reconcile(d, pointer).actions, e, FinalizeReconciled(e, plan, current, pointer).actions);
    }

    method FinalizeLocked(plan: Plan, current: Projection) returns (result: Result<Execution, StoreError>)
      modifies this
      ensures var finalized := Journal.Finalize(old(disk), plan, current);
              Did(old(disk), old(log), finalized.actions) && result == finalized.result
    {
      ghost var d, l := disk, log;
      var staged := StageLocked(plan);
      if staged.Err? {
        return Err(staged.error);
      }
      ghost var e := disk;
      result := FinalizeAfterStaging(plan, current);
      DidThen(d, l, StagePlan(d, plan).actions, e, FinalizeStaged(e, plan, current).actions);
    }

    method Finalize(plan: Plan, current: Projection) returns (result: Result<Execution, StoreError>)
      requires Valid()
      modifies this
      ensures Valid() && ServingIsSafe(disk)
      ensures var finalized := Journal.Finalize(old(disk), plan, current);
              Did(old(disk), old(log), finalized.actions) && result == finalized.result
      ensures result.Ok? ==> Reports(disk, plan, result.value)
    {
      ghost var d, l := disk, log;
      GuardedIsSafe(l);
      result := FinalizeLocked(plan, current);
      FinalizeSound(d, plan, current);
      FinalizeReports(d, plan, current);
      StaysValid(d, l, Journal.Finalize(d, plan, current).actions);
    }

    /** Attempts the operations without a receipt, blocking those after a failure. */
    method AttemptOperations(plan: Plan, replies: map<Operation, Reply>)
      requires ValidPlan(plan)
      modifies this
      ensures Did(old(disk), old(log),
                  Attempts(old(disk), plan, plan.operations, AnyReceiptFailed(old(disk), plan), replies))
      ensures Attempted(old(disk), disk, plan, replies)
    {
      hide ValidRun, ValidOperation, Canonical, Attempt, AttemptOutcome, Attempted;
      ghost var d, l := disk, log;
      LoopAttempts(d, plan, replies);
      var ops := plan.operations;
      var persisted, failed := ReadReceipts(plan);
      ghost var start := failed;
      NoActions(d, l);
      for i := 0 to |ops|
        invariant Did(d, l, Attempts(d, plan, ops[..i], start, replies))
        invariant failed == FailedAfter(d, plan, ops[..i], start, replies)
        invariant forall j | i <= j < |ops| :: HasResult(disk, plan, ops[j]) <==> HasResult(d, plan, ops[j])
      {
        AttemptsExtend(d, plan, ops, i, start, replies);
        if ops[i] !in persisted {
          ghost var e := disk;
          var outcome := AttemptLocked(plan, ops[i], failed, replies);
          OthersPending(e, disk, plan, i, outcome);
          DidThen(d, l, Attempts(d, plan, ops[..i], start, replies), e, Attempt(plan, ops[i], failed, replies));
          failed := failed || outcome.OperationFailed?;
        } else {
          assert Attempts(d, plan, ops[..i], start, replies) + [] == Attempts(d, plan, ops[..i], start, replies);
        }
      }
      assert ops[..|ops|] == ops;
    }

    /** The operations that have a receipt, and whether one of those failed. */
    method ReadReceipts(plan: Plan) returns (persisted: set<Operation>, failed: bool)
      ensures forall op | op in plan.operations :: op in persisted <==> HasResult(disk, plan, op)
      ensures failed <==> AnyReceiptFailed(disk, plan)
    {
      persisted, failed := {}, false;
      for i := 0 to |plan.operations|
        invariant forall op :: op in persisted <==> op in plan.operations[..i] && HasResult(disk, plan, op)
        invariant failed <==>
                    exists op | op in plan.operations[..i] ::
                      HasResult(disk, plan, op) && disk.results[ResultKey(plan.run.id, op)].OperationFailed?
      {
        var op := plan.operations[i];
        assert plan.operations[..i + 1] == plan.operations[..i] + [op];
        var key := ResultKey(plan.run.id, op);
        if key in disk.results {
          assert HasResult(disk, plan, op);
          persisted := persisted + {op};
          failed := failed || disk.results[key].OperationFailed?;
        }
      }
      assert plan.operations[..|plan.operations|] == plan.operations;
    }

    method AttemptLocked(plan: Plan, op: Operation, failed: bool, replies: map<Operation, Reply>)
      returns (outcome: Outcome)
      requires op in plan.operations && !HasResult(disk, plan, op)
      modifies this
      ensures Did(old(disk), old(log), Attempt(plan, op, failed, replies))
      ensures outcome == AttemptOutcome(op, failed, replies)
      ensures ReceiptSays(op, failed, replies, outcome)
      ensures disk == old(disk).(results := old(disk).results[ResultKey(plan.run.id, op) := outcome])
    {
      NoActions(disk, log);
      AttemptSays(op, failed, replies);
      ghost var d, l := disk, log;
      var key := ResultKey(plan.run.id, op);
      var answer := OperationFailed(ExecutionFailed);
      ghost var invoked := [];
      if failed {
        answer := OperationFailed(OperationBlocked);
      } else if op in replies {
        Perform(Invoke(key));
        invoked := [Invoke(key)];
        answer := ReplyOutcome(op, replies[op]);
      } else {
        answer := OperationFailed(ContextCancelled);
      }
      outcome := CanonicalOutcome(answer);
      ghost var e := disk;
      var recorded := RecordLocked(plan, op, answer);
      assert recorded.Ok? && Did(e, l + invoked, [PutResult(key, outcome)]);
      DidThen(d, l, invoked, e, [PutResult(key, outcome)]);
      assert disk == Run(e, [PutResult(key, outcome)]) == Apply(e, PutResult(key, outcome));
    }

    method ExecuteBase(plan: Plan, current: Projection, replies: map<Operation, Reply>)
      returns (result: Result<Execution, StoreError>)
      requires ValidPlan(plan) && plan.run.id in disk.runs
      modifies this
      ensures var executed := ExecuteServing(old(disk), plan, current, replies);
              Did(old(disk), old(log), executed.actions) && result == executed.result
    {
      NoActions(disk, log);
      ghost var d, l := disk, log;
      if !ReplayablePlan(plan, current) {
        return Err(PreflightFailed);
      }
      var running := disk.runs[plan.run.id].(state := RunRunning);
      Perform(PutRun(running));
      ghost var e := disk;
      AttemptOperations(plan, replies);
      ghost var attempts := Attempts(d, plan, plan.operations, AnyReceiptFailed(d, plan), replies);
      SameAttempts(d, e, plan, plan.operations, AnyReceiptFailed(d, plan), replies);
      assert AnyReceiptFailed(d, plan) <==> AnyReceiptFailed(e, plan);
      DidThen(d, l, [PutRun(running)], e, attempts);
      ghost var f := disk;
      result := FinalizeLocked(plan, current);
      DidThen(d, l, [PutRun(running)] + attempts, f, Journal.Finalize(f, plan, current).actions);
    }

    method ExecuteAfterReconciling(
      plan: Plan, current: Projection, pointer: Pointer, replies: map<Operation, Reply>)
      returns (result: Result<Execution, StoreError>)
      requires ValidPlan(plan)
      modifies this
      ensures var executed := ExecuteReconciled(old(disk), plan, current, pointer, replies);
              Did(old(disk), old(log), executed.actions) && result == executed.result
    {
      NoActions(disk, log);
      if plan.run.id !in disk.runs {
        return Err(MissingRecord);
      }
      var run := disk.runs[plan.run.id];
      if run.state.IsTerminal() {
        result := ReadExecution(plan, run.state);
      } else if !VerifiesBase(disk, plan, current) {
        return Err(JournalConflict);
      } else if MatchesBase(pointer, plan, current) {
        result := ExecuteBase(plan, current, replies);
      } else if OwnedBy(pointer, plan) {
        result := FinalizeLocked(plan, current);
      } else {
        result := FailStaleLocked(plan, current, pointer);
      }
    }

    method ExecuteAfterStaging(plan: Plan, current: Projection, replies: map<Operation, Reply>)
      returns (result: Result<Execution, StoreError>)
      requires ValidPlan(plan)
      modifies this
      ensures var executed := ExecuteStaged(old(disk), plan, current, replies);
              Did(old(disk), old(log), executed.actions) && result == executed.result
    {
      NoActions(disk, log);
      ghost var d, l := disk, log;
      if !ValidProjection(current) || current.scope != plan.run.scope || current.version != plan.run.base {
        return Err(InvalidInput);
      }
      if plan.run.id !in disk.runs {
        return Err(MissingRecord);
      }
      if disk.runs[plan.run.id].state.IsTerminal() {
        result := ReadExecution(plan, disk.runs[plan.run.id].state);
        return;
      }
      if disk.pointer.None? {
        return Err(MissingRecord);
      }
      var pointer := disk.pointer.value;
      var reconciled := ReconcileOwner(pointer);
      if reconciled.Err? {
        ReconcileErrs(d, pointer);
        return Err(reconciled.error);
      }
      ghost var e := disk;
      result := ExecuteAfterReconciling(plan, current, pointer, replies);
      DidThen(d, l, Reconcile(d, pointer).actions, e, ExecuteReconciled(e, plan, current, pointer, replies).actions);
    }

    method Execute(plan: Plan, current: Projection, replies: map<Operation, Reply>)
      returns (result: Result<Execution, StoreError>)
      requires Valid()
      modifies this
      ensures Valid() && ServingIsSafe(disk)
      ensures result.Ok? ==> Reports(disk, plan, result.value)
      ensures OnlyDelivered(old(disk), disk, plan, replies)
      ensures var executed := Journal.Execute(old(disk), plan, current, replies);
              Did(old(disk), old(log), executed.actions) && result == executed.result
    {
      hide OnlyDelivered;
      ghost var d, l := disk, log;
      GuardedIsSafe(l);
      ExecuteDelivers(d, plan, current, replies);
      ExecuteSound(d, plan, current, replies);
      ExecuteReports(d, plan, current, replies);
      var staged := StageLocked(plan);
      if staged.Err? {
        StaysValid(d, l, StagePlan(d, plan).actions);
        return Err(staged.error);
      }
      ghost var e := disk;
      result := ExecuteAfterStaging(plan, current, replies);
      DidThen(d, l, StagePlan(d, plan).actions, e, ExecuteStaged(e, plan, current, replies).actions);
      StaysValid(d, l, Journal.Execute(d, plan, current, replies).actions);
    }

    method InitializeLocked(projection: Projection) returns (result: Result<(), StoreError>)
      modifies this
      ensures var initialized := Journal.InitializeServing(old(disk), projection);
              Did(old(disk), old(log), initialized.actions) && result == initialized.result
    {
      NoActions(disk, log);
      ghost var d, l := disk, log;
      if !ValidProjection(projection) || !projection.state.StatePublished? {
        return Err(InvalidInput);
      }
      var version := projection.version;
      if disk.pointer.Some? {
        var pointer := disk.pointer.value;
        if pointer.scope != projection.scope || pointer.version != version
           || version !in disk.projections || disk.projections[version] != projection {
          return Err(JournalConflict);
        }
        return Ok(());
      }
      if version in disk.projections && disk.projections[version] != projection {
        return Err(JournalConflict);
      }
      ghost var candidate := if version in d.projections then [] else [PutProjection(projection)];
      if version !in disk.projections {
        Perform(PutProjection(projection));
      }
      ghost var e := disk;
      Perform(PutPointer(Named(projection, None)));
      DidThen(d, l, candidate, e, [PutPointer(Named(projection, None))]);
      return Ok(());
    }

    method RollbackLocked(plan: Plan, base: Projection) returns (result: Result<(), StoreError>)
      modifies this
      ensures var rolledBack := Journal.RollbackServing(old(disk), plan, base);
              Did(old(disk), old(log), rolledBack.actions) && result == rolledBack.result
    {
      NoActions(disk, log);
      ghost var d, l := disk, log;
      if !ValidPlan(plan) || !ValidProjection(base) {
        return Err(InvalidInput);
      }
      if disk.pointer.None? {
        return Err(MissingRecord);
      }
      if disk.pointer.value.scope != plan.run.scope || !OwnedBy(disk.pointer.value, plan) {
        return Err(StaleServingPointer);
      }
      if !VerifiesBase(disk, plan, base) {
        return Err(JournalConflict);
      }
      var restored, removed := PutPointer(Named(base, None)), RemoveProjection(plan.run.version);
      Perform(restored);
      ghost var e := disk;
      Perform(removed);
      DidThen(d, l, [restored], e, [removed]);
      assert [restored] + [removed] == [restored, removed];
      return Ok(());
    }

    /** A projection that already lists applied plans may name plans on its own version. */
    method InitializeServing(projection: Projection) returns (result: Result<(), StoreError>)
      requires Valid()
      modifies this
      ensures projection.applied == {} ==> Valid() && ServingIsSafe(disk)
      ensures result.Ok? ==>
                && disk.pointer.Some? && disk.pointer.value.version == projection.version
                && disk.pointer.value.version in disk.projections
                && disk.projections[projection.version] == projection
      ensures result.Err? ==> disk == old(disk)
      ensures var initialized := Journal.InitializeServing(old(disk), projection);
              Did(old(disk), old(log), initialized.actions) && result == initialized.result
    {
      ghost var d, l := disk, log;
      GuardedIsSafe(l);
      result := InitializeLocked(projection);
      InitializeServes(d, projection);
      if projection.applied == {} {
        InitializeSound(d, projection);
        StaysValid(d, l, Journal.InitializeServing(d, projection).actions);
      }
    }

    method RollbackServing(plan: Plan, base: Projection) returns (result: Result<(), StoreError>)
      requires Valid()
      modifies this
      ensures Valid() && ServingIsSafe(disk)
      ensures result.Ok? ==>
                && disk.pointer == Some(Named(base, None)) && base.version in disk.projections
                && disk.projections[base.version] == base && plan.run.version !in disk.projections
      ensures result.Err? ==> disk == old(disk)
      ensures var rolledBack := Journal.RollbackServing(old(disk), plan, base);
              Did(old(disk), old(log), rolledBack.actions) && result == rolledBack.result
    {
      ghost var d, l := disk, log;
      GuardedIsSafe(l);
      result := RollbackLocked(plan, base);
      RollbackSound(d, plan, base);
      RollbackServes(d, plan, base);
      StaysValid(d, l, Journal.RollbackServing(d, plan, base).actions);
    }

    /** The projection the serving pointer selects. */
    method ServingProjection() returns (result: Result<Projection, StoreError>)
      requires Valid()
      ensures result.Ok? <==> disk.pointer.Some?
      ensures result.Ok? ==> ValidProjection(result.value) && result.value.state.StatePublished?
      ensures result.Ok? <==> disk.pointer.Some? && disk.pointer.value.version in disk.projections
      ensures result.Ok? ==> result.value == disk.projections[disk.pointer.value.version]
    {
      GuardedIsSafe(log);
      if disk.pointer.None? || disk.pointer.value.version !in disk.projections {
        return Err(MissingRecord);
      }
      return Ok(disk.projections[disk.pointer.value.version]);
    }
  }

  lemma ReconcileErrs(d: Disk, pointer: Pointer)
    ensures Reconcile(d, pointer).result.Err? ==> Reconcile(d, pointer).actions == []
  {
  }

  /** Attempts depend on the receipts only. */
  lemma {:induction false} SameAttempts(
    d: Disk, e: Disk, plan: Plan, ops: seq<Operation>, failed: bool, replies: map<Operation, Reply>)
    requires e.results == d.results
    ensures Attempts(d, plan, ops, failed, replies) == Attempts(e, plan, ops, failed, replies)
    decreases |ops|
  {
    if ops != [] {
      SameAttempts(d, e, plan, ops[1..], failed, replies);
      SameAttempts(d, e, plan, ops[1..], failed || AttemptOutcome(ops[0], failed, replies).OperationFailed?, replies);
    }
  }

  method AllSuccessful(results: seq<OperationResult>) returns (succeeded: bool)
    ensures succeeded <==> forall i | 0 <= i < |results| :: results[i].outcome.OperationSucceeded?
  {
    for i := 0 to |results|
      invariant forall j | 0 <= j < i :: results[j].outcome.OperationSucceeded?
    {
      if results[i].outcome.OperationFailed? {
        return false;
      }
    }
    return true;
  }

  lemma ReceiptsRead(d: Disk, plan: Plan, results: seq<OperationResult>)
    requires Complete(d, plan) && results == ResultsOf(d, plan)
    ensures AllReceiptsSucceeded(d, plan) <==> forall i | 0 <= i < |results| :: results[i].outcome.OperationSucceeded?
  {
    forall i | 0 <= i < |plan.operations|
      ensures HasResult(d, plan, plan.operations[i])
           && results[i].outcome == d.results[ResultKey(plan.run.id, plan.operations[i])]
    {
    }
  }
}
