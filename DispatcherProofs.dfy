/**
 * What the dispatcher promises, proved about the functions of
 * DispatcherSpec (and therefore about the Dispatcher class, whose methods
 * are proved to follow them).
 */
module DispatcherProofs {
  import opened Types
  import opened DispatcherSpec

  // ---------------------------------------------------------------------
  // One activation: `run_agent`

  /** With no pending task for the agent nothing changes: not the tasks, the cost, `last_agent` or the artifacts. */
  lemma NoPendingTaskNoEffect(w: World, name: string, configs: map<string, AgentConfig>, o: Outcome)
    requires FirstPending(TaskList(w.doc), name).None?
    ensures AgentStep(w, name, configs, o) == w
  {
    if w.doc.tasks.Some? {
      var ts := w.doc.tasks.value;
      assert MarkPending(ts, name, Skipped) == ts;
    }
  }

  /** When the remote call is not reached, what the remote would have answered makes no difference. */
  lemma NoCallOutcomeIrrelevant(w: World, name: string, configs: map<string, AgentConfig>, o1: Outcome, o2: Outcome)
    requires !CallsRemote(w.doc, name, configs)
    ensures AgentStep(w, name, configs, o1) == AgentStep(w, name, configs, o2)
  {
    if FirstPending(TaskList(w.doc), name).None? {
      NoPendingTaskNoEffect(w, name, configs, o1);
      NoPendingTaskNoEffect(w, name, configs, o2);
    }
  }

  /** The status the selected task ends with: `done` exactly when the remote call is reached and succeeds. */
  function EndStatus(d: Doc, name: string, configs: map<string, AgentConfig>, o: Outcome): string
  {
    if CallsRemote(d, name, configs) && o.Reply? then Done else StatusFailed
  }

  /** The project status after an activation with a pending task: `failed` when a configured agent's call is refused or fails. */
  function EndProjectStatus(d: Doc, name: string, configs: map<string, AgentConfig>, o: Outcome): Option<string>
  {
    if Usable(configs, name) && !(CallsRemote(d, name, configs) && o.Reply?) then Some(StatusFailed) else d.status
  }

  /** The cost after an activation with a pending task: the reported cost is added when the call is made and succeeds. */
  function EndCost(d: Doc, name: string, configs: map<string, AgentConfig>, o: Outcome): Option<real>
  {
    if CallsRemote(d, name, configs) && o.Reply? then Some(Cost(d) + ReportedCost(o.cost)) else d.currentLlmCost
  }

  /** Every activation with a pending task, in one form: the task takes its end status, then status and cost are set. */
  lemma StepNormalForm(w: World, name: string, configs: map<string, AgentConfig>, o: Outcome)
    requires FirstPending(TaskList(w.doc), name).Some?
    ensures AgentStep(w, name, configs, o).doc
      == SetTaskStatus(Taken(w.doc, name), FirstPending(TaskList(w.doc), name).value, EndStatus(w.doc, name, configs, o))
           .(status := EndProjectStatus(w.doc, name, configs, o), currentLlmCost := EndCost(w.doc, name, configs, o))
  {
    var i := FirstPending(TaskList(w.doc), name).value;
    var t := Taken(w.doc, name);
    assert t.status == w.doc.status && t.currentLlmCost == w.doc.currentLlmCost;
    if !Usable(configs, name) {
      StepUnconfigured(w, name, configs, o);
    } else if Cost(w.doc) >= CostLimit {
      StepRefused(w, name, configs, o);
    } else if o.CallFailed? {
      StepCallFailed(w, name, configs);
    } else {
      StepReplied(w, name, configs, o.cost, o.output);
    }
  }

  /** The selected task is the only task that changes, and it takes its end status. */
  lemma StepTaskUpdate(w: World, name: string, configs: map<string, AgentConfig>, o: Outcome)
    requires FirstPending(TaskList(w.doc), name).Some?
    ensures var ts := TaskList(w.doc);
      var i := FirstPending(ts, name).value;
      AgentStep(w, name, configs, o).doc.tasks
        == Some(ts[i := ts[i].(status := Some(EndStatus(w.doc, name, configs, o)))])
  {
    var ts := TaskList(w.doc);
    var i := FirstPending(ts, name).value;
    var st := EndStatus(w.doc, name, configs, o);
    StepNormalForm(w, name, configs, o);
    var t1 := TaskList(Taken(w.doc, name));
    assert t1 == ts[i := ts[i].(status := Some(InProgress))];
    assert t1[i := t1[i].(status := Some(st))] == ts[i := ts[i].(status := Some(st))];
  }

  /** A document with the four keys an activation may change cleared. */
  function Untouched(d: Doc): Doc
  {
    d.(tasks := None, lastAgent := None, status := None, currentLlmCost := None)
  }

  /** Besides the tasks, an activation with a pending task changes `last_agent`, `status` and `current_llm_cost` only. */
  lemma StepLeavesRest(w: World, name: string, configs: map<string, AgentConfig>, o: Outcome)
    requires FirstPending(TaskList(w.doc), name).Some?
    ensures Untouched(AgentStep(w, name, configs, o).doc) == Untouched(w.doc)
  {
    StepNormalForm(w, name, configs, o);
  }

  /** `last_agent` becomes the agent, whatever the outcome. */
  lemma StepLastAgent(w: World, name: string, configs: map<string, AgentConfig>, o: Outcome)
    requires FirstPending(TaskList(w.doc), name).Some?
    ensures AgentStep(w, name, configs, o).doc.lastAgent == Some(name)
  {
    StepNormalForm(w, name, configs, o);
  }

  /** The project status becomes `failed` exactly when the agent is configured but the remote call is refused or fails. */
  lemma StepStatus(w: World, name: string, configs: map<string, AgentConfig>, o: Outcome)
    requires FirstPending(TaskList(w.doc), name).Some?
    ensures AgentStep(w, name, configs, o).doc.status
      == if Usable(configs, name) && !(CallsRemote(w.doc, name, configs) && o.Reply?)
         then Some(StatusFailed) else w.doc.status
  {
    StepNormalForm(w, name, configs, o);
  }

  /** The reported cost is added exactly when the remote call is made and succeeds. */
  lemma StepCost(w: World, name: string, configs: map<string, AgentConfig>, o: Outcome)
    requires FirstPending(TaskList(w.doc), name).Some?
    ensures AgentStep(w, name, configs, o).doc.currentLlmCost
      == if CallsRemote(w.doc, name, configs) && o.Reply?
         then Some(Cost(w.doc) + ReportedCost(o.cost)) else w.doc.currentLlmCost
  {
    StepNormalForm(w, name, configs, o);
  }

  /**
   * An activation with a pending task changes that task only, and only its
   * status, which ends `done` or `failed` (never `pending`, never `skipped`);
   * `last_agent` becomes the agent; of the other keys only `status` and
   * `current_llm_cost` can change, and `status` only to `failed`.
   */
  lemma StepChangesOnlySelected(w: World, name: string, configs: map<string, AgentConfig>, o: Outcome)
    requires FirstPending(TaskList(w.doc), name).Some?
    ensures var i := FirstPending(TaskList(w.doc), name).value;
      var d' := AgentStep(w, name, configs, o).doc;
      var ts, ts' := TaskList(w.doc), TaskList(d');
      d'.tasks.Some? && |ts'| == |ts| &&
      (forall j :: 0 <= j < |ts| && j != i ==> ts'[j] == ts[j]) &&
      ts'[i] == ts[i].(status := ts'[i].status) &&
      (ts'[i].status == Some(Done) <==> CallsRemote(w.doc, name, configs) && o.Reply?) &&
      (ts'[i].status != Some(Done) ==> ts'[i].status == Some(StatusFailed)) &&
      d'.lastAgent == Some(name) &&
      (d'.status == w.doc.status || d'.status == Some(StatusFailed)) &&
      d'.(tasks := w.doc.tasks, lastAgent := w.doc.lastAgent, status := w.doc.status,
          currentLlmCost := w.doc.currentLlmCost) == w.doc
  {
    StepTaskUpdate(w, name, configs, o);
    StepLeavesRest(w, name, configs, o);
    StepLastAgent(w, name, configs, o);
    StepStatus(w, name, configs, o);
    StepCost(w, name, configs, o);
  }

  /** A missing (or empty) agent config fails the selected task and leaves project status, cost and artifacts alone. */
  lemma MissingConfigFailsTaskOnly(w: World, name: string, configs: map<string, AgentConfig>, o: Outcome)
    requires FirstPending(TaskList(w.doc), name).Some? && !Usable(configs, name)
    ensures var i := FirstPending(TaskList(w.doc), name).value;
      var w' := AgentStep(w, name, configs, o);
      TaskList(w'.doc)[i].status == Some(StatusFailed) &&
      w'.doc.status == w.doc.status && w'.doc.currentLlmCost == w.doc.currentLlmCost &&
      w'.artifacts == w.artifacts
  {
  }

  /**
   * At or above the ceiling no call is made whatever the remote would say;
   * the task fails, the cost stays, and the project status ends `failed`
   * (the `llm_cost_limit_exceeded` it was given is overwritten).
   */
  lemma CostCeilingRefuses(w: World, name: string, configs: map<string, AgentConfig>, o: Outcome)
    requires FirstPending(TaskList(w.doc), name).Some? && Usable(configs, name)
    requires Cost(w.doc) >= CostLimit
    ensures var i := FirstPending(TaskList(w.doc), name).value;
      var w' := AgentStep(w, name, configs, o);
      w' == AgentStep(w, name, configs, CallFailed) &&
      TaskList(w'.doc)[i].status == Some(StatusFailed) &&
      w'.doc.status == Some(StatusFailed) && w'.doc.status != Some(CostLimitExceeded) &&
      w'.doc.currentLlmCost == w.doc.currentLlmCost && w'.artifacts == w.artifacts
  {
  }

  /**
   * Cost changes only on a successful call, by exactly the reported cost (0.01
   * when none is reported); a failed call leaves it and sets status `failed`;
   * artifacts change only on a successful call with non-empty output.
   */
  lemma CostAccounting(w: World, name: string, configs: map<string, AgentConfig>, o: Outcome)
    ensures var w' := AgentStep(w, name, configs, o);
      (CallsRemote(w.doc, name, configs) && o.Reply? ==>
        w'.doc.currentLlmCost == Some(Cost(w.doc) + ReportedCost(o.cost)) &&
        w'.doc.status == w.doc.status) &&
      (!(CallsRemote(w.doc, name, configs) && o.Reply?) ==> w'.doc.currentLlmCost == w.doc.currentLlmCost) &&
      (CallsRemote(w.doc, name, configs) && o.CallFailed? ==> w'.doc.status == Some(StatusFailed)) &&
      (w'.artifacts != w.artifacts ==> CallsRemote(w.doc, name, configs) && o.Reply? && o.output != "")
  {
    if FirstPending(TaskList(w.doc), name).None? {
      NoPendingTaskNoEffect(w, name, configs, o);
    }
  }

  /** A reported cost that is not negative never lowers the running cost. */
  lemma StepCostMonotone(w: World, name: string, configs: map<string, AgentConfig>, o: Outcome)
    requires o.Reply? ==> ReportedCost(o.cost) >= 0.0
    ensures Cost(AgentStep(w, name, configs, o).doc) >= Cost(w.doc)
  {
    CostAccounting(w, name, configs, o);
  }

  /** The output router's table: three (agent, tool) pairs, each writing one artifact; anything else writes nothing. */
  lemma RouteTable(name: string, tools: seq<string>, output: string, arts: map<string, string>)
    requires output != ""
    ensures name == "uiux" && WriteDesign in tools ==> Route(name, tools, output, arts) == arts[DesignFile := output]
    ensures name == "project-manager" && WriteSpecification in tools ==>
      Route(name, tools, output, arts) == arts[SpecFile := output]
    ensures name == "solution-architect" && AppendToAdr in tools ==>
      Route(name, tools, output, arts) ==
        arts[AdrFile := (if AdrFile in arts then arts[AdrFile] else "") + "\n" + output + "\n"]
    ensures (!(name == "uiux" && WriteDesign in tools) &&
             !(name == "project-manager" && WriteSpecification in tools) &&
             !(name == "solution-architect" && AppendToAdr in tools)) ==>
      Route(name, tools, output, arts) == arts
  {
  }

  /** Scenario: at cost 9.5 a call reporting 1.0 succeeds (cost 10.5); the next activation is refused without cost. */
  lemma CeilingScenario(w: World, a: string, b: string, configs: map<string, AgentConfig>, out: string, o: Outcome)
    requires a != b && Usable(configs, a) && Usable(configs, b)
    requires w.doc.tasks == Some([EmptyTask.(agent := Some(a), description := Some("first"), status := Some(Pending)),
                                  EmptyTask.(agent := Some(b), description := Some("second"), status := Some(Pending))])
    requires w.doc.currentLlmCost == Some(9.5)
    ensures var w1 := AgentStep(w, a, configs, Reply(Some(1.0), out));
      var w2 := AgentStep(w1, b, configs, o);
      TaskList(w1.doc)[0].status == Some(Done) && w1.doc.currentLlmCost == Some(10.5) &&
      TaskList(w2.doc)[1].status == Some(StatusFailed) && w2.doc.status == Some(StatusFailed) &&
      w2.doc.currentLlmCost == Some(10.5)
  {
    var w1 := AgentStep(w, a, configs, Reply(Some(1.0), out));
    assert FirstPending(TaskList(w.doc), a) == Some(0);
    assert TaskList(w1.doc)[1] == TaskList(w.doc)[1];
    assert !IsPendingFor(TaskList(w1.doc)[0], b);
    assert FirstPending(TaskList(w1.doc), b) == Some(1);
  }

  // ---------------------------------------------------------------------
  // Runs of activations

  /** A run of activations keeps every key but `status`, `tasks`, `current_llm_cost` and `last_agent`, and keeps the task count. */
  lemma {:induction false} StagesKeepOtherKeys(w: World, names: seq<string>, configs: map<string, AgentConfig>, remote: string -> Outcome)
    ensures var d' := RunStages(w, names, configs, remote).doc;
      d'.correctionCycle == w.doc.correctionCycle && d'.reports == w.doc.reports &&
      d'.iterationCount == w.doc.iterationCount && d'.blockers == w.doc.blockers && d'.other == w.doc.other &&
      |TaskList(d')| == |TaskList(w.doc)| && (w.doc.tasks.Some? ==> d'.tasks.Some?)
    decreases |names|
  {
    if names != [] {
      var last := names[|names| - 1];
      var mid := RunStages(w, names[..|names| - 1], configs, remote);
      StagesKeepOtherKeys(w, names[..|names| - 1], configs, remote);
      if FirstPending(TaskList(mid.doc), last).Some? {
        StepChangesOnlySelected(mid, last, configs, remote(last));
      } else {
        NoPendingTaskNoEffect(mid, last, configs, remote(last));
      }
    }
  }

  /** `b` is `a` with, at most, different task statuses. */
  predicate SameButStatus(a: seq<Task>, b: seq<Task>)
  {
    |a| == |b| && forall j :: 0 <= j < |a| ==> b[j] == a[j].(status := b[j].status)
  }

  /** A run of activations changes tasks only in their `status`: none is added, removed, reordered or otherwise edited. */
  lemma {:induction false} StagesOnlyStatus(w: World, names: seq<string>, configs: map<string, AgentConfig>, remote: string -> Outcome)
    ensures SameButStatus(TaskList(w.doc), TaskList(RunStages(w, names, configs, remote).doc))
    decreases |names|
  {
    if names != [] {
      var last := names[|names| - 1];
      var mid := RunStages(w, names[..|names| - 1], configs, remote);
      StagesOnlyStatus(w, names[..|names| - 1], configs, remote);
      if FirstPending(TaskList(mid.doc), last).Some? {
        StepChangesOnlySelected(mid, last, configs, remote(last));
      } else {
        NoPendingTaskNoEffect(mid, last, configs, remote(last));
      }
    }
  }

  /** With non-negative reported costs, a run of activations never lowers the cost. */
  lemma {:induction false} StagesCostMonotone(w: World, names: seq<string>, configs: map<string, AgentConfig>, remote: string -> Outcome)
    requires forall n :: remote(n).Reply? ==> ReportedCost(remote(n).cost) >= 0.0
    ensures Cost(RunStages(w, names, configs, remote).doc) >= Cost(w.doc)
    decreases |names|
  {
    if names != [] {
      var last := names[|names| - 1];
      var mid := RunStages(w, names[..|names| - 1], configs, remote);
      StagesCostMonotone(w, names[..|names| - 1], configs, remote);
      StepCostMonotone(mid, last, configs, remote(last));
    }
  }

  /**
   * The task list after `k` pipeline stages of a seeded run: ten tasks in
   * pipeline order, the first `k` `done` or `failed`, the rest still the
   * untouched seeded tasks.
   */
  ghost predicate Progressed(ts: seq<Task>, k: nat)
  {
    |ts| == 10 &&
    (forall j :: 0 <= j < k && j < 10 ==>
       ts[j].agent == Some(Pipeline[j]) && (ts[j].status == Some(Done) || ts[j].status == Some(StatusFailed))) &&
    (forall j :: k <= j < 10 ==> ts[j] == InitialTasks()[j])
  }

  /** One more pipeline stage keeps the task list `Progressed`. */
  lemma ProgressStep(w0: World, k: nat, configs: map<string, AgentConfig>, remote: string -> Outcome)
    requires 0 < k <= |Pipeline|
    requires Progressed(TaskList(RunStages(w0, Pipeline[..k - 1], configs, remote).doc), k - 1)
    ensures Progressed(TaskList(RunStages(w0, Pipeline[..k], configs, remote).doc), k)
  {
    var mid := RunStages(w0, Pipeline[..k - 1], configs, remote);
    StagesStep(w0, Pipeline, k - 1, configs, remote);
    var ts := TaskList(mid.doc);
    var name := Pipeline[k - 1];
    StageTaskFound(ts, k);
    StepTaskUpdate(mid, name, configs, remote(name));
    var st := EndStatus(mid.doc, name, configs, remote(name));
    SettleOne(ts, k, st);
  }

  /** Settling stage `k`'s task as `done` or `failed` takes a list `Progressed` by `k - 1` stages to one `Progressed` by `k`. */
  lemma SettleOne(ts: seq<Task>, k: nat, st: string)
    requires 0 < k <= 10
    requires Progressed(ts, k - 1)
    requires st == Done || st == StatusFailed
    ensures Progressed(ts[k - 1 := ts[k - 1].(status := Some(st))], k)
  {
    var ts' := ts[k - 1 := ts[k - 1].(status := Some(st))];
    assert ts'[k - 1].agent == Some(Pipeline[k - 1]);
    assert forall j :: 0 <= j < 10 && j != k - 1 ==> ts'[j] == ts[j];
  }

  /** After the first `k` pipeline stages of a seeded run the task list is `Progressed`. */
  lemma {:induction false} PipelineProgress(w: World, k: nat, configs: map<string, AgentConfig>, remote: string -> Outcome)
    requires k <= |Pipeline|
    ensures Progressed(TaskList(RunStages(World(Seeded(w.doc), w.artifacts), Pipeline[..k], configs, remote).doc), k)
  {
    var w0 := World(Seeded(w.doc), w.artifacts);
    if k == 0 {
      assert Pipeline[..0] == [];
    } else {
      PipelineProgress(w, k - 1, configs, remote);
      ProgressStep(w0, k, configs, remote);
    }
  }

  /** When the earlier stages' tasks have left `pending` and stage `k`'s task is still as seeded, stage `k`'s agent finds it. */
  lemma StageTaskFound(ts: seq<Task>, k: nat)
    requires 0 < k <= 10 && |ts| == 10
    requires forall j :: 0 <= j < k - 1 ==> ts[j].status != Some(Pending)
    requires ts[k - 1] == InitialTasks()[k - 1]
    ensures FirstPending(ts, Pipeline[k - 1]) == Some(k - 1)
  {
    FirstPendingAt(ts, Pipeline[k - 1], k - 1);
  }

  /** The first pending task is the one with no pending task of the agent before it. */
  lemma FirstPendingAt(ts: seq<Task>, name: string, i: nat)
    requires i < |ts| && IsPendingFor(ts[i], name)
    requires forall j :: 0 <= j < i ==> !IsPendingFor(ts[j], name)
    ensures FirstPending(ts, name) == Some(i)
  {
  }


  /**
   * `run_workflow` replaces the task list with the ten pipeline tasks, runs
   * every stage exactly once whatever fails on the way (each task ends
   * `done` or `failed`), and always ends with status `completed`.
   */
  lemma WorkflowRunsEveryStage(w: World, configs: map<string, AgentConfig>, remote: string -> Outcome)
    ensures var d' := Workflow(w, configs, remote).doc;
      var ts := TaskList(d');
      d'.status == Some(Completed) && |ts| == 10 &&
      forall j :: 0 <= j < 10 ==>
        ts[j].agent == Some(Pipeline[j]) && (ts[j].status == Some(Done) || ts[j].status == Some(StatusFailed))
  {
    PipelineProgress(w, 10, configs, remote);
    assert Pipeline[..10] == Pipeline;
  }

  /**
   * The tasks after `k` stages of a seeded run in which every call is made:
   * stage `j`'s task ends `done` exactly when its call succeeds, later tasks
   * are untouched.
   */
  ghost predicate SettledTasks(ts: seq<Task>, k: nat, remote: string -> Outcome)
  {
    |ts| == 10 &&
    (forall j :: 0 <= j < k && j < 10 ==>
       ts[j].status == (if remote(Pipeline[j]).Reply? then Some(Done) else Some(StatusFailed))) &&
    (forall j :: k <= j < 10 ==> ts[j] == InitialTasks()[j])
  }

  /**
   * The spend grew by at most `bound` per stage, and the project status is
   * `failed` exactly when some call failed.
   */
  ghost predicate SettledSpend(d: Doc, k: nat, remote: string -> Outcome, base: real, bound: real)
  {
    Cost(d) <= base + (k as real) * bound &&
    d.status == (if exists j :: 0 <= j < k && j < 10 && remote(Pipeline[j]).CallFailed?
                 then Some(StatusFailed) else Some(InProgress))
  }

  ghost predicate Settled(d: Doc, k: nat, remote: string -> Outcome, base: real, bound: real)
  {
    SettledTasks(TaskList(d), k, remote) && SettledSpend(d, k, remote, base, bound)
  }

  lemma ScaleBound(m: nat, bound: real)
    requires m <= 10 && bound >= 0.0
    ensures (m as real) * bound <= 10.0 * bound
  {
    assert 10.0 * bound - (m as real) * bound == ((10 - m) as real) * bound;
  }

  /** A spend within `k - 1` steps of `bound` from `base` is still under the ceiling. */
  lemma UnderCeiling(spent: real, k: nat, base: real, bound: real)
    requires 0 < k <= 10 && bound >= 0.0
    requires base + 10.0 * bound < CostLimit
    requires spent <= base + ((k - 1) as real) * bound
    ensures spent < CostLimit
  {
    ScaleBound(k - 1, bound);
  }

  lemma ScaleStep(k: nat, bound: real)
    requires k > 0
    ensures (k as real) * bound == ((k - 1) as real) * bound + bound
  {
  }

  /** In a document `Settled` after `k - 1` stages, stage `k`'s agent finds its task and calls the remote. */
  lemma StageCalls(d: Doc, k: nat, configs: map<string, AgentConfig>, remote: string -> Outcome, base: real, bound: real)
    requires 0 < k <= |Pipeline|
    requires Usable(configs, Pipeline[k - 1])
    requires bound >= 0.0
    requires base + 10.0 * bound < CostLimit
    requires SettledTasks(TaskList(d), k - 1, remote)
    requires Cost(d) <= base + ((k - 1) as real) * bound
    ensures FirstPending(TaskList(d), Pipeline[k - 1]) == Some(k - 1)
    ensures CallsRemote(d, Pipeline[k - 1], configs)
  {
    var ts := TaskList(d);
    assert forall j :: 0 <= j < k - 1 ==> ts[j].status != Some(Pending);
    StageTaskFound(ts, k);
    UnderCeiling(Cost(d), k, base, bound);
  }

  /** One more stage keeps the tasks `SettledTasks`. */
  lemma SettleTasksStep(w0: World, k: nat, configs: map<string, AgentConfig>, remote: string -> Outcome, bound: real)
    requires 0 < k <= |Pipeline|
    requires forall n :: n in Pipeline ==> Usable(configs, n)
    requires bound >= 0.0
    requires Cost(w0.doc) + 10.0 * bound < CostLimit
    requires Settled(RunStages(w0, Pipeline[..k - 1], configs, remote).doc, k - 1, remote, Cost(w0.doc), bound)
    ensures SettledTasks(TaskList(RunStages(w0, Pipeline[..k], configs, remote).doc), k, remote)
  {
    var mid := RunStages(w0, Pipeline[..k - 1], configs, remote);
    StagesStep(w0, Pipeline, k - 1, configs, remote);
    var ts := TaskList(mid.doc);
    var name := Pipeline[k - 1];
    assert name in Pipeline;
    StageCalls(mid.doc, k, configs, remote, Cost(w0.doc), bound);
    StepTaskUpdate(mid, name, configs, remote(name));
    assert TaskList(RunStages(w0, Pipeline[..k], configs, remote).doc)
        == ts[k - 1 := ts[k - 1].(status := Some(EndStatus(mid.doc, name, configs, remote(name))))];
  }

  /** An activation that calls the remote adds at most `bound` to the spend when the reply costs at most `bound`. */
  lemma CostAfterCall(mid: World, name: string, configs: map<string, AgentConfig>, o: Outcome, bound: real)
    requires CallsRemote(mid.doc, name, configs)
    requires bound >= 0.0 && (o.Reply? ==> ReportedCost(o.cost) <= bound)
    ensures Cost(AgentStep(mid, name, configs, o).doc) <= Cost(mid.doc) + bound
  {
    StepCost(mid, name, configs, o);
  }

  /** An activation that calls the remote fails the project exactly when the call fails. */
  lemma StatusAfterCall(mid: World, name: string, configs: map<string, AgentConfig>, o: Outcome)
    requires CallsRemote(mid.doc, name, configs)
    ensures AgentStep(mid, name, configs, o).doc.status == if o.CallFailed? then Some(StatusFailed) else mid.doc.status
  {
    StepStatus(mid, name, configs, o);
  }

  /** The project is `failed` after `k` stages exactly when it was after `k - 1` or stage `k`'s call failed. */
  lemma FailedSoFar(k: nat, remote: string -> Outcome)
    requires 0 < k <= |Pipeline|
    ensures (exists j :: 0 <= j < k && j < 10 && remote(Pipeline[j]).CallFailed?)
         == (remote(Pipeline[k - 1]).CallFailed? || exists j :: 0 <= j < k - 1 && j < 10 && remote(Pipeline[j]).CallFailed?)
  {
    if remote(Pipeline[k - 1]).CallFailed? {
      assert 0 <= k - 1 < k && k - 1 < 10;
    }
  }

  /** Stage `k`'s activation, which calls the remote, keeps the document `SettledSpend`. */
  lemma SpendAfterStage(mid: World, k: nat, configs: map<string, AgentConfig>, remote: string -> Outcome, base: real, bound: real)
    requires 0 < k <= |Pipeline|
    requires CallsRemote(mid.doc, Pipeline[k - 1], configs)
    requires bound >= 0.0
    requires remote(Pipeline[k - 1]).Reply? ==> ReportedCost(remote(Pipeline[k - 1]).cost) <= bound
    requires SettledSpend(mid.doc, k - 1, remote, base, bound)
    ensures SettledSpend(AgentStep(mid, Pipeline[k - 1], configs, remote(Pipeline[k - 1])).doc, k, remote, base, bound)
  {
    var name := Pipeline[k - 1];
    CostAfterCall(mid, name, configs, remote(name), bound);
    StatusAfterCall(mid, name, configs, remote(name));
    SpendStep(mid.doc, AgentStep(mid, name, configs, remote(name)).doc, k, remote, base, bound);
  }

  /** A stage that adds at most `bound` and fails the project exactly when its call fails keeps the spend settled. */
  lemma SpendStep(d: Doc, d': Doc, k: nat, remote: string -> Outcome, base: real, bound: real)
    requires 0 < k <= |Pipeline|
    requires Cost(d') <= Cost(d) + bound
    requires d'.status == if remote(Pipeline[k - 1]).CallFailed? then Some(StatusFailed) else d.status
    requires SettledSpend(d, k - 1, remote, base, bound)
    ensures SettledSpend(d', k, remote, base, bound)
  {
    ScaleStep(k, bound);
    FailedSoFar(k, remote);
  }

  /** One more stage keeps the document `SettledSpend`. */
  lemma SettleSpendStep(w0: World, k: nat, configs: map<string, AgentConfig>, remote: string -> Outcome, bound: real)
    requires 0 < k <= |Pipeline|
    requires forall n :: n in Pipeline ==> Usable(configs, n)
    requires bound >= 0.0
    requires forall n :: n in Pipeline && remote(n).Reply? ==> ReportedCost(remote(n).cost) <= bound
    requires Cost(w0.doc) + 10.0 * bound < CostLimit
    requires Settled(RunStages(w0, Pipeline[..k - 1], configs, remote).doc, k - 1, remote, Cost(w0.doc), bound)
    ensures SettledSpend(RunStages(w0, Pipeline[..k], configs, remote).doc, k, remote, Cost(w0.doc), bound)
  {
    var mid := RunStages(w0, Pipeline[..k - 1], configs, remote);
    StagesStep(w0, Pipeline, k - 1, configs, remote);
    assert Pipeline[k - 1] in Pipeline;
    StageCalls(mid.doc, k, configs, remote, Cost(w0.doc), bound);
    SpendAfterStage(mid, k, configs, remote, Cost(w0.doc), bound);
  }

  /**
   * With every agent configured and the spend kept under the ceiling, the
   * first `k` stages of a seeded run leave the document `Settled`.
   */
  lemma {:induction false} PipelineOutcomes(w: World, k: nat, configs: map<string, AgentConfig>, remote: string -> Outcome, bound: real)
    requires k <= |Pipeline|
    requires forall n :: n in Pipeline ==> Usable(configs, n)
    requires bound >= 0.0
    requires forall n :: n in Pipeline && remote(n).Reply? ==> ReportedCost(remote(n).cost) <= bound
    requires Cost(w.doc) + 10.0 * bound < CostLimit
    ensures Settled(RunStages(World(Seeded(w.doc), w.artifacts), Pipeline[..k], configs, remote).doc, k, remote, Cost(w.doc), bound)
  {
    var w0 := World(Seeded(w.doc), w.artifacts);
    assert Cost(w0.doc) == Cost(w.doc);
    if k == 0 {
      assert Pipeline[..0] == [];
    } else {
      PipelineOutcomes(w, k - 1, configs, remote, bound);
      SettleTasksStep(w0, k, configs, remote, bound);
      SettleSpendStep(w0, k, configs, remote, bound);
    }
  }

  /** Every call succeeding under the ceiling: all ten tasks end `done` and the project `completed`. */
  lemma AllStagesSucceed(w: World, configs: map<string, AgentConfig>, remote: string -> Outcome, bound: real)
    requires forall n :: n in Pipeline ==> Usable(configs, n) && remote(n).Reply?
    requires bound >= 0.0 && forall n :: n in Pipeline ==> ReportedCost(remote(n).cost) <= bound
    requires Cost(w.doc) + 10.0 * bound < CostLimit
    ensures var d' := Workflow(w, configs, remote).doc;
      d'.status == Some(Completed) && |TaskList(d')| == 10 &&
      forall j :: 0 <= j < 10 ==> TaskList(d')[j].status == Some(Done)
  {
    PipelineOutcomes(w, 10, configs, remote, bound);
    assert Pipeline[..10] == Pipeline;
  }

  /**
   * Continue but flag: when `lead-qa`'s call fails and the others succeed,
   * the project is `failed` after the ten stages, yet `security-auditor`,
   * `senior-devops` and `doc-agent` still ran (their tasks are `done`), and
   * the run still ends `completed`.
   */
  lemma LeadQaFailureContinues(w: World, configs: map<string, AgentConfig>, remote: string -> Outcome, bound: real)
    requires forall n :: n in Pipeline ==> Usable(configs, n)
    requires remote("lead-qa") == CallFailed
    requires forall n :: n in Pipeline && n != "lead-qa" ==> remote(n).Reply?
    requires bound >= 0.0 && forall n :: n in Pipeline && remote(n).Reply? ==> ReportedCost(remote(n).cost) <= bound
    requires Cost(w.doc) + 10.0 * bound < CostLimit
    ensures var stages := RunStages(World(Seeded(w.doc), w.artifacts), Pipeline, configs, remote).doc;
      |TaskList(stages)| == 10 && stages.status == Some(StatusFailed) &&
      TaskList(stages)[6].status == Some(StatusFailed) &&
      TaskList(stages)[7].status == Some(Done) &&
      TaskList(stages)[8].status == Some(Done) &&
      TaskList(stages)[9].status == Some(Done) &&
      Workflow(w, configs, remote).doc.status == Some(Completed)
  {
    PipelineOutcomes(w, 10, configs, remote, bound);
    assert Pipeline[..10] == Pipeline;
    assert Pipeline[6] == "lead-qa" && remote(Pipeline[6]).CallFailed?;
    assert Pipeline[7] in Pipeline && Pipeline[7] != "lead-qa";
    assert Pipeline[8] in Pipeline && Pipeline[8] != "lead-qa";
    assert Pipeline[9] in Pipeline && Pipeline[9] != "lead-qa";
  }

  // ---------------------------------------------------------------------
  // The correction cycle

  /** `t` is the fix task of some report of `rs` that needs a fix. */
  ghost predicate FixOfSome(rs: seq<Report>, t: Task, c: int)
  {
    exists j :: 0 <= j < |rs| && NeedsFix(rs[j]) && t == FixTask(rs[j], c)
  }

  /** Every fix task is built from a report that needs a fix, and every report that needs one gets its fix task. */
  lemma {:induction false} FixTasksFromReports(rs: seq<Report>, c: int)
    ensures forall k :: 0 <= k < |FixTasks(rs, c)| ==> FixOfSome(rs, FixTasks(rs, c)[k], c)
    ensures forall j :: 0 <= j < |rs| && NeedsFix(rs[j]) ==> FixTask(rs[j], c) in FixTasks(rs, c)
    decreases |rs|
  {
    if rs != [] {
      var init := rs[..|rs| - 1];
      var last := rs[|rs| - 1];
      FixTasksFromReports(init, c);
      var before := FixTasks(init, c);
      var tail := if NeedsFix(last) then [FixTask(last, c)] else [];
      var fs := FixTasks(rs, c);
      assert fs == before + tail;
      forall k | 0 <= k < |fs|
        ensures FixOfSome(rs, fs[k], c)
      {
        if k < |before| {
          assert FixOfSome(init, before[k], c);
          var j :| 0 <= j < |init| && NeedsFix(init[j]) && before[k] == FixTask(init[j], c);
          assert rs[j] == init[j];
          assert fs[k] == before[k];
        } else {
          assert NeedsFix(last) && fs[k] == FixTask(last, c);
        }
      }
      forall j | 0 <= j < |rs| && NeedsFix(rs[j])
        ensures FixTask(rs[j], c) in fs
      {
        if j < |init| {
          assert rs[j] == init[j];
          assert FixTask(init[j], c) in before;
        } else {
          assert FixTask(last, c) in tail;
        }
      }
    }
  }

  /** The positions of the reports that need a fix, in increasing order. */
  function NeedIndices(rs: seq<Report>): (idx: seq<int>)
    ensures forall k :: 0 <= k < |idx| ==> 0 <= idx[k] < |rs| && NeedsFix(rs[idx[k]])
    ensures forall k, l :: 0 <= k < l < |idx| ==> idx[k] < idx[l]
    ensures forall j :: 0 <= j < |rs| && NeedsFix(rs[j]) ==> j in idx
    decreases |rs|
  {
    if rs == [] then []
    else
      var init := rs[..|rs| - 1];
      assert forall j :: 0 <= j < |init| ==> init[j] == rs[j];
      NeedIndices(init) + (if NeedsFix(rs[|rs| - 1]) then [|rs| - 1] else [])
  }

  /** The `k`-th fix task is built from the `k`-th report that needs a fix: exactly one fix task per such report, in report order. */
  lemma {:induction false} FixTasksInOrder(rs: seq<Report>, c: int)
    ensures |FixTasks(rs, c)| == |NeedIndices(rs)|
    ensures forall k :: 0 <= k < |FixTasks(rs, c)| ==> FixTasks(rs, c)[k] == FixTask(rs[NeedIndices(rs)[k]], c)
    decreases |rs|
  {
    if rs != [] {
      var init := rs[..|rs| - 1];
      FixTasksInOrder(init, c);
      var fs := FixTasks(rs, c);
      var idx := NeedIndices(rs);
      assert |fs| == |idx|;
      forall k | 0 <= k < |fs|
        ensures fs[k] == FixTask(rs[idx[k]], c)
      {
        if k < |FixTasks(init, c)| {
          assert fs[k] == FixTasks(init, c)[k];
          assert idx[k] == NeedIndices(init)[k];
          assert rs[idx[k]] == init[idx[k]];
        }
      }
    }
  }

  /** A round synthesizes as many fix tasks as there are reports that need one. */
  lemma {:induction false} FixTasksCount(rs: seq<Report>, c: int)
    ensures |FixTasks(rs, c)| == |set j | 0 <= j < |rs| && NeedsFix(rs[j])|
    decreases |rs|
  {
    if rs != [] {
      var n := |rs| - 1;
      var init := rs[..n];
      FixTasksCount(init, c);
      var before := set j | 0 <= j < |init| && NeedsFix(init[j]);
      var all := set j | 0 <= j < |rs| && NeedsFix(rs[j]);
      if NeedsFix(rs[n]) {
        assert all == before + {n};
        assert n !in before;
      } else {
        assert all == before;
      }
    }
  }

  /** The task synthesized from a report: an `auto-fixer` task, pending, priority 1, id `fix-{related_task}-{cycle}`, depending on the related task. */
  lemma FixTaskShape(r: Report, c: int)
    ensures var t := FixTask(r, c);
      t.id == Some("fix-" + RelatedText(r.relatedTask) + "-" + IntToString(c)) &&
      t.agent == Some(AutoFixer) && t.assignedTo == Some(AutoFixer) &&
      t.status == Some(Pending) && t.priority == Some(1) &&
      t.dependencies == Some([Dependency(r.relatedTask)])
  {
  }

  /** User feedback reports never yield a fix task. */
  lemma FeedbackNeverFixed(rs: seq<Report>, fb: Report, c: int)
    requires fb.kind == Some(UserFeedback)
    ensures FixTasks(rs + [fb], c) == FixTasks(rs, c)
  {
    assert (rs + [fb])[..|rs|] == rs;
  }

  /** With no report needing a fix, a round synthesizes no task. */
  lemma {:induction false} NothingToFix(rs: seq<Report>, c: int)
    requires forall j :: 0 <= j < |rs| ==> !NeedsFix(rs[j])
    ensures FixTasks(rs, c) == []
    decreases |rs|
  {
    if rs != [] {
      NothingToFix(rs[..|rs| - 1], c);
    }
  }

  /** A second synthesis over the marked reports adds no task: fixed reports are never turned into duplicates. */
  lemma SecondRoundAddsNothing(d: Doc, c: int, c2: int)
    ensures var d1 := Synthesize(d, c);
      TaskList(d1) == TaskList(d) + FixTasks(d.reports.GetOr([]), c) &&
      FixTasks(d1.reports.GetOr([]), c2) == [] &&
      Synthesize(d1, c2).tasks == d1.tasks
  {
    var d1 := Synthesize(d, c);
    NothingToFix(d1.reports.GetOr([]), c2);
  }

  /** Outside `tests_failed` / `vulnerabilities_found` a correction round does nothing; escalated projects therefore stay as they are. */
  lemma CorrectionIdleUnlessTriggered(w: World, configs: map<string, AgentConfig>, remote: string -> Outcome)
    requires !Triggered(w.doc.status)
    ensures Correction(w, configs, remote) == w
  {
  }

  /**
   * A triggered round adds exactly one to `correction_cycle`.  If that makes
   * it exceed 3, status becomes `human_intervention_required` and no task or
   * report changes, and every later round does nothing.
   */
  lemma CorrectionCountsAndEscalates(w: World, configs: map<string, AgentConfig>, remote: string -> Outcome)
    requires Triggered(w.doc.status)
    ensures var w' := Correction(w, configs, remote);
      w'.doc.correctionCycle == Some(w.doc.correctionCycle.GetOr(0) + 1) &&
      (w.doc.correctionCycle.GetOr(0) + 1 > MaxCorrectionCycles ==>
        w'.doc.status == Some(HumanIntervention) && w'.doc.tasks == w.doc.tasks &&
        w'.doc.reports == w.doc.reports && Correction(w', configs, remote) == w')
  {
    var c := w.doc.correctionCycle.GetOr(0) + 1;
    if c <= MaxCorrectionCycles {
      var d1 := w.doc.(correctionCycle := Some(c));
      StagesKeepOtherKeys(World(Synthesize(d1, c), w.artifacts), Recovery, configs, remote);
    }
  }

  /**
   * A round that does not escalate appends the fix tasks after the existing
   * ones before the recovery agents run, and leaves every report that
   * needed a fix marked `fixed` (and every other report as it was).
   */
  lemma CorrectionSynthesizes(w: World, configs: map<string, AgentConfig>, remote: string -> Outcome)
    requires Triggered(w.doc.status)
    requires w.doc.correctionCycle.GetOr(0) + 1 <= MaxCorrectionCycles
    ensures var c := w.doc.correctionCycle.GetOr(0) + 1;
      var rs := w.doc.reports.GetOr([]);
      var w' := Correction(w, configs, remote);
      |TaskList(w'.doc)| == |TaskList(w.doc)| + |FixTasks(rs, c)| &&
      w'.doc.reports == (if w.doc.reports.None? then None else Some(MarkFixed(rs))) &&
      (forall j :: 0 <= j < |rs| ==>
        (NeedsFix(rs[j]) ==> MarkFixed(rs)[j].status == Some(Fixed)) &&
        (!NeedsFix(rs[j]) ==> MarkFixed(rs)[j] == rs[j])) &&
      FixTasks(w'.doc.reports.GetOr([]), c) == []
  {
    var c := w.doc.correctionCycle.GetOr(0) + 1;
    var d1 := w.doc.(correctionCycle := Some(c));
    var start := World(Synthesize(d1, c), w.artifacts);
    assert Correction(w, configs, remote) == RunStages(start, Recovery, configs, remote);
    SecondRoundAddsNothing(d1, c, c);
    StagesKeepOtherKeys(start, Recovery, configs, remote);
  }

  /**
   * After a round that does not escalate, the task list is the old one
   * followed by exactly the fix tasks; the recovery agents that run next
   * change task statuses only.
   */
  lemma CorrectionAppendsFixes(w: World, configs: map<string, AgentConfig>, remote: string -> Outcome)
    requires Triggered(w.doc.status)
    requires w.doc.correctionCycle.GetOr(0) + 1 <= MaxCorrectionCycles
    ensures var c := w.doc.correctionCycle.GetOr(0) + 1;
      SameButStatus(TaskList(w.doc) + FixTasks(w.doc.reports.GetOr([]), c), TaskList(Correction(w, configs, remote).doc))
  {
    var c := w.doc.correctionCycle.GetOr(0) + 1;
    var d1 := w.doc.(correctionCycle := Some(c));
    var start := World(Synthesize(d1, c), w.artifacts);
    assert Correction(w, configs, remote) == RunStages(start, Recovery, configs, remote);
    SecondRoundAddsNothing(d1, c, c);
    StagesOnlyStatus(start, Recovery, configs, remote);
  }

  /** Every task carries a `description`, which `_call_llm_agent` reads outside its exception handler. */
  ghost predicate Described(ts: seq<Task>)
  {
    forall j :: 0 <= j < |ts| ==> ts[j].description.Some?
  }

  /** Changing statuses keeps every task's description. */
  lemma DescribedButStatus(a: seq<Task>, b: seq<Task>)
    requires SameButStatus(a, b) && Described(a)
    ensures Described(b)
  {
    forall j | 0 <= j < |b|
      ensures b[j].description.Some?
    {
      assert b[j].description == a[j].description;
    }
  }

  /** Every task any stage of `run_workflow` can take carries a description: the seeded ones do, and stages change only statuses. */
  lemma WorkflowTasksDescribed(w: World, k: nat, configs: map<string, AgentConfig>, remote: string -> Outcome)
    requires k <= |Pipeline|
    ensures Described(TaskList(RunStages(World(Seeded(w.doc), w.artifacts), Pipeline[..k], configs, remote).doc))
  {
    var w0 := World(Seeded(w.doc), w.artifacts);
    StagesOnlyStatus(w0, Pipeline[..k], configs, remote);
    DescribedButStatus(TaskList(w0.doc), TaskList(RunStages(w0, Pipeline[..k], configs, remote).doc));
  }

  /** A correction round whose stored tasks all carry a description leaves every task described: fix tasks have one too. */
  lemma CorrectionTasksDescribed(w: World, configs: map<string, AgentConfig>, remote: string -> Outcome)
    requires Described(TaskList(w.doc))
    ensures Described(TaskList(Correction(w, configs, remote).doc))
  {
    if Triggered(w.doc.status) && w.doc.correctionCycle.GetOr(0) + 1 <= MaxCorrectionCycles {
      var c := w.doc.correctionCycle.GetOr(0) + 1;
      CorrectionAppendsFixes(w, configs, remote);
      var all := TaskList(w.doc) + FixTasks(w.doc.reports.GetOr([]), c);
      assert Described(all);
      DescribedButStatus(all, TaskList(Correction(w, configs, remote).doc));
    }
  }

  /** A workflow run never lowers the cost when reported costs are not negative. */
  lemma WorkflowCostMonotone(w: World, configs: map<string, AgentConfig>, remote: string -> Outcome)
    requires forall n :: remote(n).Reply? ==> ReportedCost(remote(n).cost) >= 0.0
    ensures Cost(Workflow(w, configs, remote).doc) >= Cost(w.doc)
  {
    var seeded := World(Seeded(w.doc), w.artifacts);
    StagesCostMonotone(seeded, Pipeline, configs, remote);
    assert Cost(seeded.doc) == Cost(w.doc);
  }

  /** A correction round never lowers the cost when reported costs are not negative. */
  lemma CorrectionCostMonotone(w: World, configs: map<string, AgentConfig>, remote: string -> Outcome)
    requires forall n :: remote(n).Reply? ==> ReportedCost(remote(n).cost) >= 0.0
    ensures Cost(Correction(w, configs, remote).doc) >= Cost(w.doc)
  {
    if Triggered(w.doc.status) {
      var c := w.doc.correctionCycle.GetOr(0) + 1;
      var d1 := w.doc.(correctionCycle := Some(c));
      if c <= MaxCorrectionCycles {
        var start := World(Synthesize(d1, c), w.artifacts);
        StagesCostMonotone(start, Recovery, configs, remote);
        assert Cost(start.doc) == Cost(w.doc);
      }
    }
  }

  // ---------------------------------------------------------------------
  // Loading the state

  /** `load_state`: `{status: init}` for a project without a file, the fallback document for an unreadable one, else the stored document. */
  lemma LoadFallbacks(docs: Docs, p: ProjectId)
    ensures p !in docs ==> Load(docs, p) == EmptyDoc.(status := Some(Init))
    ensures p in docs && docs[p].Malformed? ==>
      Load(docs, p) == EmptyDoc.(status := Some(Init), tasks := Some([]), blockers := Some([]))
    ensures p in docs && docs[p].Parsed? && docs[p].doc.status.Some? ==> Load(docs, p) == docs[p].doc
  {
  }
}
