/**
 * What the dispatcher does to one project, as functions on values: one
 * agent activation (`AgentStep`), a run of activations (`RunStages`), the
 * full pipeline (`Workflow`) and one self-correction round (`Correction`).
 * The class in Dispatcher.dfy is proved to follow these functions, and
 * DispatcherProofs.dfy proves what the pipeline promises about them.
 *
 * The agent registry (agents.yaml) is a map from agent name to config, and
 * the remote text-generation call is an oracle outcome per agent.
 */
module DispatcherSpec {
  import opened Types
  import ContextManager

  /** The ten pipeline agents, in the order `run_workflow` activates them. */
  const Pipeline: seq<string> := [
    "uiux", "project-manager", "solution-architect", "database-architect", "backend-dev",
    "frontend-dev", "lead-qa", "security-auditor", "senior-devops", "doc-agent"]

  /** The description of each seeded task, index for index with `Pipeline`. */
  const Descriptions: seq<string> := [
    "Создать дизайн и UX-описание",
    "Сформировать техническую спецификацию",
    "Принять архитектурные решения",
    "Сгенерировать миграции БД",
    "Реализовать backend-логику",
    "Реализовать frontend-логику",
    "Запустить тесты",
    "Провести аудит безопасности",
    "Подготовить Dockerfile и docker-compose",
    "Сгенерировать документацию и LICENSE"]

  const AutoFixer := "auto-fixer"

  /** The agents a correction round re-activates, in order. */
  const Recovery: seq<string> := [AutoFixer, "backend-dev", "lead-qa"]

  /** Spend ceiling checked before every remote call. */
  const CostLimit: real := 10.0

  /** Cost recorded when a successful response does not report one. */
  const DefaultCallCost: real := 0.01

  /** Correction rounds allowed before escalation to a human. */
  const MaxCorrectionCycles := 3

  const FixPrefix := "Исправить: "

  // Tool capabilities and the artifacts the output router writes
  const WriteDesign := "context_manager.write_design"
  const WriteSpecification := "context_manager.write_specification"
  const AppendToAdr := "context_manager.append_to_adr"
  const DesignFile := "DESIGN.md"
  const SpecFile := "specification.md"
  const AdrFile := "adr_log.md"

  /** An entry of agents.yaml; each key may be absent. */
  datatype AgentConfig = AgentConfig(role: Option<string>, model: Option<string>, tools: Option<seq<string>>,
                                     others: map<string, string>)

  /** An agent entry with no keys at all. */
  const EmptyConfig := AgentConfig(None, None, None, map[])

  /** `if not agent_config`: a missing entry and an empty one are both unusable; an entry with any key is usable. */
  predicate Usable(configs: map<string, AgentConfig>, name: string)
  {
    name in configs && configs[name] != EmptyConfig
  }

  /** What the remote answers: a 200 response (cost if reported, and the `result` text), or anything else. */
  datatype Outcome = Reply(cost: Option<real>, output: string) | CallFailed

  /** The project state document together with the project's artifact files. */
  datatype World = World(doc: Doc, artifacts: map<string, string>)

  /** `_generate_initial_tasks`: one pending task per pipeline agent, in pipeline order. */
  function InitialTasks(): (ts: seq<Task>)
    ensures |ts| == |Pipeline| == 10
    ensures forall i :: 0 <= i < |ts| ==> ts[i].agent == Some(Pipeline[i]) && ts[i].status == Some(Pending)
  {
    seq(10, i requires 0 <= i < 10 =>
      EmptyTask.(agent := Some(Pipeline[i]), description := Some(Descriptions[i]), status := Some(Pending)))
  }

  predicate IsPendingFor(t: Task, name: string)
  {
    t.agent == Some(name) && t.status == Some(Pending)
  }

  /** `_get_next_task_for_agent`: the index of the first pending task of `name`, in list order. */
  function FirstPending(ts: seq<Task>, name: string): (r: Option<nat>)
    ensures r.Some? ==> r.value < |ts| && IsPendingFor(ts[r.value], name)
    ensures r.Some? ==> forall j :: 0 <= j < r.value ==> !IsPendingFor(ts[j], name)
    ensures r.None? ==> forall j :: 0 <= j < |ts| ==> !IsPendingFor(ts[j], name)
    decreases |ts|
  {
    if ts == [] then None
    else if IsPendingFor(ts[0], name) then Some(0)
    else match FirstPending(ts[1..], name)
      case None => None
      case Some(k) => Some(k + 1)
  }

  /** `_mark_agent_status`: every pending task of `name` takes status `st`. */
  function MarkPending(ts: seq<Task>, name: string, st: string): seq<Task>
  {
    seq(|ts|, i requires 0 <= i < |ts| => if IsPendingFor(ts[i], name) then ts[i].(status := Some(st)) else ts[i])
  }

  function MarkedTasks(tasks: Option<seq<Task>>, name: string, st: string): Option<seq<Task>>
  {
    match tasks
    case None => None
    case Some(ts) => Some(MarkPending(ts, name, st))
  }

  function TaskList(d: Doc): seq<Task>
  {
    d.tasks.GetOr([])
  }

  /** `self.state.get('current_llm_cost', 0.0)` */
  function Cost(d: Doc): real
  {
    d.currentLlmCost.GetOr(0.0)
  }

  function ReportedCost(c: Option<real>): real
  {
    c.GetOr(DefaultCallCost)
  }

  /** The `_mark_task_*` helpers: task `i` takes status `st`. */
  function SetTaskStatus(d: Doc, i: nat, st: string): Doc
    requires d.tasks.Some? && i < |d.tasks.value|
  {
    d.(tasks := Some(d.tasks.value[i := d.tasks.value[i].(status := Some(st))]))
  }

  /**
   * `_handle_agent_output`: route a non-empty output to the artifact that the
   * (agent, tool) table names; nothing but those three artifacts can change.
   */
  function Route(name: string, tools: seq<string>, output: string, arts: map<string, string>): (r: map<string, string>)
    ensures forall f :: f != DesignFile && f != SpecFile && f != AdrFile ==>
      (f in r <==> f in arts) && (f in arts ==> r[f] == arts[f])
    ensures output == "" ==> r == arts
  {
    if output == "" then arts
    else
      var a1 := if WriteDesign in tools && name == "uiux" then arts[DesignFile := output] else arts;
      var a2 := if WriteSpecification in tools && name == "project-manager" then a1[SpecFile := output] else a1;
      if AppendToAdr in tools && name == "solution-architect" then
        a2[AdrFile := (if AdrFile in a2 then a2[AdrFile] else "") + "\n" + output + "\n"]
      else a2
  }

  /** Whether activating `name` reaches the remote call: a pending task, a usable config and cost under the ceiling. */
  predicate CallsRemote(d: Doc, name: string, configs: map<string, AgentConfig>)
  {
    FirstPending(TaskList(d), name).Some? && Usable(configs, name) && Cost(d) < CostLimit
  }

  /** `run_agent(name)`, with `outcome` what the remote would answer. */
  function AgentStep(w: World, name: string, configs: map<string, AgentConfig>, outcome: Outcome): World
  {
    match FirstPending(TaskList(w.doc), name)
    case None =>
      World(w.doc.(tasks := MarkedTasks(w.doc.tasks, name, Skipped)), w.artifacts)
    case Some(i) =>
      var d1 := SetTaskStatus(w.doc, i, InProgress).(lastAgent := Some(name));
      if !Usable(configs, name) then
        World(SetTaskStatus(d1, i, StatusFailed), w.artifacts)
      else if Cost(d1) >= CostLimit then
        // the cost guard sets `llm_cost_limit_exceeded`, which the failure branch then overwrites
        World(SetTaskStatus(d1, i, StatusFailed).(status := Some(StatusFailed)), w.artifacts)
      else match outcome
        case CallFailed =>
          World(SetTaskStatus(d1, i, StatusFailed).(status := Some(StatusFailed)), w.artifacts)
        case Reply(c, out) =>
          World(SetTaskStatus(d1.(currentLlmCost := Some(Cost(d1) + ReportedCost(c))), i, Done),
                Route(name, configs[name].tools.GetOr([]), out, w.artifacts))
  }

  /** The document with the agent's first pending task taken: `in_progress`, and the agent recorded as `last_agent`. */
  function Taken(d: Doc, name: string): Doc
    requires FirstPending(TaskList(d), name).Some?
  {
    var i := FirstPending(TaskList(d), name).value;
    SetTaskStatus(d, i, InProgress).(lastAgent := Some(name))
  }

  /** Without a usable config only the task fails. */
  lemma StepUnconfigured(w: World, name: string, configs: map<string, AgentConfig>, o: Outcome)
    requires FirstPending(TaskList(w.doc), name).Some? && !Usable(configs, name)
    ensures AgentStep(w, name, configs, o).doc
      == SetTaskStatus(Taken(w.doc, name), FirstPending(TaskList(w.doc), name).value, StatusFailed)
  {
  }

  /** At the ceiling the task and the project fail. */
  lemma StepRefused(w: World, name: string, configs: map<string, AgentConfig>, o: Outcome)
    requires FirstPending(TaskList(w.doc), name).Some? && Usable(configs, name) && Cost(w.doc) >= CostLimit
    ensures AgentStep(w, name, configs, o).doc
      == SetTaskStatus(Taken(w.doc, name), FirstPending(TaskList(w.doc), name).value, StatusFailed).(status := Some(StatusFailed))
  {
    assert Cost(Taken(w.doc, name)) == Cost(w.doc);
  }

  /** A failed call fails the task and the project. */
  lemma StepCallFailed(w: World, name: string, configs: map<string, AgentConfig>)
    requires CallsRemote(w.doc, name, configs)
    ensures AgentStep(w, name, configs, CallFailed).doc
      == SetTaskStatus(Taken(w.doc, name), FirstPending(TaskList(w.doc), name).value, StatusFailed).(status := Some(StatusFailed))
  {
    assert Cost(Taken(w.doc, name)) == Cost(w.doc);
  }

  /** A reply completes the task and charges its cost. */
  lemma StepReplied(w: World, name: string, configs: map<string, AgentConfig>, c: Option<real>, out: string)
    requires CallsRemote(w.doc, name, configs)
    ensures AgentStep(w, name, configs, Reply(c, out)).doc
      == SetTaskStatus(Taken(w.doc, name).(currentLlmCost := Some(Cost(w.doc) + ReportedCost(c))),
                       FirstPending(TaskList(w.doc), name).value, Done)
  {
    assert Cost(Taken(w.doc, name)) == Cost(w.doc);
  }

  /** Activate each agent of `names` in turn. */
  function RunStages(w: World, names: seq<string>, configs: map<string, AgentConfig>, remote: string -> Outcome): World
    decreases |names|
  {
    if names == [] then w
    else
      var last := names[|names| - 1];
      AgentStep(RunStages(w, names[..|names| - 1], configs, remote), last, configs, remote(last))
  }

  /** One more stage: running `names[..k + 1]` is running `names[..k]`, then activating `names[k]`. */
  lemma StagesStep(w: World, names: seq<string>, k: nat, configs: map<string, AgentConfig>, remote: string -> Outcome)
    requires k < |names|
    ensures RunStages(w, names[..k + 1], configs, remote)
         == AgentStep(RunStages(w, names[..k], configs, remote), names[k], configs, remote(names[k]))
  {
    assert names[..k + 1][..k] == names[..k];
  }
  /** The document as `run_workflow` leaves it before the first activation. */
  function Seeded(d: Doc): Doc
  {
    d.(tasks := Some(InitialTasks()), status := Some(InProgress))
  }

  /** `run_workflow`: seed, run the ten stages, then mark the project completed. */
  function Workflow(w: World, configs: map<string, AgentConfig>, remote: string -> Outcome): World
  {
    var r := RunStages(World(Seeded(w.doc), w.artifacts), Pipeline, configs, remote);
    World(r.doc.(status := Some(Completed)), r.artifacts)
  }

  /** The statuses on which `handle_correction_cycle` acts. */
  predicate Triggered(status: Option<string>)
  {
    status == Some(TestsFailed) || status == Some(VulnerabilitiesFound)
  }

  /** A QA or security report not yet marked fixed. */
  predicate NeedsFix(r: Report)
  {
    (r.kind == Some(QaFunctional) || r.kind == Some(SecurityAudit)) && r.status != Some(Fixed)
  }

  /** How the fix-task id prints `report.get('related_task', 'unknown')`. */
  function RelatedText(rt: Option<Scalar>): string
  {
    match rt
    case None => "unknown"
    case Some(Null) => "None"
    case Some(Str(s)) => s
  }

  /** `report.get('related_task', '')` */
  function Dependency(rt: Option<Scalar>): Scalar
  {
    rt.GetOr(Str(""))
  }

  /** The remedial task synthesized from report `r` in correction round `c`. */
  function FixTask(r: Report, c: int): Task
  {
    Task(Some("fix-" + RelatedText(r.relatedTask) + "-" + IntToString(c)),
         Some(AutoFixer),
         Some(FixPrefix + r.content.GetOr("")),
         Some(Pending),
         None,
         Some(1),
         Some([Dependency(r.relatedTask)]),
         Some(AutoFixer),
         Some([]),
         Some([]))
  }

  /** The fix tasks a round appends: one per report that needs a fix, in report order. */
  function FixTasks(rs: seq<Report>, c: int): (fs: seq<Task>)
    ensures |fs| <= |rs|
    ensures forall k :: 0 <= k < |fs| ==>
      fs[k].agent == Some(AutoFixer) && fs[k].status == Some(Pending) && fs[k].priority == Some(1) &&
      fs[k].description.Some?
    decreases |rs|
  {
    if rs == [] then []
    else
      var last := rs[|rs| - 1];
      FixTasks(rs[..|rs| - 1], c) + (if NeedsFix(last) then [FixTask(last, c)] else [])
  }

  /** One more report: the fix tasks of `rs[..k + 1]` are those of `rs[..k]`, then `rs[k]`'s if it needs one. */
  lemma FixTasksStep(rs: seq<Report>, k: nat, c: int)
    requires k < |rs|
    ensures FixTasks(rs[..k + 1], c) == FixTasks(rs[..k], c) + (if NeedsFix(rs[k]) then [FixTask(rs[k], c)] else [])
  {
    assert rs[..k + 1][..k] == rs[..k];
  }

  function MarkOne(r: Report): Report
  {
    if NeedsFix(r) then r.(status := Some(Fixed)) else r
  }

  /** Every report that needs a fix is marked `fixed`. */
  function MarkFixed(rs: seq<Report>): seq<Report>
  {
    seq(|rs|, i requires 0 <= i < |rs| => MarkOne(rs[i]))
  }

  /** The document after the report loop of round `c`. */
  function Synthesize(d: Doc, c: int): Doc
  {
    var rs := d.reports.GetOr([]);
    var fixes := FixTasks(rs, c);
    d.(tasks := if fixes == [] then d.tasks else Some(d.tasks.GetOr([]) + fixes),
       reports := if d.reports.None? then None else Some(MarkFixed(rs)))
  }

  /** `handle_correction_cycle` */
  function Correction(w: World, configs: map<string, AgentConfig>, remote: string -> Outcome): World
  {
    if !Triggered(w.doc.status) then w
    else
      var c := w.doc.correctionCycle.GetOr(0) + 1;
      var d1 := w.doc.(correctionCycle := Some(c));
      if c > MaxCorrectionCycles then World(d1.(status := Some(HumanIntervention)), w.artifacts)
      else RunStages(World(Synthesize(d1, c), w.artifacts), Recovery, configs, remote)
  }

  /** The document `load_state` falls back to when the state file cannot be read. */
  const Fallback := EmptyDoc.(status := Some(Init), tasks := Some([]), blockers := Some([]))

  /** `load_state`: the read document, or the fallback on a read error. */
  function Load(docs: Docs, p: ProjectId): (d: Doc)
    ensures d.status.Some?
  {
    match ContextManager.ReadState(docs, p)
    case Loaded(d) => d
    case DecodeError => Fallback
  }
}
