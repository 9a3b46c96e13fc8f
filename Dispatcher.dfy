/**
 * The dispatcher: an object holding one project's state document, which its
 * methods update field by field and persist through the context store after
 * each step.  Every method is proved to leave the state that the matching
 * function of DispatcherSpec describes.
 */
module Dispatcher {
  import opened Types
  import opened DispatcherSpec
  import ContextManager

  /** What `_call_llm_agent` may return; `VSkipped` is never produced. */
  datatype Verdict = VDone | VFailed | VSkipped

  /** `b` differs from `a` at most in the entry of project `p`. */
  ghost predicate OnlyProjectChanged(a: Docs, b: Docs, p: ProjectId)
  {
    forall q :: q != p ==> (q in a <==> q in b) && (q in a ==> a[q] == b[q])
  }

  lemma OverwriteAfterChange(a: Docs, b: Docs, p: ProjectId, e: Entry)
    requires OnlyProjectChanged(a, b, p)
    ensures b[p := e] == a[p := e]
  {
  }


  /** The report list after the first `k` reports have been looked at. */
  ghost function Marked(rs: seq<Report>, k: nat): seq<Report>
    requires k <= |rs|
  {
    MarkFixed(rs[..k]) + rs[k..]
  }

  /** The document after the first `k` reports of round `c` have been looked at. */
  ghost function Partial(d0: Doc, c: int, k: nat): Doc
    requires k <= |d0.reports.GetOr([])|
  {
    var rs := d0.reports.GetOr([]);
    var fixes := FixTasks(rs[..k], c);
    d0.(tasks := if fixes == [] then d0.tasks else Some(d0.tasks.GetOr([]) + fixes),
        reports := if d0.reports.None? then None else Some(Marked(rs, k)))
  }

  /** Looking at no report changes nothing; looking at all of them is `Synthesize`. */
  lemma PartialEnds(d0: Doc, c: int)
    ensures Partial(d0, c, 0) == d0
    ensures Partial(d0, c, |d0.reports.GetOr([])|) == Synthesize(d0, c)
  {
    var rs := d0.reports.GetOr([]);
    assert rs[..0] == [] && rs[0..] == rs;
    assert Marked(rs, 0) == rs;
    assert rs[..|rs|] == rs && rs[|rs|..] == [];
    assert Marked(rs, |rs|) == MarkFixed(rs);
  }

  /** One more report marked: the loop's report list after `k + 1` steps is the one after `k` with report `k` marked. */
  lemma MarkStep(rs: seq<Report>, k: nat)
    requires k < |rs|
    ensures Marked(rs, k + 1) == Marked(rs, k)[k := MarkOne(rs[k])]
    ensures Marked(rs, k)[k] == rs[k]
  {
  }

  /** Looking at report `k`: a report that needs a fix appends its fix task and is marked fixed; any other report changes nothing. */
  lemma PartialStep(d0: Doc, c: int, k: nat)
    requires k < |d0.reports.GetOr([])|
    ensures Partial(d0, c, k).reports == Some(Marked(d0.reports.GetOr([]), k))
    ensures Marked(d0.reports.GetOr([]), k)[k] == d0.reports.GetOr([])[k]
    ensures NeedsFix(d0.reports.GetOr([])[k]) ==>
      var st := Partial(d0, c, k);
      var r := d0.reports.GetOr([])[k];
      Partial(d0, c, k + 1) ==
        st.(tasks := Some(st.tasks.GetOr([]) + [FixTask(r, c)]),
            reports := Some(Marked(d0.reports.GetOr([]), k)[k := r.(status := Some(Fixed))]))
    ensures !NeedsFix(d0.reports.GetOr([])[k]) ==> Partial(d0, c, k + 1) == Partial(d0, c, k)
  {
    var rs := d0.reports.GetOr([]);
    FixTasksStep(rs, k, c);
    MarkStep(rs, k);
    var done := FixTasks(rs[..k], c);
    if NeedsFix(rs[k]) {
      var fix := FixTask(rs[k], c);
      assert Partial(d0, c, k).tasks.GetOr([]) + [fix] == d0.tasks.GetOr([]) + (done + [fix]);
    } else {
      assert FixTasks(rs[..k + 1], c) == done;
      assert Marked(rs, k + 1) == Marked(rs, k);
    }
  }

  /** The report loop of a correction round: one fix task per unfixed QA or security report, which is marked fixed. */
  method FixReports(d0: Doc, cycle: int) returns (d: Doc)
    ensures d == Synthesize(d0, cycle)
  {
    d := d0;
    var reports := d.reports.GetOr([]);
    PartialEnds(d0, cycle);
    var k := 0;
    while k < |reports|
      invariant 0 <= k <= |reports| == |d0.reports.GetOr([])|
      invariant reports == Marked(d0.reports.GetOr([]), k)
      invariant d == Partial(d0, cycle, k)
    {
      PartialStep(d0, cycle, k);
      var report := reports[k];
      if NeedsFix(report) {
        reports := reports[k := report.(status := Some(Fixed))];
        d := d.(tasks := Some(d.tasks.GetOr([]) + [FixTask(report, cycle)]), reports := Some(reports));
        assert d == Partial(d0, cycle, k + 1);
      } else {
        assert d == Partial(d0, cycle, k + 1);
      }
      k := k + 1;
    }
  }

  /** Saving twice leaves what the second save wrote. */
  lemma Resave(a: Docs, p: ProjectId, e1: Entry, e2: Entry)
    ensures a[p := e1][p := e2] == a[p := e2]
  {
  }

  class Dispatcher {
    const projectId: ProjectId
    const cm: ContextManager.ContextStore
    var state: Doc
    /** The project's artifact files (DESIGN.md, specification.md, adr_log.md, ...). */
    var artifacts: map<string, string>

    /** Loads the project's state, falling back to a fresh document when the file cannot be read. */
    constructor (projectId: ProjectId, cm: ContextManager.ContextStore, artifacts: map<string, string>)
      ensures this.projectId == projectId && this.cm == cm && this.artifacts == artifacts
      ensures state == Load(cm.docs, projectId)
    {
      this.projectId := projectId;
      this.cm := cm;
      this.artifacts := artifacts;
      var r := ContextManager.ReadState(cm.docs, projectId);
      if r.Loaded? {
        state := r.doc;
      } else {
        state := Fallback;
      }
    }

    method SaveState()
      modifies cm
      ensures cm.docs == old(cm.docs)[projectId := Parsed(state)]
    {
      cm.WriteState(projectId, state);
    }

    method GenerateInitialTasks()
      modifies this
      ensures state == old(state).(tasks := Some(InitialTasks())) && artifacts == old(artifacts)
    {
      state := state.(tasks := Some(InitialTasks()));
    }

    method NextTaskFor(name: string) returns (i: Option<nat>)
      ensures i == FirstPending(TaskList(state), name)
    {
      var tasks := TaskList(state);
      var k := 0;
      while k < |tasks|
        invariant 0 <= k <= |tasks|
        invariant forall j :: 0 <= j < k ==> !IsPendingFor(tasks[j], name)
      {
        if tasks[k].agent == Some(name) && tasks[k].status == Some(Pending) {
          return Some(k);
        }
        k := k + 1;
      }
      return None;
    }

    method MarkAgentStatus(name: string, st: string)
      modifies this
      ensures state == old(state).(tasks := MarkedTasks(old(state).tasks, name, st)) && artifacts == old(artifacts)
    {
      if state.tasks.None? {
        return;
      }
      var tasks := state.tasks.value;
      ghost var before := tasks;
      var k := 0;
      while k < |tasks|
        invariant 0 <= k <= |tasks| == |before|
        invariant forall j :: 0 <= j < k ==>
          tasks[j] == if IsPendingFor(before[j], name) then before[j].(status := Some(st)) else before[j]
        invariant forall j :: k <= j < |tasks| ==> tasks[j] == before[j]
      {
        if tasks[k].agent == Some(name) && tasks[k].status == Some(Pending) {
          tasks := tasks[k := tasks[k].(status := Some(st))];
        }
        k := k + 1;
      }
      assert tasks == MarkPending(before, name, st);
      state := state.(tasks := Some(tasks));
    }

    method MarkTask(i: nat, st: string)
      requires state.tasks.Some? && i < |state.tasks.value|
      modifies this
      ensures state == SetTaskStatus(old(state), i, st) && artifacts == old(artifacts)
    {
      var tasks := state.tasks.value;
      tasks := tasks[i := tasks[i].(status := Some(st))];
      state := state.(tasks := Some(tasks));
    }

    /** The cost guard and the remote call; `outcome` is what the remote answers if it is asked. */
    method CallLlm(outcome: Outcome) returns (verdict: Verdict, output: string)
      modifies this, cm
      ensures artifacts == old(artifacts) && verdict != VSkipped
      ensures OnlyProjectChanged(old(cm.docs), cm.docs, projectId)
      ensures Cost(old(state)) >= CostLimit ==>
        verdict == VFailed && output == "" && state == old(state).(status := Some(CostLimitExceeded)) &&
        cm.docs == old(cm.docs)[projectId := Parsed(state)]
      ensures Cost(old(state)) < CostLimit && outcome.CallFailed? ==>
        verdict == VFailed && output == "" && state == old(state) && cm.docs == old(cm.docs)
      ensures Cost(old(state)) < CostLimit && outcome.Reply? && ContextManager.ReadState(old(cm.docs), projectId).DecodeError? ==>
        verdict == VFailed && output == "" && state == old(state) && cm.docs == old(cm.docs)
      ensures Cost(old(state)) < CostLimit && outcome.Reply? && ContextManager.ReadState(old(cm.docs), projectId).Loaded? ==>
        verdict == VDone && output == outcome.output &&
        state == old(state).(currentLlmCost := Some(Cost(old(state)) + ReportedCost(outcome.cost))) &&
        cm.docs == old(cm.docs)[projectId :=
          Parsed(ContextManager.CostAdded(ContextManager.ReadState(old(cm.docs), projectId).doc, ReportedCost(outcome.cost)))]
    {
      var current := Cost(state);
      if current >= CostLimit {
        state := state.(status := Some(CostLimitExceeded));
        SaveState();
        return VFailed, "";
      }
      match outcome
      case CallFailed =>
        return VFailed, "";
      case Reply(c, out) =>
        var cost := ReportedCost(c);
        var ok := cm.AddLlmCost(projectId, cost);
        if !ok {
          // `add_llm_cost` raised; the handler around the call answers "failed"
          return VFailed, "";
        }
        state := state.(currentLlmCost := Some(Cost(state) + cost));
        return VDone, out;
    }

    method HandleAgentOutput(name: string, tools: seq<string>, output: string)
      modifies this
      ensures artifacts == Route(name, tools, output, old(artifacts)) && state == old(state)
    {
      if output == "" {
        return;
      }
      if WriteDesign in tools && name == "uiux" {
        artifacts := artifacts[DesignFile := output];
      }
      if WriteSpecification in tools && name == "project-manager" {
        artifacts := artifacts[SpecFile := output];
      }
      if AppendToAdr in tools && name == "solution-architect" {
        var log := if AdrFile in artifacts then artifacts[AdrFile] else "";
        artifacts := artifacts[AdrFile := log + "\n" + output + "\n"];
      }
    }

    /** `run_agent(name)`; `remote(name)` is what the remote call would answer. */
    method RunAgent(name: string, configs: map<string, AgentConfig>, remote: string -> Outcome)
      modifies this, cm
      ensures World(state, artifacts) == AgentStep(old(World(state, artifacts)), name, configs, remote(name))
      ensures cm.docs == old(cm.docs)[projectId := Parsed(state)]
    {
      ghost var docs0 := cm.docs;
      var found := NextTaskFor(name);
      if found.None? {
        MarkAgentStatus(name, Skipped);
        SaveState();
        return;
      }
      ghost var w := World(state, artifacts);
      var i := found.value;
      MarkTask(i, InProgress);
      state := state.(lastAgent := Some(name));
      assert state == Taken(w.doc, name);
      SaveState();
      if !(name in configs && configs[name] != EmptyConfig) {
        MarkTask(i, StatusFailed);
        StepUnconfigured(w, name, configs, remote(name));
        OverwriteAfterChange(docs0, cm.docs, projectId, Parsed(state));
        SaveState();
        return;
      }
      var tools := configs[name].tools.GetOr([]);
      assert OnlyProjectChanged(docs0, cm.docs, projectId);
      assert ContextManager.ReadState(cm.docs, projectId).Loaded?;
      var verdict, output := CallLlm(remote(name));
      assert OnlyProjectChanged(docs0, cm.docs, projectId);
      assert verdict == VDone <==> Cost(w.doc) < CostLimit && remote(name).Reply?;
      if verdict == VDone {
        MarkTask(i, Done);
        HandleAgentOutput(name, tools, output);
        StepReplied(w, name, configs, remote(name).cost, remote(name).output);
      } else if verdict == VFailed {
        MarkTask(i, StatusFailed);
        state := state.(status := Some(StatusFailed));
        if Cost(w.doc) >= CostLimit {
          StepRefused(w, name, configs, remote(name));
        } else {
          StepCallFailed(w, name, configs);
        }
      } else {
        // `_call_llm_agent` never answers "skipped"
        assert false;
      }
      OverwriteAfterChange(docs0, cm.docs, projectId, Parsed(state));
      SaveState();
    }

    /** Activate each agent of `names` in turn, as `run_workflow` and a correction round do with their fixed lists. */
    method RunAgents(names: seq<string>, configs: map<string, AgentConfig>, remote: string -> Outcome)
      modifies this, cm
      ensures World(state, artifacts) == RunStages(old(World(state, artifacts)), names, configs, remote)
      ensures names != [] ==> cm.docs == old(cm.docs)[projectId := Parsed(state)]
      ensures names == [] ==> cm.docs == old(cm.docs)
    {
      ghost var w0 := World(state, artifacts);
      assert RunStages(w0, names[..0], configs, remote) == w0;
      for k := 0 to |names|
        invariant World(state, artifacts) == RunStages(w0, names[..k], configs, remote)
        invariant k == 0 ==> cm.docs == old(cm.docs)
        invariant k > 0 ==> cm.docs == old(cm.docs)[projectId := Parsed(state)]
      {
        ghost var saved := state;
        RunAgent(names[k], configs, remote);
        if k > 0 {
          Resave(old(cm.docs), projectId, Parsed(saved), Parsed(state));
        }
        StagesStep(w0, names, k, configs, remote);
      }
      assert names[..|names|] == names;
    }

    /** `run_workflow`: seed the ten tasks, activate the ten agents in order, then mark the project completed. */
    method RunWorkflow(configs: map<string, AgentConfig>, remote: string -> Outcome)
      modifies this, cm
      ensures World(state, artifacts) == Workflow(old(World(state, artifacts)), configs, remote)
      ensures cm.docs == old(cm.docs)[projectId := Parsed(state)]
    {
      GenerateInitialTasks();
      state := state.(status := Some(InProgress));
      SaveState();
      ghost var seeded := state;
      assert World(state, artifacts) == World(Seeded(old(state)), old(artifacts));
      // the ten `run_agent` calls, one per pipeline agent in pipeline order
      RunAgents(Pipeline, configs, remote);
      Resave(old(cm.docs), projectId, Parsed(seeded), Parsed(state));
      // The documentation export that follows is best effort: whatever it does,
      // its failure is caught and the state is not touched.
      ghost var ran := state;
      state := state.(status := Some(Completed));
      SaveState();
      Resave(old(cm.docs), projectId, Parsed(ran), Parsed(state));
    }

    /** The report loop of a correction round, run on the dispatcher's state. */
    method SynthesizeFixTasks(cycle: int)
      modifies this
      ensures state == Synthesize(old(state), cycle) && artifacts == old(artifacts)
    {
      state := FixReports(state, cycle);
    }

    /** `handle_correction_cycle`: one bounded self-correction round. */
    method HandleCorrectionCycle(configs: map<string, AgentConfig>, remote: string -> Outcome)
      modifies this, cm
      ensures World(state, artifacts) == Correction(old(World(state, artifacts)), configs, remote)
      ensures Triggered(old(state).status) ==> cm.docs == old(cm.docs)[projectId := Parsed(state)]
      ensures !Triggered(old(state).status) ==> cm.docs == old(cm.docs)
    {
      if !Triggered(state.status) {
        return;
      }
      var cycle := state.correctionCycle.GetOr(0) + 1;
      state := state.(correctionCycle := Some(cycle));
      if cycle > MaxCorrectionCycles {
        state := state.(status := Some(HumanIntervention));
        SaveState();
        return;
      }
      SynthesizeFixTasks(cycle);
      SaveState();
      ghost var synthesized := state;
      assert World(state, artifacts) == World(Synthesize(old(state).(correctionCycle := Some(cycle)), cycle), old(artifacts));
      // `run_agent` for auto-fixer, backend-dev and lead-qa, in that order
      RunAgents(Recovery, configs, remote);
      Resave(old(cm.docs), projectId, Parsed(synthesized), Parsed(state));
    }
  }
}
