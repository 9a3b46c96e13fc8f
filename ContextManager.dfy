/**
 * The persisted project context: one `state.json` per project, read with a
 * defaulted `status` and rewritten whole by every operation.  Each
 * operation is a load / modify / store step; the store is a map from
 * project to the file's content.
 */
module ContextManager {
  import opened Types

  /** Outcome of reading a state file: a document, or the JSON decode error `read_state` raises. */
  datatype Read = Loaded(doc: Doc) | DecodeError

  const TestGenerator := "test_generator"
  const SecurityAuditor := "security_auditor"
  const Feature := "feature"
  const Bugfix := "bugfix"

  /**
   * `read_state`: the stored document with `status` set to "init" when the
   * key is missing, or just `{status: "init"}` when the project has no file.
   */
  function ReadState(docs: Docs, p: ProjectId): (r: Read)
    ensures r.Loaded? <==> !(p in docs && docs[p].Malformed?)
    ensures r.Loaded? ==> r.doc.status.Some?
  {
    if p !in docs then Loaded(EmptyDoc.(status := Some(Init)))
    else match docs[p]
      case Malformed => DecodeError
      case Parsed(d) => Loaded(if d.status.Some? then d else d.(status := Some(Init)))
  }

  /** `write_state`: the file of `p` now holds `s`; no other project's file changes. */
  function Stored(docs: Docs, p: ProjectId, s: Doc): (r: Docs)
    ensures r.Keys == docs.Keys + {p} && r[p] == Parsed(s)
    ensures forall q :: q in docs && q != p ==> r[q] == docs[q]
  {
    docs[p := Parsed(s)]
  }

  /** `get_tasks`: the stored task list, `[]` when the key is absent; `None` for the decode error. */
  function GetTasks(docs: Docs, p: ProjectId): Option<seq<Task>>
  {
    match ReadState(docs, p)
    case Loaded(d) => Some(d.tasks.GetOr([]))
    case DecodeError => None
  }

  /** How an f-string prints `task.get('id')`: a missing id prints as "None". */
  function IdText(id: Option<string>): string
  {
    id.GetOr("None")
  }

  function TestSubtask(id: Option<string>): Task
  {
    EmptyTask.(id := Some("test_" + IdText(id)),
               description := Some("Генерация и запуск тестов для " + IdText(id)),
               status := Some(Pending), kind := Some(QaFunctional),
               assignedTo := Some(TestGenerator))
  }

  function AuditSubtask(id: Option<string>): Task
  {
    EmptyTask.(id := Some("audit_" + IdText(id)),
               description := Some("Аудит безопасности для " + IdText(id)),
               status := Some(Pending), kind := Some(SecurityAudit),
               assignedTo := Some(SecurityAuditor))
  }

  /** The task as `add_task` stores it: features and bugfixes gain a test and an audit subtask. */
  function Expanded(t: Task): Task
  {
    if t.kind == Some(Feature) || t.kind == Some(Bugfix) then
      t.(subtasks := Some(t.subtasks.GetOr([]) + [TestSubtask(t.id), AuditSubtask(t.id)]))
    else t
  }

  /** The document after `add_task`. */
  function WithTask(d: Doc, t: Task): Doc
  {
    d.(tasks := Some(d.tasks.GetOr([]) + [Expanded(t)]))
  }

  /** The KeyError guard of `update_task_status`: every task has an `id` key. */
  predicate AllHaveIds(ts: seq<Task>)
  {
    forall i :: 0 <= i < |ts| ==> ts[i].id.Some?
  }

  function Retagged(t: Task, taskId: string, status: string): Task
  {
    if t.id == Some(taskId) then t.(status := Some(status)) else t
  }

  /** The document after `update_task_status` (when no KeyError is raised). */
  function StatusUpdated(d: Doc, taskId: string, status: string): Doc
  {
    match d.tasks
    case None => d
    case Some(ts) => d.(tasks := Some(seq(|ts|, i requires 0 <= i < |ts| => Retagged(ts[i], taskId, status))))
  }

  /** The document after `add_report`. */
  function WithReport(d: Doc, r: Report): Doc
  {
    d.(reports := Some(d.reports.GetOr([]) + [r]))
  }

  /** The document after `increment_iteration_count`. */
  function Incremented(d: Doc): Doc
  {
    d.(iterationCount := Some(d.iterationCount.GetOr(0) + 1))
  }

  /** The document after `add_llm_cost`. */
  function CostAdded(d: Doc, cost: real): Doc
  {
    d.(currentLlmCost := Some(d.currentLlmCost.GetOr(0.0) + cost))
  }

  /** The file store, updated in place by each context operation. */
  class ContextStore {
    var docs: Docs

    constructor (initial: Docs)
      ensures docs == initial
    {
      docs := initial;
    }

    method WriteState(p: ProjectId, s: Doc)
      modifies this
      ensures docs == Stored(old(docs), p, s)
    {
      docs := docs[p := Parsed(s)];
    }

    method AddTask(p: ProjectId, t: Task) returns (ok: bool)
      modifies this
      ensures ok == ReadState(old(docs), p).Loaded?
      ensures ok ==> docs == Stored(old(docs), p, WithTask(ReadState(old(docs), p).doc, t))
      ensures !ok ==> docs == old(docs)
    {
      var r := ReadState(docs, p);
      if r.DecodeError? {
        return false;
      }
      var state := r.doc;
      var task := t;
      if task.kind == Some(Feature) || task.kind == Some(Bugfix) {
        var subtasks := task.subtasks.GetOr([]);
        subtasks := subtasks + [TestSubtask(task.id)];
        subtasks := subtasks + [AuditSubtask(task.id)];
        assert subtasks == t.subtasks.GetOr([]) + [TestSubtask(t.id), AuditSubtask(t.id)];
        task := task.(subtasks := Some(subtasks));
      }
      assert task == Expanded(t);
      state := state.(tasks := Some(state.tasks.GetOr([]) + [task]));
      WriteState(p, state);
      ok := true;
    }

    method UpdateTaskStatus(p: ProjectId, taskId: string, status: string) returns (ok: bool)
      modifies this
      ensures ok <==> ReadState(old(docs), p).Loaded? && AllHaveIds(ReadState(old(docs), p).doc.tasks.GetOr([]))
      ensures ok ==> docs == Stored(old(docs), p, StatusUpdated(ReadState(old(docs), p).doc, taskId, status))
      ensures !ok ==> docs == old(docs)
    {
      var r := ReadState(docs, p);
      if r.DecodeError? {
        return false;
      }
      var state := r.doc;
      var tasks := state.tasks.GetOr([]);
      ghost var before := tasks;
      var k := 0;
      while k < |tasks|
        invariant 0 <= k <= |tasks| == |before|
        invariant forall i :: 0 <= i < k ==> before[i].id.Some? && tasks[i] == Retagged(before[i], taskId, status)
        invariant forall i :: k <= i < |tasks| ==> tasks[i] == before[i]
      {
        if tasks[k].id.None? {
          // KeyError: the loop stops and the file is not rewritten
          return false;
        }
        if tasks[k].id.value == taskId {
          tasks := tasks[k := tasks[k].(status := Some(status))];
        }
        k := k + 1;
      }
      if state.tasks.Some? {
        assert tasks == seq(|before|, i requires 0 <= i < |before| => Retagged(before[i], taskId, status));
        state := state.(tasks := Some(tasks));
      }
      WriteState(p, state);
      ok := true;
    }

    method AddReport(p: ProjectId, report: Report) returns (ok: bool)
      modifies this
      ensures ok == ReadState(old(docs), p).Loaded?
      ensures ok ==> docs == Stored(old(docs), p, WithReport(ReadState(old(docs), p).doc, report))
      ensures !ok ==> docs == old(docs)
    {
      var r := ReadState(docs, p);
      if r.DecodeError? {
        return false;
      }
      var state := r.doc;
      state := state.(reports := Some(state.reports.GetOr([]) + [report]));
      WriteState(p, state);
      ok := true;
    }

    method IncrementIterationCount(p: ProjectId) returns (ok: bool)
      modifies this
      ensures ok == ReadState(old(docs), p).Loaded?
      ensures ok ==> docs == Stored(old(docs), p, Incremented(ReadState(old(docs), p).doc))
      ensures !ok ==> docs == old(docs)
    {
      var r := ReadState(docs, p);
      if r.DecodeError? {
        return false;
      }
      var state := r.doc;
      state := state.(iterationCount := Some(state.iterationCount.GetOr(0) + 1));
      WriteState(p, state);
      ok := true;
    }

    method AddLlmCost(p: ProjectId, cost: real) returns (ok: bool)
      modifies this
      ensures ok == ReadState(old(docs), p).Loaded?
      ensures ok ==> docs == Stored(old(docs), p, CostAdded(ReadState(old(docs), p).doc, cost))
      ensures !ok ==> docs == old(docs)
    {
      var r := ReadState(docs, p);
      if r.DecodeError? {
        return false;
      }
      var state := r.doc;
      state := state.(currentLlmCost := Some(state.currentLlmCost.GetOr(0.0) + cost));
      WriteState(p, state);
      ok := true;
    }
  }

  // ---------------------------------------------------------------------
  // Properties of the context operations

  /** A missing file reads as `{status: "init"}`; a stored document keeps every key, with `status` defaulted. */
  lemma ReadStateDefaults(docs: Docs, p: ProjectId)
    ensures p !in docs ==> ReadState(docs, p) == Loaded(EmptyDoc.(status := Some(Init)))
    ensures p in docs && docs[p].Parsed? ==>
      var r := ReadState(docs, p);
      r.Loaded? &&
      r.doc.status == (if docs[p].doc.status.Some? then docs[p].doc.status else Some(Init)) &&
      r.doc.(status := docs[p].doc.status) == docs[p].doc
  {
  }

  /** Writing a document that has a status and reading it back gives the same document; other projects are untouched. */
  lemma WriteReadRoundTrip(docs: Docs, p: ProjectId, s: Doc)
    requires s.status.Some?
    ensures ReadState(Stored(docs, p, s), p) == Loaded(s)
    ensures forall q :: q != p ==> ReadState(Stored(docs, p, s), q) == ReadState(docs, q)
  {
  }

  /** `add_task` puts the task last; a feature or bugfix gains the two pending subtasks, any other task is stored as given. */
  lemma AddTaskAppends(docs: Docs, p: ProjectId, t: Task)
    requires ReadState(docs, p).Loaded?
    ensures var after := GetTasks(Stored(docs, p, WithTask(ReadState(docs, p).doc, t)), p);
      after.Some? && after.value == GetTasks(docs, p).value + [Expanded(t)]
    ensures t.kind != Some(Feature) && t.kind != Some(Bugfix) ==> Expanded(t) == t
    ensures t.kind == Some(Feature) || t.kind == Some(Bugfix) ==>
      var subs := Expanded(t).subtasks.value;
      var n := |t.subtasks.GetOr([])|;
      Expanded(t).(subtasks := t.subtasks) == t &&
      |subs| == n + 2 && subs[..n] == t.subtasks.GetOr([]) &&
      subs[n].id == Some("test_" + IdText(t.id)) && subs[n].kind == Some(QaFunctional) &&
      subs[n].assignedTo == Some(TestGenerator) && subs[n].status == Some(Pending) &&
      subs[n + 1].id == Some("audit_" + IdText(t.id)) && subs[n + 1].kind == Some(SecurityAudit) &&
      subs[n + 1].assignedTo == Some(SecurityAuditor) && subs[n + 1].status == Some(Pending)
  {
  }

  /** `update_task_status` retags exactly the tasks with the given id and changes nothing else. */
  lemma StatusUpdateOnlyMatching(d: Doc, taskId: string, status: string)
    ensures var d' := StatusUpdated(d, taskId, status);
      d'.(tasks := d.tasks) == d &&
      d'.tasks.Some? == d.tasks.Some? &&
      (d.tasks.Some? ==>
        |d'.tasks.value| == |d.tasks.value| &&
        forall i :: 0 <= i < |d.tasks.value| ==>
          (d.tasks.value[i].id == Some(taskId) ==> d'.tasks.value[i] == d.tasks.value[i].(status := Some(status))) &&
          (d.tasks.value[i].id != Some(taskId) ==> d'.tasks.value[i] == d.tasks.value[i]))
  {
  }

  /** `add_report` adds exactly one report, last, and keeps the earlier reports and every other key. */
  lemma ReportAppended(d: Doc, r: Report)
    ensures var d' := WithReport(d, r);
      |d'.reports.value| == |d.reports.GetOr([])| + 1 &&
      d'.reports.value[..|d.reports.GetOr([])|] == d.reports.GetOr([]) &&
      d'.reports.value[|d.reports.GetOr([])|] == r &&
      d'.(reports := d.reports) == d
  {
    var d' := WithReport(d, r);
    assert d'.reports.value[..|d.reports.GetOr([])|] == d.reports.GetOr([]);
  }

  /** `get_tasks`: `[]` without a file or without a `tasks` key, the stored list otherwise; an unreadable file is an error. */
  lemma GetTasksCases(docs: Docs, p: ProjectId)
    ensures p !in docs ==> GetTasks(docs, p) == Some([])
    ensures p in docs && docs[p].Malformed? ==> GetTasks(docs, p).None?
    ensures p in docs && docs[p].Parsed? ==> GetTasks(docs, p) == Some(docs[p].doc.tasks.GetOr([]))
  {
  }

  /** Successive `add_llm_cost` calls sum: 5.5 then 2.5 on a project without a state file reads back as 8.0. */
  lemma CostsAccumulate(docs: Docs, p: ProjectId)
    requires p !in docs
    ensures var d1 := Stored(docs, p, CostAdded(ReadState(docs, p).doc, 5.5));
      var d2 := Stored(d1, p, CostAdded(ReadState(d1, p).doc, 2.5));
      ReadState(d2, p).doc.currentLlmCost == Some(8.0)
  {
  }

  /** `increment_iteration_count` on a project without a state file reads back as 1, and each further call adds one. */
  lemma IterationCounts(d: Doc)
    ensures Incremented(d).iterationCount == Some(d.iterationCount.GetOr(0) + 1)
    ensures Incremented(EmptyDoc).iterationCount == Some(1)
    ensures Incremented(d).(iterationCount := d.iterationCount) == d
  {
  }
}
