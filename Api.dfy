/**
 * The decision rules of the HTTP layer (`backend/main.py`) that touch the
 * project state: how a test run or a security audit is classified and turned
 * into a report, the report `submit_feedback` files before it starts a
 * correction round, the filters of the status endpoint, and the document a
 * new project starts with.  Routing, request models, UUIDs and the runners
 * themselves are not part of this model: a runner's output is a parameter.
 */
module Api {
  import opened Types
  import ContextManager
  import opened DispatcherSpec
  import Dispatcher

  // ---------------------------------------------------------------------
  // Substring tests

  /** `needle` occurs in `s` starting at index `i`. */
  predicate OccursAt(needle: string, s: string, i: int)
  {
    0 <= i && i + |needle| <= |s| && s[i..i + |needle|] == needle
  }

  /** Python's `needle in s` on strings: `needle` occurs in `s` as a contiguous run. */
  ghost predicate Occurs(needle: string, s: string)
  {
    exists i :: OccursAt(needle, s, i)
  }

  /** A left-to-right scan for `needle` in `s`. */
  function Contains(needle: string, s: string): bool
    decreases |s|
  {
    if |s| < |needle| then false
    else if s[..|needle|] == needle then true
    else Contains(needle, s[1..])
  }

  /** The scan finds exactly the occurrences `Occurs` describes. */
  lemma {:induction false} ContainsIsOccurs(needle: string, s: string)
    ensures Contains(needle, s) <==> Occurs(needle, s)
    decreases |s|
  {
    if |s| < |needle| {
    } else if s[..|needle|] == needle {
      assert OccursAt(needle, s, 0);
    } else {
      ContainsIsOccurs(needle, s[1..]);
      if Occurs(needle, s) {
        var i :| OccursAt(needle, s, i);
        assert i != 0;
        assert s[1..][i - 1..i - 1 + |needle|] == s[i..i + |needle|];
        assert OccursAt(needle, s[1..], i - 1);
      }
      if Occurs(needle, s[1..]) {
        var i :| OccursAt(needle, s[1..], i);
        assert s[i + 1..i + 1 + |needle|] == s[1..][i..i + |needle|];
        assert OccursAt(needle, s, i + 1);
      }
    }
  }

  // ---------------------------------------------------------------------
  // Severity and report construction

  /** A runner's result is used only when it is a non-empty string (Python truthiness of `Optional[str]`). */
  predicate Truthy(result: Option<string>)
  {
    result.Some? && result.value != ""
  }

  /** `run_project_tests`: `high` when the output mentions `failure`, `error` or `failed`. */
  function TestSeverity(result: Option<string>): (sev: string)
    ensures sev == High || sev == Low
  {
    if Truthy(result)
       && (Contains("failure", result.value) || Contains("error", result.value) || Contains("failed", result.value))
    then High else Low
  }

  /** `run_project_security_audit`: `high` when the output mentions `high`, `error` or `warning`. */
  function AuditSeverity(result: Option<string>): (sev: string)
    ensures sev == High || sev == Low
  {
    if Truthy(result)
       && (Contains("high", result.value) || Contains("error", result.value) || Contains("warning", result.value))
    then High else Low
  }

  /** Test severity is `high` exactly when the output is non-empty and one of the three words occurs in it. */
  lemma TestSeverityRule(result: Option<string>)
    ensures TestSeverity(result) == High <==>
      Truthy(result) && (Occurs("failure", result.value) || Occurs("error", result.value) || Occurs("failed", result.value))
  {
    if Truthy(result) {
      ContainsIsOccurs("failure", result.value);
      ContainsIsOccurs("error", result.value);
      ContainsIsOccurs("failed", result.value);
    }
  }

  /** Audit severity is `high` exactly when the output is non-empty and one of the three words occurs in it. */
  lemma AuditSeverityRule(result: Option<string>)
    ensures AuditSeverity(result) == High <==>
      Truthy(result) && (Occurs("high", result.value) || Occurs("error", result.value) || Occurs("warning", result.value))
  {
    if Truthy(result) {
      ContainsIsOccurs("high", result.value);
      ContainsIsOccurs("error", result.value);
      ContainsIsOccurs("warning", result.value);
    }
  }

  /**
   * The rule looks for words, not for a result: a run with no failing
   * example whose report spells out a zero failure count is `high`, and a
   * runner that produced nothing is `low`.
   */
  lemma SeverityIsLexical()
    ensures TestSeverity(Some("1 example, 0 failures")) == High
    ensures TestSeverity(None) == Low && TestSeverity(Some("")) == Low
    ensures AuditSeverity(Some("{\"warnings\": []}")) == High
    ensures AuditSeverity(None) == Low && AuditSeverity(Some("")) == Low
  {
    var t := "1 example, 0 failures";
    assert OccursAt("failure", t, 13);
    ContainsIsOccurs("failure", t);
    var a := "{\"warnings\": []}";
    assert OccursAt("warning", a, 2);
    ContainsIsOccurs("warning", a);
  }

  /** The content of a runner report: the output, or "No output" when there is none. */
  function Content(result: Option<string>): string
  {
    if Truthy(result) then result.value else "No output"
  }

  /** A runner report: not linked to any task (`related_task` is JSON null), no status yet. */
  function RunnerReport(kind: string, severity: string, result: Option<string>, createdAt: string): Report
  {
    Report(Some(kind), Some(severity), Some(Content(result)), Some(createdAt), Some(Null), None)
  }

  /** The report `run_project_tests` files. */
  function TestReport(result: Option<string>, createdAt: string): (r: Report)
    ensures r.kind == Some(QaFunctional) && r.severity == Some(TestSeverity(result))
    ensures r.relatedTask == Some(Null) && r.status == None && r.createdAt == Some(createdAt)
    ensures Truthy(result) ==> r.content == result
    ensures !Truthy(result) ==> r.content == Some("No output")
  {
    RunnerReport(QaFunctional, TestSeverity(result), result, createdAt)
  }

  /** The report `run_project_security_audit` files. */
  function AuditReport(result: Option<string>, createdAt: string): (r: Report)
    ensures r.kind == Some(SecurityAudit) && r.severity == Some(AuditSeverity(result))
    ensures r.relatedTask == Some(Null) && r.status == None && r.createdAt == Some(createdAt)
    ensures Truthy(result) ==> r.content == result
    ensures !Truthy(result) ==> r.content == Some("No output")
  {
    RunnerReport(SecurityAudit, AuditSeverity(result), result, createdAt)
  }

  /** The report `submit_feedback` files. */
  function FeedbackReport(feedback: string, createdAt: string): (r: Report)
    ensures r.kind == Some(UserFeedback) && r.severity == Some(Medium) && r.content == Some(feedback)
    ensures r.relatedTask == Some(Null) && r.status == None && r.createdAt == Some(createdAt)
  {
    Report(Some(UserFeedback), Some(Medium), Some(feedback), Some(createdAt), Some(Null), None)
  }

  /** An empty or missing runner output becomes "No output"; any other output is kept verbatim. */
  lemma ContentRule(result: Option<string>)
    ensures !Truthy(result) <==> Content(result) == "No output" && result != Some("No output")
    ensures Truthy(result) ==> Content(result) == result.value
  {
  }

  /**
   * Test and audit reports always feed the next correction round: each
   * needs a fix, and since it names no task its fix task is
   * `fix-None-<round>` depending on `[None]`.  A feedback report never does.
   */
  lemma RunnerReportsNeedFixing(result: Option<string>, feedback: string, createdAt: string, c: int)
    ensures NeedsFix(TestReport(result, createdAt)) && NeedsFix(AuditReport(result, createdAt))
    ensures FixTask(TestReport(result, createdAt), c).id == Some("fix-None-" + IntToString(c))
    ensures FixTask(AuditReport(result, createdAt), c).id == Some("fix-None-" + IntToString(c))
    ensures FixTask(TestReport(result, createdAt), c).dependencies == Some([Null])
    ensures FixTask(TestReport(result, createdAt), c).description == Some(FixPrefix + Content(result))
    ensures !NeedsFix(FeedbackReport(feedback, createdAt))
  {
    assert "fix-" + "None" + "-" + IntToString(c) == "fix-None-" + IntToString(c);
  }

  /**
   * Filing a feedback report before a correction round changes nothing in
   * the round but the report list: the same fix tasks are synthesized, and
   * the feedback report stays last and unmarked.
   */
  lemma FeedbackInertInRound(d: Doc, feedback: string, createdAt: string, c: int)
    ensures var fb := FeedbackReport(feedback, createdAt);
      var rs := d.reports.GetOr([]);
      FixTasks(rs + [fb], c) == FixTasks(rs, c) &&
      Synthesize(ContextManager.WithReport(d, fb), c).tasks == Synthesize(d, c).tasks &&
      Synthesize(ContextManager.WithReport(d, fb), c).reports == Some(MarkFixed(rs) + [fb])
  {
    var fb := FeedbackReport(feedback, createdAt);
    var rs := d.reports.GetOr([]);
    assert (rs + [fb])[..|rs + [fb]| - 1] == rs;
    assert MarkFixed(rs + [fb]) == MarkFixed(rs) + [fb];
  }

  // ---------------------------------------------------------------------
  // The status endpoint

  /** The elements of `xs` that satisfy `keep`, in their original order (a list comprehension with an `if`). */
  function Keep<T>(xs: seq<T>, keep: T -> bool): (r: seq<T>)
    ensures |r| <= |xs|
    ensures forall x :: x in r ==> x in xs && keep(x)
    decreases |xs|
  {
    if xs == [] then []
    else Keep(xs[..|xs| - 1], keep) + (if keep(xs[|xs| - 1]) then [xs[|xs| - 1]] else [])
  }

  /** Filtering commutes with concatenation, so kept elements stay in their original order. */
  lemma {:induction false} KeepAppend<T>(xs: seq<T>, ys: seq<T>, keep: T -> bool)
    ensures Keep(xs + ys, keep) == Keep(xs, keep) + Keep(ys, keep)
    decreases |ys|
  {
    if ys == [] {
      assert xs + ys == xs;
    } else {
      var init := ys[..|ys| - 1];
      var last := ys[|ys| - 1];
      var tail := if keep(last) then [last] else [];
      KeepAppend(xs, init, keep);
      assert (xs + ys)[..|xs + ys| - 1] == xs + init;
      assert (xs + ys)[|xs + ys| - 1] == last;
      assert Keep(xs + ys, keep) == Keep(xs + init, keep) + tail;
      assert Keep(ys, keep) == Keep(init, keep) + tail;
      assert Keep(xs + ys, keep) == Keep(xs, keep) + (Keep(init, keep) + tail);
    }
  }

  /** Nothing that satisfies `keep` is dropped. */
  lemma {:induction false} KeepComplete<T>(xs: seq<T>, keep: T -> bool)
    ensures forall x :: x in xs && keep(x) ==> x in Keep(xs, keep)
    decreases |xs|
  {
    if xs != [] {
      var init := xs[..|xs| - 1];
      KeepComplete(init, keep);
      assert xs == init + [xs[|xs| - 1]];
    }
  }

  /** Filtering twice keeps exactly what satisfies both filters. */
  lemma {:induction false} KeepTwice<T>(xs: seq<T>, p: T -> bool, q: T -> bool)
    ensures Keep(Keep(xs, p), q) == Keep(xs, x => p(x) && q(x))
    decreases |xs|
  {
    if xs != [] {
      var init := xs[..|xs| - 1];
      var last := xs[|xs| - 1];
      KeepTwice(init, p, q);
      KeepAppend(Keep(init, p), if p(last) then [last] else [], q);
      assert Keep(init + [last], x => p(x) && q(x)) == Keep(init, x => p(x) && q(x)) + (if p(last) && q(last) then [last] else []) by {
        assert (init + [last])[..|init + [last]| - 1] == init;
        assert xs == init + [last];
      }
      assert [last][..0] == [];
    }
  }

  /** Filters that agree on every element keep the same elements. */
  lemma {:induction false} KeepSame<T>(xs: seq<T>, p: T -> bool, q: T -> bool)
    requires forall x :: p(x) == q(x)
    ensures Keep(xs, p) == Keep(xs, q)
    decreases |xs|
  {
    if xs != [] {
      KeepSame(xs[..|xs| - 1], p, q);
    }
  }

  /** A filter that keeps everything changes nothing. */
  lemma {:induction false} KeepAll<T>(xs: seq<T>, keep: T -> bool)
    requires forall x :: keep(x)
    ensures Keep(xs, keep) == xs
    decreases |xs|
  {
    if xs != [] {
      var init := xs[..|xs| - 1];
      KeepAll(init, keep);
      assert keep(xs[|xs| - 1]);
      assert Keep(xs, keep) == init + [xs[|xs| - 1]];
      assert init + [xs[|xs| - 1]] == xs;
    }
  }

  /** A query parameter filters only when it is given and non-empty (`if task_status:`). */
  predicate Active(f: Option<string>)
  {
    f.Some? && f.value != ""
  }

  /** Whether `actual` (the record's value, `None` when the key is absent) matches filter `f`. */
  predicate Matches(f: Option<string>, actual: Option<string>)
  {
    !Active(f) || actual == Some(f.value)
  }

  /** What the status endpoint returns for a readable state document. */
  datatype StatusView = StatusView(status: Option<string>, tasks: seq<Task>, reports: seq<Report>)

  /** The endpoint's answer: the view, or a server error when `state.json` is not valid JSON. */
  datatype Response = View(view: StatusView) | ServerError

  /** `get_project_status`: apply the supplied filters one after the other. */
  function ProjectStatus(docs: Docs, p: ProjectId, taskStatus: Option<string>, reportType: Option<string>,
                         severity: Option<string>, assignedTo: Option<string>): (r: Response)
    ensures r.View? <==> ContextManager.ReadState(docs, p).Loaded?
    ensures r.View? ==> r.view.status == ContextManager.ReadState(docs, p).doc.status
  {
    match ContextManager.ReadState(docs, p)
    case DecodeError => ServerError
    case Loaded(d) =>
      var ts := Refine(Refine(d.tasks.GetOr([]), taskStatus, TaskStatusOf), assignedTo, AssigneeOf);
      var rs := Refine(Refine(d.reports.GetOr([]), reportType, KindOf), severity, SeverityOf);
      View(StatusView(d.status, ts, rs))
  }

  /** `[x for x in xs if x.get(key) == f]` when filter `f` is given, `xs` otherwise. */
  function Refine<T>(xs: seq<T>, f: Option<string>, field: T -> Option<string>): seq<T>
  {
    if Active(f) then Keep(xs, (x: T) => field(x) == Some(f.value)) else xs
  }

  function TaskStatusOf(t: Task): Option<string> { t.status }
  function AssigneeOf(t: Task): Option<string> { t.assignedTo }
  function KindOf(r: Report): Option<string> { r.kind }
  function SeverityOf(r: Report): Option<string> { r.severity }

  /** Optional filtering, as the endpoint does it for one parameter. */
  lemma KeepIfActive<T>(xs: seq<T>, f: Option<string>, field: T -> Option<string>)
    ensures Refine(xs, f, field) == Keep(xs, (x: T) => Matches(f, field(x)))
  {
    if Active(f) {
      KeepSame(xs, (x: T) => field(x) == Some(f.value), (x: T) => Matches(f, field(x)));
    } else {
      KeepAll(xs, (x: T) => Matches(f, field(x)));
    }
  }

  /** The elements that match filter `f` on `field` and filter `g` on `field2`. */
  function Both<T>(f: Option<string>, field: T -> Option<string>, g: Option<string>, field2: T -> Option<string>): T -> bool
  {
    (x: T) => Matches(f, field(x)) && Matches(g, field2(x))
  }

  /** Two optional filters applied one after the other keep exactly what matches both. */
  lemma TwoFilters<T>(xs: seq<T>, f: Option<string>, field: T -> Option<string>, g: Option<string>, field2: T -> Option<string>)
    ensures Refine(Refine(xs, f, field), g, field2) == Keep(xs, Both(f, field, g, field2))
  {
    var byF := (x: T) => Matches(f, field(x));
    var byG := (x: T) => Matches(g, field2(x));
    KeepIfActive(xs, f, field);
    KeepIfActive(Keep(xs, byF), g, field2);
    KeepTwice(xs, byF, byG);
    KeepSame(xs, (x: T) => byF(x) && byG(x), Both(f, field, g, field2));
  }

  /**
   * The status endpoint returns exactly the tasks that match every supplied
   * task filter and exactly the reports that match every supplied report
   * filter, each in stored order; omitted or empty filters keep everything.
   */
  lemma ProjectStatusFilters(docs: Docs, p: ProjectId, taskStatus: Option<string>, reportType: Option<string>,
                             severity: Option<string>, assignedTo: Option<string>)
    requires ContextManager.ReadState(docs, p).Loaded?
    ensures var d := ContextManager.ReadState(docs, p).doc;
      var v := ProjectStatus(docs, p, taskStatus, reportType, severity, assignedTo).view;
      v.tasks == Keep(d.tasks.GetOr([]), Both(taskStatus, TaskStatusOf, assignedTo, AssigneeOf)) &&
      v.reports == Keep(d.reports.GetOr([]), Both(reportType, KindOf, severity, SeverityOf))
  {
    var d := ContextManager.ReadState(docs, p).doc;
    var v := ProjectStatus(docs, p, taskStatus, reportType, severity, assignedTo).view;
    assert v.tasks == Refine(Refine(d.tasks.GetOr([]), taskStatus, TaskStatusOf), assignedTo, AssigneeOf);
    assert v.reports == Refine(Refine(d.reports.GetOr([]), reportType, KindOf), severity, SeverityOf);
    TwoFilters(d.tasks.GetOr([]), taskStatus, TaskStatusOf, assignedTo, AssigneeOf);
    TwoFilters(d.reports.GetOr([]), reportType, KindOf, severity, SeverityOf);
  }

  /** Every returned task or report matches every supplied filter, and every matching one is returned. */
  lemma ProjectStatusExact(docs: Docs, p: ProjectId, taskStatus: Option<string>, reportType: Option<string>,
                           severity: Option<string>, assignedTo: Option<string>)
    requires ContextManager.ReadState(docs, p).Loaded?
    ensures var d := ContextManager.ReadState(docs, p).doc;
      var v := ProjectStatus(docs, p, taskStatus, reportType, severity, assignedTo).view;
      (forall t :: t in v.tasks <==>
         t in d.tasks.GetOr([]) && Matches(taskStatus, t.status) && Matches(assignedTo, t.assignedTo)) &&
      (forall r :: r in v.reports <==>
         r in d.reports.GetOr([]) && Matches(reportType, r.kind) && Matches(severity, r.severity))
  {
    var d := ContextManager.ReadState(docs, p).doc;
    ProjectStatusFilters(docs, p, taskStatus, reportType, severity, assignedTo);
    var v := ProjectStatus(docs, p, taskStatus, reportType, severity, assignedTo).view;
    var wantTask := Both(taskStatus, TaskStatusOf, assignedTo, AssigneeOf);
    var wantReport := Both(reportType, KindOf, severity, SeverityOf);
    KeepComplete(d.tasks.GetOr([]), wantTask);
    KeepComplete(d.reports.GetOr([]), wantReport);
    forall t: Task
      ensures t in v.tasks <==> t in d.tasks.GetOr([]) && Matches(taskStatus, t.status) && Matches(assignedTo, t.assignedTo)
    {
      assert wantTask(t) == (Matches(taskStatus, TaskStatusOf(t)) && Matches(assignedTo, AssigneeOf(t)));
    }
    forall r: Report
      ensures r in v.reports <==> r in d.reports.GetOr([]) && Matches(reportType, r.kind) && Matches(severity, r.severity)
    {
      assert wantReport(r) == (Matches(reportType, KindOf(r)) && Matches(severity, SeverityOf(r)));
    }
  }

  // ---------------------------------------------------------------------
  // Project initialisation and feedback

  /** The `state.json` that `init_project` writes: `{"status": "init", "tasks": [], "blockers": []}`. */
  const InitialState := EmptyDoc.(status := Some(Init), tasks := Some([]), blockers := Some([]))

  /**
   * A freshly initialised project reads back as the initial document, which
   * is also what `load_state` falls back to; it has no tasks and no
   * reports, and a correction round leaves it alone.
   */
  lemma FreshProject(docs: Docs, p: ProjectId, configs: map<string, AgentConfig>, remote: string -> Outcome,
                     arts: map<string, string>)
    ensures var after := ContextManager.Stored(docs, p, InitialState);
      ContextManager.ReadState(after, p) == ContextManager.Loaded(InitialState) &&
      ContextManager.GetTasks(after, p) == Some([]) &&
      Load(after, p) == Fallback &&
      ProjectStatus(after, p, None, None, None, None) == View(StatusView(Some(Init), [], [])) &&
      Correction(World(Load(after, p), arts), configs, remote) == World(InitialState, arts)
  {
    ContextManager.WriteReadRoundTrip(docs, p, InitialState);
  }

  /** `init_project`: write the initial state document of project `p`. */
  method InitProject(cm: ContextManager.ContextStore, p: ProjectId)
    modifies cm
    ensures cm.docs == ContextManager.Stored(old(cm.docs), p, InitialState)
  {
    cm.WriteState(p, InitialState);
  }

  /** `run_project_tests`: file the report of a test run; an unreadable state file makes it fail. */
  method RunProjectTests(cm: ContextManager.ContextStore, p: ProjectId, result: Option<string>, createdAt: string)
    returns (report: Report, ok: bool)
    modifies cm
    ensures report == TestReport(result, createdAt)
    ensures ok == ContextManager.ReadState(old(cm.docs), p).Loaded?
    ensures ok ==> cm.docs == ContextManager.Stored(old(cm.docs), p,
                                ContextManager.WithReport(ContextManager.ReadState(old(cm.docs), p).doc, report))
    ensures !ok ==> cm.docs == old(cm.docs)
  {
    report := TestReport(result, createdAt);
    ok := cm.AddReport(p, report);
  }

  /** `run_project_security_audit`: file the report of an audit; an unreadable state file makes it fail. */
  method RunSecurityAudit(cm: ContextManager.ContextStore, p: ProjectId, result: Option<string>, createdAt: string)
    returns (report: Report, ok: bool)
    modifies cm
    ensures report == AuditReport(result, createdAt)
    ensures ok == ContextManager.ReadState(old(cm.docs), p).Loaded?
    ensures ok ==> cm.docs == ContextManager.Stored(old(cm.docs), p,
                                ContextManager.WithReport(ContextManager.ReadState(old(cm.docs), p).doc, report))
    ensures !ok ==> cm.docs == old(cm.docs)
  {
    report := AuditReport(result, createdAt);
    ok := cm.AddReport(p, report);
  }

  /**
   * `submit_feedback`: file a `user_feedback` report, then run a correction
   * round on the state that now includes it.  A state file that is not
   * valid JSON makes the report fail and nothing happens.
   */
  method SubmitFeedback(cm: ContextManager.ContextStore, p: ProjectId, feedback: string, createdAt: string,
                        arts: map<string, string>, configs: map<string, AgentConfig>, remote: string -> Outcome)
    returns (report: Report, accepted: bool, arts': map<string, string>)
    modifies cm
    ensures report == FeedbackReport(feedback, createdAt)
    ensures accepted == ContextManager.ReadState(old(cm.docs), p).Loaded?
    ensures !accepted ==> cm.docs == old(cm.docs) && arts' == arts
    ensures accepted ==>
      var filed := ContextManager.WithReport(ContextManager.ReadState(old(cm.docs), p).doc, report);
      var after := Correction(World(filed, arts), configs, remote);
      arts' == after.artifacts &&
      cm.docs == old(cm.docs)[p := Parsed(after.doc)]
  {
    report := FeedbackReport(feedback, createdAt);
    accepted := cm.AddReport(p, report);
    if !accepted {
      arts' := arts;
      return;
    }
    var filed := ContextManager.WithReport(ContextManager.ReadState(old(cm.docs), p).doc, report);
    assert ContextManager.ReadState(cm.docs, p) == ContextManager.Loaded(filed);
    var d := new Dispatcher.Dispatcher(p, cm, arts);
    d.HandleCorrectionCycle(configs, remote);
    arts' := d.artifacts;
  }
}
