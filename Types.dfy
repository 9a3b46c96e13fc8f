/**
 * The records the workflow core passes around: the per-project state
 * document (`state.json`), its tasks and reports, and the string constants
 * the code compares against.  The source keeps all of these as untyped
 * dictionaries, so every key that the code reads with `.get(key, default)`
 * is an `Option` here: `None` is "the key is absent".
 */
module Types {

  datatype Option<+T> = None | Some(value: T) {
    /** `dict.get(key, default)` */
    function GetOr(default: T): T {
      match this
      case Some(v) => v
      case None => default
    }
  }

  /** A JSON value that the source stores where either a string or `null` may appear. */
  datatype Scalar = Null | Str(s: string)

  type ProjectId = string

  /**
   * A task dictionary.  The ten pipeline tasks carry only `agent`,
   * `description` and `status`; synthesized fix tasks carry every key;
   * tasks given to `add_task` carry whatever the caller supplied.
   */
  datatype Task = Task(
    id: Option<string>,
    agent: Option<string>,
    description: Option<string>,
    status: Option<string>,
    kind: Option<string>,                  // the `type` key
    priority: Option<int>,
    dependencies: Option<seq<Scalar>>,
    assignedTo: Option<string>,
    artifactsProduced: Option<seq<string>>,
    subtasks: Option<seq<Task>>)

  /** A report dictionary (test run, security audit or user feedback). */
  datatype Report = Report(
    kind: Option<string>,                  // the `type` key
    severity: Option<string>,
    content: Option<string>,
    createdAt: Option<string>,
    relatedTask: Option<Scalar>,
    status: Option<string>)

  /**
   * The project state document.  Keys the core does not interpret are kept
   * in `other` (key to its JSON text) so that a read/modify/write cycle can
   * be seen to preserve them.
   */
  datatype Doc = Doc(
    status: Option<string>,
    tasks: Option<seq<Task>>,
    reports: Option<seq<Report>>,
    iterationCount: Option<int>,
    currentLlmCost: Option<real>,
    correctionCycle: Option<int>,
    lastAgent: Option<string>,
    blockers: Option<seq<string>>,
    other: map<string, string>)

  /** What a project's `state.json` holds: a document, or text that is not valid JSON. */
  datatype Entry = Parsed(doc: Doc) | Malformed

  /** The file store: a project without an entry has no `state.json`. */
  type Docs = map<ProjectId, Entry>

  /** A document with no keys at all. */
  const EmptyDoc := Doc(None, None, None, None, None, None, None, None, map[])

  /** A task dictionary with no keys at all. */
  const EmptyTask := Task(None, None, None, None, None, None, None, None, None, None)

  // Project status values
  const Init := "init"
  const InProgress := "in_progress"
  const Completed := "completed"
  const StatusFailed := "failed"
  const CostLimitExceeded := "llm_cost_limit_exceeded"
  const TestsFailed := "tests_failed"
  const VulnerabilitiesFound := "vulnerabilities_found"
  const HumanIntervention := "human_intervention_required"

  // Task status values (`failed` is shared with the project status)
  const Pending := "pending"
  const Done := "done"
  const Skipped := "skipped"

  // Report types, severities and the marker the correction cycle sets
  const QaFunctional := "qa_functional"
  const SecurityAudit := "security_audit"
  const UserFeedback := "user_feedback"
  const Low := "low"
  const Medium := "medium"
  const High := "high"
  const Fixed := "fixed"

  /** Decimal digits of a natural number, as Python's `str` prints it. */
  function NatToString(n: nat): (s: string)
    ensures |s| >= 1
    ensures forall i :: 0 <= i < |s| ==> '0' <= s[i] <= '9'
    decreases n
  {
    var d := [(('0' as int) + n % 10) as char];
    if n < 10 then d else NatToString(n / 10) + d
  }

  /** Python's `str` of an int: a minus sign before the digits of a negative number. */
  function IntToString(n: int): string
  {
    if n >= 0 then NatToString(n) else "-" + NatToString(-n)
  }

  /** The number a string of decimal digits denotes, read most significant digit first. */
  function DigitsValue(s: string): int
    decreases |s|
  {
    if s == [] then 0 else DigitsValue(s[..|s| - 1]) * 10 + (s[|s| - 1] as int - '0' as int)
  }

  /** The digits `NatToString` prints spell the number, with no leading zero. */
  lemma {:induction false} NatToStringValue(n: nat)
    ensures DigitsValue(NatToString(n)) == n
    ensures n >= 10 ==> NatToString(n)[0] != '0'
    decreases n
  {
    var d := [(('0' as int) + n % 10) as char];
    if n >= 10 {
      NatToStringValue(n / 10);
      var s := NatToString(n / 10) + d;
      assert s[..|s| - 1] == NatToString(n / 10);
    }
  }

  /** `IntToString` prints a non-negative number as its digits and a negative one as `-` and the digits of its magnitude. */
  lemma IntToStringValue(n: int)
    ensures n >= 0 ==> DigitsValue(IntToString(n)) == n
    ensures n < 0 ==> IntToString(n)[0] == '-' && DigitsValue(IntToString(n)[1..]) == -n
  {
    if n >= 0 {
      NatToStringValue(n);
    } else {
      NatToStringValue(-n);
      assert IntToString(n)[1..] == NatToString(-n);
    }
  }
}
