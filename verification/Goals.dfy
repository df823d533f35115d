/** Goals and their ordered, fail-closed verification (residual/goalspec.py, residual/verifier.py). */
module Goals {
  import opened Basics
  import Tasks

  type Json = Tasks.Json

  type CheckKind = Tasks.CheckKind

  datatype Criterion = Criterion(name: Name, kind: CheckKind, evaluator: Name, parameters: Json)

  datatype Goal = Goal(criteria: seq<Criterion>, maxPasses: nat, tokenBudget: nat, wallClock: real)

  function Stage(kind: CheckKind): nat {
    match kind
    case Mechanical => 0
    case Structural => 1
    case Judge => 2
  }

  /** What the constructor of a goal enforces. */
  ghost predicate ValidGoal(g: Goal) {
    && g.criteria != []
    && g.maxPasses > 0 && g.tokenBudget > 0 && g.wallClock > 0.0
    && (forall i, j :: 0 <= i < j < |g.criteria| ==> Stage(g.criteria[i].kind) <= Stage(g.criteria[j].kind))
    && (forall i, j :: 0 <= i < j < |g.criteria| ==> g.criteria[i].name != g.criteria[j].name)
  }

  type CheckResult = Tasks.CheckResult

  datatype Reason =
    | PriorCheckFailed
    | JudgeUnavailable
    | NotRegistered(evaluator: Name)
    | CheckError
    | InvalidCheckResult
    | Said(text: string)

  /** A call of an evaluator raises, returns something that is no verdict, or returns a verdict with a reason. */
  datatype Evaluation = Raised | Malformed | Answered(result: CheckResult, reason: string)

  type Evaluators = map<Name, (Json, Json) -> Evaluation>

  datatype CriterionResult = CriterionResult(name: Name, kind: CheckKind, result: CheckResult, reason: Reason)

  datatype Report = Report(overall: bool, results: seq<CriterionResult>, primary: Option<Name>)

  /** What a criterion yields when it is evaluated on its own. */
  function Alone(e: Evaluators, c: Criterion, candidate: Json): (r: (CheckResult, Reason))
    ensures r.0 != Tasks.Skipped
  {
    if c.evaluator !in e then
      (Tasks.Failed, if c.kind == Tasks.Judge then JudgeUnavailable else NotRegistered(c.evaluator))
    else
      match e[c.evaluator](candidate, c.parameters)
      case Raised => (Tasks.Failed, CheckError)
      case Malformed => (Tasks.Failed, InvalidCheckResult)
      case Answered(result, reason) =>
        if result == Tasks.Skipped then (Tasks.Failed, InvalidCheckResult)
        else (result, Said(if |reason| <= 1000 then reason else reason[..1000]))
  }

  /** The evaluator of the criterion is registered and answers PASS. */
  ghost predicate Holds(e: Evaluators, c: Criterion, candidate: Json) {
    && c.evaluator in e
    && var a := e[c.evaluator](candidate, c.parameters);
    a.Answered? && a.result == Tasks.Passed
  }

  /** The evaluator of the criterion is registered and answers that it cannot decide. */
  ghost predicate Undecided(e: Evaluators, c: Criterion, candidate: Json) {
    && c.evaluator in e
    && var a := e[c.evaluator](candidate, c.parameters);
    a.Answered? && a.result == Tasks.Undecided
  }

  /** A criterion fails closed: whatever is not a proper PASS or a proper UNKNOWN is a failure. */
  lemma FailsClosed(e: Evaluators, c: Criterion, candidate: Json)
    ensures var r := Alone(e, c, candidate).0;
      && (r == Tasks.Passed <==> Holds(e, c, candidate))
      && (r == Tasks.Undecided <==> Undecided(e, c, candidate))
      && (r == Tasks.Failed <==> !Holds(e, c, candidate) && !Undecided(e, c, candidate))
  {
  }

  ghost predicate AllHold(e: Evaluators, criteria: seq<Criterion>, candidate: Json) {
    forall i :: 0 <= i < |criteria| ==> Holds(e, criteria[i], candidate)
  }

  function EvaluateOne(e: Evaluators, c: Criterion, candidate: Json, priorFailed: bool): (CheckResult, Reason) {
    if c.kind == Tasks.Judge && priorFailed then (Tasks.Skipped, PriorCheckFailed) else Alone(e, c, candidate)
  }

  /**
   * The reference meaning of a report. No order of evaluation is involved: the verdict is that every criterion
   * holds, a judge is skipped exactly when an earlier criterion does not hold, and the primary failure
   * is the first criterion that does not hold.
   */
  ghost predicate IsReport(e: Evaluators, criteria: seq<Criterion>, candidate: Json, r: Report) {
    && |r.results| == |criteria|
    && (r.overall <==> AllHold(e, criteria, candidate))
    && (forall i :: 0 <= i < |criteria| ==> IsResult(e, criteria, candidate, i, r.results[i]))
    && (match r.primary
        case None => AllHold(e, criteria, candidate)
        case Some(name) =>
          exists i :: 0 <= i < |criteria| && criteria[i].name == name && FirstFailure(e, criteria, candidate, i))
  }

  ghost predicate FirstFailure(e: Evaluators, criteria: seq<Criterion>, candidate: Json, i: nat)
    requires i < |criteria|
  {
    !Holds(e, criteria[i], candidate) && AllHold(e, criteria[..i], candidate)
  }

  ghost predicate IsResult(e: Evaluators, criteria: seq<Criterion>, candidate: Json, i: nat, r: CriterionResult)
    requires i < |criteria|
  {
    && r.name == criteria[i].name && r.kind == criteria[i].kind
    && (r.result, r.reason) ==
       (if criteria[i].kind == Tasks.Judge && !AllHold(e, criteria[..i], candidate)
        then (Tasks.Skipped, PriorCheckFailed)
        else Alone(e, criteria[i], candidate))
  }

  lemma HoldsSnoc(e: Evaluators, criteria: seq<Criterion>, candidate: Json, i: nat)
    requires i < |criteria|
    ensures AllHold(e, criteria[..i + 1], candidate)
            <==> AllHold(e, criteria[..i], candidate) && Holds(e, criteria[i], candidate)
  {
    assert criteria[..i + 1] == criteria[..i] + [criteria[i]];
    assert AllHold(e, criteria[..i + 1], candidate) ==>
        forall k :: 0 <= k < i ==>
          criteria[..i][k] == criteria[..i + 1][k] && Holds(e, criteria[..i + 1][k], candidate);
    assert AllHold(e, criteria[..i + 1], candidate) ==> Holds(e, criteria[..i + 1][i], candidate);
  }

  method Verify(e: Evaluators, criteria: seq<Criterion>, candidate: Json) returns (r: Report)
    ensures IsReport(e, criteria, candidate, r)
  {
    var results: seq<CriterionResult> := [];
    var priorFailed := false;
    var primary: Option<Name> := None;
    ghost var failed: nat := 0;
    for i := 0 to |criteria|
      invariant |results| == i
      invariant priorFailed <==> !AllHold(e, criteria[..i], candidate)
      invariant priorFailed ==> failed < i && results[failed].result != Tasks.Passed
      invariant !priorFailed ==> forall k :: 0 <= k < i ==> results[k].result == Tasks.Passed
      invariant forall k :: 0 <= k < i ==> IsResult(e, criteria, candidate, k, results[k])
      invariant primary.Some? <==> priorFailed
      invariant priorFailed ==> criteria[failed].name == primary.value && FirstFailure(e, criteria, candidate, failed)
    {
      var c := criteria[i];
      var (result, reason) := EvaluateOne(e, c, candidate, priorFailed);
      HoldsSnoc(e, criteria, candidate, i);
      results := results + [CriterionResult(c.name, c.kind, result, reason)];
      assert IsResult(e, criteria, candidate, i, results[i]);
      if result != Tasks.Passed && primary.None? {
        primary := Some(c.name);
        failed := i;
      }
      if result != Tasks.Passed {
        priorFailed := true;
      }
    }
    assert criteria[..|criteria|] == criteria;
    var overall := forall k :: 0 <= k < |results| ==> results[k].result == Tasks.Passed;
    r := Report(overall, results, primary);
  }

  lemma FirstIsFirst(e: Evaluators, criteria: seq<Criterion>, candidate: Json, i: nat, j: nat)
    requires i < |criteria| && j < |criteria|
    requires FirstFailure(e, criteria, candidate, i) && !Holds(e, criteria[j], candidate)
    ensures i <= j
  {
  }

  /** A report is determined by its meaning. */
  lemma ReportIsUnique(e: Evaluators, criteria: seq<Criterion>, candidate: Json, a: Report, b: Report)
    requires IsReport(e, criteria, candidate, a) && IsReport(e, criteria, candidate, b)
    ensures a == b
  {
    forall i | 0 <= i < |criteria|
      ensures a.results[i] == b.results[i]
    {
      assert IsResult(e, criteria, candidate, i, a.results[i]) && IsResult(e, criteria, candidate, i, b.results[i]);
    }
    assert a.results == b.results;
    if a.primary.Some? && b.primary.Some? {
      var i :| 0 <= i < |criteria| && criteria[i].name == a.primary.value && FirstFailure(e, criteria, candidate, i);
      var j :| 0 <= j < |criteria| && criteria[j].name == b.primary.value && FirstFailure(e, criteria, candidate, j);
      FirstIsFirst(e, criteria, candidate, i, j);
      FirstIsFirst(e, criteria, candidate, j, i);
    }
  }

  /**
   * Judges come last in a valid goal, so one is consulted only when every mechanical and structural criterion holds.
   */
  lemma JudgesRunLast(e: Evaluators, g: Goal, candidate: Json, r: Report, i: nat, j: nat)
    requires ValidGoal(g) && IsReport(e, g.criteria, candidate, r)
    requires i < |g.criteria| && j < |g.criteria|
    requires g.criteria[i].kind == Tasks.Judge && r.results[i].result != Tasks.Skipped
    requires g.criteria[j].kind != Tasks.Judge
    ensures r.results[j].result == Tasks.Passed && Holds(e, g.criteria[j], candidate)
  {
    assert IsResult(e, g.criteria, candidate, i, r.results[i]);
    assert IsResult(e, g.criteria, candidate, j, r.results[j]);
    assert j < i;
    assert g.criteria[..i][j] == g.criteria[j];
  }

  /** The first criterion that does not hold; the number of criteria when all hold. */
  ghost function Failure(e: Evaluators, criteria: seq<Criterion>, candidate: Json): (i: nat)
    ensures i <= |criteria| && AllHold(e, criteria[..i], candidate)
    ensures i < |criteria| ==> FirstFailure(e, criteria, candidate, i)
  {
    if criteria == [] then 0 else
      var front := criteria[..|criteria| - 1];
      var i := Failure(e, front, candidate);
      assert criteria[..i] == front[..i];
      if i < |front| then i else
        HoldsSnoc(e, criteria, candidate, |front|);
        if Holds(e, criteria[|front|], candidate) then |criteria| else |front|
  }

  ghost function ResultAt(e: Evaluators, criteria: seq<Criterion>, candidate: Json, i: nat): (r: CriterionResult)
    requires i < |criteria|
    ensures IsResult(e, criteria, candidate, i, r)
  {
    var (result, reason) := EvaluateOne(e, criteria[i], candidate, !AllHold(e, criteria[..i], candidate));
    CriterionResult(criteria[i].name, criteria[i].kind, result, reason)
  }

  /** The report that verification returns. */
  ghost function ReportOf(e: Evaluators, criteria: seq<Criterion>, candidate: Json): (r: Report)
    ensures IsReport(e, criteria, candidate, r)
  {
    var i := Failure(e, criteria, candidate);
    assert i == |criteria| ==> criteria[..i] == criteria;
    Report(
      i == |criteria|,
      seq(|criteria|, k requires 0 <= k < |criteria| => ResultAt(e, criteria, candidate, k)),
      if i == |criteria| then None else Some(criteria[i].name))
  }
}
