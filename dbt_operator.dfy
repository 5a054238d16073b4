/**
 * Model of `DbtCoreOperator`, the Airflow operator that runs a dbt CLI command
 * through dbt's programmatic runner.
 *
 * The operator stores its parameters at construction, builds an ordered list of
 * CLI arguments from them, hands that list to the runner and turns the runner's
 * result into log lines and, on failure, a raised error. The runner and the
 * logger are outside the model: the runner is a function parameter from the
 * argument list to its result, and the log is the returned list of entries.
 */
module DbtOperator {
  import opened Wrappers
  import opened Strings

  /** The variables mapping, as its `(key, value)` pairs in insertion order. */
  type Vars = seq<(string, string)>

  /** The operator's stored parameters, as `__init__` leaves them. */
  datatype Params = Params(
    command: string,
    projectDir: string,
    profilesDir: string,
    target: Option<string>,
    select: Option<string>,
    vars: Vars,
    fullRefresh: bool)

  /** Python truthiness of an optional string: present and non-empty. */
  predicate Truthy(s: Option<string>)
  {
    s.Some? && s.value != ""
  }

  /** 1 for true and 0 for false: how many elements a one-element group adds. */
  function Ind(b: bool): nat
  {
    if b then 1 else 0
  }

  // ---------------------------------------------------------------------------
  // Argument list
  // ---------------------------------------------------------------------------

  /** The `"k: v"` entries of the variables, one per pair, in insertion order. */
  function VarEntries(vars: Vars): seq<string>
  {
    seq(|vars|, i requires 0 <= i < |vars| => vars[i].0 + ": " + vars[i].1)
  }

  /** The entries joined by single spaces; nothing is escaped. */
  function VarsString(vars: Vars): string
  {
    Join(" ", VarEntries(vars))
  }

  /** The value that follows `--vars`: the vars string wrapped in single quotes. */
  function VarsArgument(vars: Vars): string
  {
    "'" + VarsString(vars) + "'"
  }

  /** The fixed start: the command, then the profiles and project directories. */
  function Prefix(p: Params): seq<string>
  {
    [p.command, "--profiles-dir", p.profilesDir, "--project-dir", p.projectDir]
  }

  function TargetGroup(p: Params): seq<string>
  {
    if Truthy(p.target) then ["--target", p.target.value] else []
  }

  function SelectGroup(p: Params): seq<string>
  {
    if Truthy(p.select) then ["--select", p.select.value] else []
  }

  function FullRefreshGroup(p: Params): seq<string>
  {
    if p.fullRefresh then ["--full-refresh"] else []
  }

  function VarsGroup(p: Params): seq<string>
  {
    if |p.vars| > 0 then ["--vars", VarsArgument(p.vars)] else []
  }

  /** The argument list: the prefix, then each optional group in its fixed order. */
  function CommandArgs(p: Params): seq<string>
  {
    Prefix(p) + TargetGroup(p) + SelectGroup(p) + FullRefreshGroup(p) + VarsGroup(p)
  }

  /** Where each optional group starts in the argument list. */
  function SelectAt(p: Params): nat
  {
    5 + 2 * Ind(Truthy(p.target))
  }

  function FullRefreshAt(p: Params): nat
  {
    SelectAt(p) + 2 * Ind(Truthy(p.select))
  }

  function VarsAt(p: Params): nat
  {
    FullRefreshAt(p) + Ind(p.fullRefresh)
  }

  /** Every group sits at its offset; the list ends where the vars group ends. */
  lemma Layout(p: Params)
    ensures CommandArgs(p)[..5] == Prefix(p)
    ensures CommandArgs(p)[5..SelectAt(p)] == TargetGroup(p)
    ensures CommandArgs(p)[SelectAt(p)..FullRefreshAt(p)] == SelectGroup(p)
    ensures CommandArgs(p)[FullRefreshAt(p)..VarsAt(p)] == FullRefreshGroup(p)
    ensures CommandArgs(p)[VarsAt(p)..] == VarsGroup(p)
  {
  }

  /** The list always begins with the command and the two directory flags. */
  lemma ArgsStartWithPrefix(p: Params)
    ensures |CommandArgs(p)| >= 5
    ensures CommandArgs(p)[..5] ==
      [p.command, "--profiles-dir", p.profilesDir, "--project-dir", p.projectDir]
  {
  }

  /** Its length is 5, plus 2 per truthy target or select, 1 for full refresh, 2 for vars. */
  lemma ArgsLength(p: Params)
    ensures |CommandArgs(p)| ==
      5 + 2 * Ind(Truthy(p.target)) + 2 * Ind(Truthy(p.select))
        + Ind(p.fullRefresh) + 2 * Ind(|p.vars| > 0)
  {
  }

  /** `--target` opens the optional part exactly when the target is truthy, followed by its value. */
  lemma TargetFlag(p: Params)
    ensures Truthy(p.target) <==> |CommandArgs(p)| > 5 && CommandArgs(p)[5] == "--target"
    ensures Truthy(p.target) ==> CommandArgs(p)[6] == p.target.value
    ensures !Truthy(p.target) ==> SelectAt(p) == 5
    ensures !Truthy(p.target) && |CommandArgs(p)| > 5 ==>
      CommandArgs(p)[5] in ["--select", "--full-refresh", "--vars"]
  {
  }

  /** `--select` stands at its slot exactly when the selection is truthy, followed by its value. */
  lemma SelectFlag(p: Params)
    ensures Truthy(p.select) <==>
      |CommandArgs(p)| > SelectAt(p) && CommandArgs(p)[SelectAt(p)] == "--select"
    ensures Truthy(p.select) ==> CommandArgs(p)[SelectAt(p) + 1] == p.select.value
  {
  }

  /**
   * `--full-refresh` stands at its slot exactly when the flag is set, and it is
   * one element: the vars group (or the end of the list) follows it directly.
   */
  lemma FullRefreshFlag(p: Params)
    ensures p.fullRefresh <==>
      |CommandArgs(p)| > FullRefreshAt(p) && CommandArgs(p)[FullRefreshAt(p)] == "--full-refresh"
    ensures VarsAt(p) == FullRefreshAt(p) + (if p.fullRefresh then 1 else 0)
    ensures p.fullRefresh ==>
      |CommandArgs(p)| == FullRefreshAt(p) + 1 || CommandArgs(p)[FullRefreshAt(p) + 1] == "--vars"
  {
  }

  /**
   * Non-empty vars and only they put `--vars` at its slot; the list then ends
   * with `--vars` and the quoted vars string, and without vars it ends right there.
   */
  lemma VarsFlag(p: Params)
    ensures |p.vars| > 0 <==>
      |CommandArgs(p)| > VarsAt(p) && CommandArgs(p)[VarsAt(p)] == "--vars"
    ensures |p.vars| > 0 ==>
      |CommandArgs(p)| == VarsAt(p) + 2 &&
      CommandArgs(p)[|CommandArgs(p)| - 2..] == ["--vars", "'" + VarsString(p.vars) + "'"]
    ensures |p.vars| == 0 ==> |CommandArgs(p)| == VarsAt(p)
  {
  }

  /** The vars value always starts with a quote, so it is never one of the flags. */
  lemma VarsArgumentIsQuoted(vars: Vars)
    ensures |VarsArgument(vars)| >= 2
    ensures VarsArgument(vars)[0] == '\'' && VarsArgument(vars)[|VarsArgument(vars)| - 1] == '\''
  {
  }

  /** No parameter value that the list carries verbatim is the string `--full-refresh`. */
  predicate NoValueIsFullRefresh(p: Params)
  {
    p.command != "--full-refresh" && p.profilesDir != "--full-refresh"
    && p.projectDir != "--full-refresh"
    && (p.target.Some? ==> p.target.value != "--full-refresh")
    && (p.select.Some? ==> p.select.value != "--full-refresh")
  }

  /** When no parameter value is itself `--full-refresh`, the flag is in the list iff full refresh is set. */
  lemma FullRefreshMembership(p: Params)
    requires NoValueIsFullRefresh(p)
    ensures "--full-refresh" in CommandArgs(p) <==> p.fullRefresh
  {
    Layout(p);
    FullRefreshFlag(p);
    VarsArgumentIsQuoted(p.vars);
  }

  /**
   * The argument list determines the parameters up to truthiness and the vars
   * string: two parameter sets with the same list agree on everything the list shows.
   */
  lemma ArgsDetermineParams(p: Params, q: Params)
    requires CommandArgs(p) == CommandArgs(q)
    ensures p.command == q.command && p.profilesDir == q.profilesDir && p.projectDir == q.projectDir
    ensures Truthy(p.target) == Truthy(q.target)
    ensures Truthy(p.target) ==> p.target.value == q.target.value
    ensures Truthy(p.select) == Truthy(q.select)
    ensures Truthy(p.select) ==> p.select.value == q.select.value
    ensures p.fullRefresh == q.fullRefresh
    ensures (|p.vars| > 0) == (|q.vars| > 0)
    ensures |p.vars| > 0 ==> VarsString(p.vars) == VarsString(q.vars)
  {
    SameArgsSamePrefix(p, q);
    SameArgsSameTarget(p, q);
    SameArgsSameSelect(p, q);
    SameArgsSameFullRefresh(p, q);
    SameArgsSameVars(p, q);
  }

  // The five steps of ArgsDetermineParams, one group at a time.

  lemma SameArgsSamePrefix(p: Params, q: Params)
    requires CommandArgs(p) == CommandArgs(q)
    ensures p.command == q.command && p.profilesDir == q.profilesDir && p.projectDir == q.projectDir
  {
    ArgsStartWithPrefix(p);
    ArgsStartWithPrefix(q);
  }

  lemma SameArgsSameTarget(p: Params, q: Params)
    requires CommandArgs(p) == CommandArgs(q)
    ensures Truthy(p.target) == Truthy(q.target) && SelectAt(p) == SelectAt(q)
    ensures Truthy(p.target) ==> p.target.value == q.target.value
  {
    TargetFlag(p);
    TargetFlag(q);
  }

  lemma SameArgsSameSelect(p: Params, q: Params)
    requires CommandArgs(p) == CommandArgs(q) && SelectAt(p) == SelectAt(q)
    ensures Truthy(p.select) == Truthy(q.select) && FullRefreshAt(p) == FullRefreshAt(q)
    ensures Truthy(p.select) ==> p.select.value == q.select.value
  {
    SelectFlag(p);
    SelectFlag(q);
  }

  lemma SameArgsSameFullRefresh(p: Params, q: Params)
    requires CommandArgs(p) == CommandArgs(q) && FullRefreshAt(p) == FullRefreshAt(q)
    ensures p.fullRefresh == q.fullRefresh && VarsAt(p) == VarsAt(q)
  {
    FullRefreshFlag(p);
    FullRefreshFlag(q);
  }

  lemma SameArgsSameVars(p: Params, q: Params)
    requires CommandArgs(p) == CommandArgs(q) && VarsAt(p) == VarsAt(q)
    ensures (|p.vars| > 0) == (|q.vars| > 0)
    ensures |p.vars| > 0 ==> VarsString(p.vars) == VarsString(q.vars)
  {
    VarsFlag(p);
    VarsFlag(q);
    if |p.vars| > 0 {
      var a := CommandArgs(p);
      var v := a[|a| - 1];
      assert v == "'" + VarsString(p.vars) + "'" == "'" + VarsString(q.vars) + "'";
      assert VarsString(p.vars) == v[1..|v| - 1];
      assert VarsString(q.vars) == v[1..|v| - 1];
    }
  }

  /** Adding a pair to a non-empty mapping appends one space and its `"k: v"` entry. */
  lemma VarsStringAppend(vars: Vars, k: string, v: string)
    requires |vars| > 0
    ensures VarsString(vars + [(k, v)]) == VarsString(vars) + " " + k + ": " + v
  {
    assert VarEntries(vars + [(k, v)]) == VarEntries(vars) + [k + ": " + v];
    JoinSnoc(" ", VarEntries(vars), k + ": " + v);
  }

  /** `{"a": "1", "b": "2"}` is passed as `--vars 'a: 1 b: 2'`. */
  lemma VarsExample()
    ensures VarsArgument([("a", "1"), ("b", "2")]) == "'a: 1 b: 2'"
  {
  }

  /**
   * The vars string escapes nothing: a value holding `" b: 2"` gives the same
   * string as a second variable `b`, so dbt cannot tell the two mappings apart.
   */
  lemma VarsStringIsAmbiguous()
    ensures [("a", "1 b: 2")] != [("a", "1"), ("b", "2")]
    ensures VarsString([("a", "1 b: 2")]) == VarsString([("a", "1"), ("b", "2")])
  {
  }

  // ---------------------------------------------------------------------------
  // Result translation
  // ---------------------------------------------------------------------------

  /** One entry of the runner's per-node results: the node's name and its status label. */
  datatype NodeResult = NodeResult(name: string, status: string)

  /**
   * What the runner reports: failure with its exception detail, or success with
   * the per-node results in runner order (an absent result list is empty).
   */
  datatype RunnerResult = Failure(detail: string) | Success(nodes: seq<NodeResult>)

  /** A log line at the level it is written. */
  datatype LogEntry = Info(text: string) | Error(text: string)

  /** How `execute` ends: it returns normally, or raises with this message. */
  datatype Outcome = Completed | Raised(message: string)

  const EXECUTING_PREFIX := "Executing dbt command: "
  const FAILURE_PREFIX := "dbt command failed with exception: "
  const SUCCESS_LINE := "dbt command executed successfully."

  /** The first log line: the prefix and the arguments joined by spaces. */
  function CommandLine(args: seq<string>): string
  {
    EXECUTING_PREFIX + Join(" ", args)
  }

  function FailureMessage(detail: string): string
  {
    FAILURE_PREFIX + detail
  }

  function NodeLine(n: NodeResult): string
  {
    n.name + ": " + n.status
  }

  /** One info line per node, in runner order. */
  function NodeLines(nodes: seq<NodeResult>): seq<LogEntry>
  {
    if |nodes| == 0 then [] else [Info(NodeLine(nodes[0]))] + NodeLines(nodes[1..])
  }

  /** The log lines written after the runner returns. */
  function ResultLog(res: RunnerResult): seq<LogEntry>
  {
    match res
    case Failure(detail) => [Error(FailureMessage(detail))]
    case Success(nodes) => [Info(SUCCESS_LINE)] + NodeLines(nodes)
  }

  function ResultOutcome(res: RunnerResult): Outcome
  {
    match res
    case Failure(detail) => Raised(FailureMessage(detail))
    case Success(_) => Completed
  }

  /** The whole log of one execution with parameters `p` and runner result `res`. */
  function ExecutionLog(p: Params, res: RunnerResult): seq<LogEntry>
  {
    [Info(CommandLine(CommandArgs(p)))] + ResultLog(res)
  }

  function ErrorCount(log: seq<LogEntry>): nat
  {
    if |log| == 0 then 0 else Ind(log[0].Error?) + ErrorCount(log[1..])
  }

  lemma {:induction false} NodeLinesAt(nodes: seq<NodeResult>)
    ensures |NodeLines(nodes)| == |nodes|
    ensures forall i :: 0 <= i < |nodes| ==> NodeLines(nodes)[i] == Info(nodes[i].name + ": " + nodes[i].status)
  {
    if |nodes| > 0 {
      NodeLinesAt(nodes[1..]);
      forall i | 0 < i < |nodes|
        ensures NodeLines(nodes)[i] == Info(nodes[i].name + ": " + nodes[i].status)
      {
        assert NodeLines(nodes)[i] == NodeLines(nodes[1..])[i - 1];
        assert nodes[1..][i - 1] == nodes[i];
      }
    }
  }

  lemma {:induction false} NodeLinesAppend(nodes: seq<NodeResult>, n: NodeResult)
    ensures NodeLines(nodes + [n]) == NodeLines(nodes) + [Info(n.name + ": " + n.status)]
  {
    if |nodes| > 0 {
      assert (nodes + [n])[1..] == nodes[1..] + [n];
      NodeLinesAppend(nodes[1..], n);
    } else {
      assert (nodes + [n])[1..] == [];
    }
  }

  lemma {:induction false} NodeLinesHaveNoError(nodes: seq<NodeResult>)
    ensures ErrorCount(NodeLines(nodes)) == 0
  {
    if |nodes| > 0 {
      assert NodeLines(nodes)[1..] == NodeLines(nodes[1..]);
      NodeLinesHaveNoError(nodes[1..]);
    }
  }

  /**
   * On failure the run raises with exactly `"dbt command failed with exception: "`
   * and the detail, and that message is the only line after the command line.
   */
  lemma FailureTranslation(p: Params, detail: string)
    ensures ResultOutcome(Failure(detail)) == Raised("dbt command failed with exception: " + detail)
    ensures ExecutionLog(p, Failure(detail)) ==
      [Info(CommandLine(CommandArgs(p))), Error("dbt command failed with exception: " + detail)]
  {
  }

  /**
   * On success the run returns normally; after the command line comes the
   * success line, then one `"name: status"` info line per node in runner order.
   */
  lemma SuccessTranslation(p: Params, nodes: seq<NodeResult>)
    ensures ResultOutcome(Success(nodes)) == Completed
    ensures |ExecutionLog(p, Success(nodes))| == 2 + |nodes|
    ensures ExecutionLog(p, Success(nodes))[..2] ==
      [Info(CommandLine(CommandArgs(p))), Info("dbt command executed successfully.")]
    ensures forall i :: 0 <= i < |nodes| ==>
      ExecutionLog(p, Success(nodes))[i + 2] == Info(nodes[i].name + ": " + nodes[i].status)
  {
    NodeLinesAt(nodes);
  }

  /** The error line is written once on failure and never on success. */
  lemma ErrorLoggedOnlyOnFailure(p: Params, res: RunnerResult)
    ensures ErrorCount(ExecutionLog(p, res)) == if res.Failure? then 1 else 0
  {
    var log := ExecutionLog(p, res);
    assert log[1..] == ResultLog(res);
    match res
    case Failure(_) =>
      assert ResultLog(res)[1..] == [];
      assert ErrorCount(log[1..]) == 1;
    case Success(nodes) =>
      assert ResultLog(res)[1..] == NodeLines(nodes);
      NodeLinesHaveNoError(nodes);
  }

  /** The command line spells out the prefix arguments first, then the optional ones. */
  lemma CommandLineStart(p: Params)
    ensures CommandLine(CommandArgs(p)) ==
      "Executing dbt command: " + p.command + " " + "--profiles-dir" + " " + p.profilesDir
        + " " + "--project-dir" + " " + p.projectDir
        + (if |CommandArgs(p)| == 5 then "" else " " + Join(" ", CommandArgs(p)[5..]))
  {
    ArgsStartWithPrefix(p);
    CommandLineAfterPrefix(p, CommandArgs(p));
  }

  /** The command line of any list that starts with the prefix of `p`. */
  lemma CommandLineAfterPrefix(p: Params, a: seq<string>)
    requires |a| >= 5 && a[..5] == Prefix(p)
    ensures CommandLine(a) ==
      "Executing dbt command: " + p.command + " " + "--profiles-dir" + " " + p.profilesDir
        + " " + "--project-dir" + " " + p.projectDir
        + (if |a| == 5 then "" else " " + Join(" ", a[5..]))
  {
    assert a == Prefix(p) + a[5..];
    JoinAfterPrefix(p, a[5..]);
  }

  /** Joining the prefix and any further arguments. */
  lemma JoinAfterPrefix(p: Params, rest: seq<string>)
    ensures Join(" ", Prefix(p) + rest) ==
      p.command + " " + "--profiles-dir" + " " + p.profilesDir + " " + "--project-dir" + " " + p.projectDir
        + (if |rest| == 0 then "" else " " + Join(" ", rest))
  {
    JoinPrefix(p);
    if |rest| > 0 {
      JoinAppend(" ", Prefix(p), rest);
    } else {
      assert Prefix(p) + rest == Prefix(p);
    }
  }

  lemma JoinPrefix(p: Params)
    ensures Join(" ", Prefix(p)) ==
      p.command + " " + "--profiles-dir" + " " + p.profilesDir + " " + "--project-dir" + " " + p.projectDir
  {
    JoinFive(" ", p.command, "--profiles-dir", p.profilesDir, "--project-dir", p.projectDir);
  }

  // ---------------------------------------------------------------------------
  // The operator
  // ---------------------------------------------------------------------------

  class DbtCoreOperator {
    var dbtCommand: string
    var dbtProjectDir: string
    var dbtProfilesDir: string
    var target: Option<string>
    var select: Option<string>
    var dbtVars: Vars
    var fullRefresh: bool

    /** The stored parameters as one value. */
    function Parameters(): Params
      reads this
    {
      Params(dbtCommand, dbtProjectDir, dbtProfilesDir, target, select, dbtVars, fullRefresh)
    }

    /** Stores the parameters verbatim; an absent variables mapping becomes the empty one. */
    constructor (dbtProjectDir: string, dbtProfilesDir: string, dbtCommand: string,
                 target: Option<string> := None, select: Option<string> := None,
                 dbtVars: Option<Vars> := None, fullRefresh: bool := false)
      ensures Parameters() ==
        Params(dbtCommand, dbtProjectDir, dbtProfilesDir, target, select,
               if dbtVars.Some? then dbtVars.value else [], fullRefresh)
    {
      this.dbtCommand := dbtCommand;
      this.dbtProjectDir := dbtProjectDir;
      this.dbtProfilesDir := dbtProfilesDir;
      this.target := target;
      this.select := select;
      this.dbtVars := if dbtVars.Some? then dbtVars.value else [];
      this.fullRefresh := fullRefresh;
    }

    /** Builds the argument list step by step; it reads the stored fields and changes nothing. */
    method BuildCommandArgs() returns (args: seq<string>)
      ensures args == CommandArgs(Parameters())
    {
      args := [dbtCommand, "--profiles-dir", dbtProfilesDir, "--project-dir", dbtProjectDir];
      if Truthy(target) {
        args := args + ["--target", target.value];
      }
      if Truthy(select) {
        args := args + ["--select", select.value];
      }
      if fullRefresh {
        args := args + ["--full-refresh"];
      }
      if |dbtVars| > 0 {
        var varsString := Join(" ", VarEntries(dbtVars));
        args := args + ["--vars", "'" + varsString + "'"];
      }
    }

    /**
     * Runs the command: logs it, passes the arguments to the runner, then logs
     * and reports the runner's result.
     */
    method Execute(invoke: seq<string> -> RunnerResult) returns (log: seq<LogEntry>, outcome: Outcome)
      ensures log == ExecutionLog(Parameters(), invoke(CommandArgs(Parameters())))
      ensures outcome == ResultOutcome(invoke(CommandArgs(Parameters())))
    {
      var args := BuildCommandArgs();
      log := [Info(EXECUTING_PREFIX + Join(" ", args))];
      var res := invoke(args);
      if res.Failure? {
        var errorMessage := FAILURE_PREFIX + res.detail;
        log := log + [Error(errorMessage)];
        outcome := Raised(errorMessage);
        return;
      }
      var nodeLines := LogNodeResults(res.nodes);
      log := log + [Info(SUCCESS_LINE)] + nodeLines;
      outcome := Completed;
    }
  }

  /** The per-node log lines, written one node at a time in runner order. */
  method LogNodeResults(nodes: seq<NodeResult>) returns (lines: seq<LogEntry>)
    ensures lines == NodeLines(nodes)
  {
    lines := [];
    for i := 0 to |nodes|
      invariant lines == NodeLines(nodes[..i])
    {
      var line := Info(nodes[i].name + ": " + nodes[i].status);
      NodeLinesAppend(nodes[..i], nodes[i]);
      assert nodes[..i + 1] == nodes[..i] + [nodes[i]];
      lines := lines + [line];
    }
    assert nodes[..|nodes|] == nodes;
  }

  /** An operator built from the three required arguments alone passes only the fixed prefix. */
  method DefaultOperatorArgs(projectDir: string, profilesDir: string, command: string)
    returns (args: seq<string>)
    ensures args == [command, "--profiles-dir", profilesDir, "--project-dir", projectDir]
  {
    var op := new DbtCoreOperator(projectDir, profilesDir, command);
    args := op.BuildCommandArgs();
  }

  /** Building twice from the same operator gives the same list: the build has no effect on the operator. */
  method BuildCommandArgsTwice(op: DbtCoreOperator) returns (first: seq<string>, second: seq<string>)
    ensures first == second
  {
    first := op.BuildCommandArgs();
    second := op.BuildCommandArgs();
  }
}
