# DbtCoreOperator, modelled in Dafny

This project models `DbtCoreOperator`. It is an Airflow operator that runs a dbt command through
dbt's programmatic CLI runner. The operator does two things that the model covers exactly:

- **Argument building.** The stored parameters become an ordered list of CLI strings. The list
  starts with a fixed prefix: the command, `--profiles-dir` and its directory, `--project-dir`
  and its directory. Then come the optional groups in a fixed order: `--target <t>` and
  `--select <s>` (each only when its value is truthy, so `None` and `""` add nothing),
  `--full-refresh` (one element, only when the flag is set), and `--vars '<k: v k: v ...>'`
  (only when the mapping is non-empty).
- **Result translation.** The runner's result becomes log lines and an outcome. The first log
  line is `Executing dbt command: ` followed by the arguments joined by spaces. A failed run
  logs `dbt command failed with exception: <detail>` once, at error level, and raises with that
  message. A successful run logs `dbt command executed successfully.` and then one
  `name: status` line per node, in runner order.

Layout:

- `wrappers.dfy`: module `Wrappers`, an `Option` type for the optional parameters.
- `strings.dfy`: module `Strings`. `Join` is Python's `sep.join(parts)`, with lemmas about
  joining concatenated lists.
- `dbt_operator.dfy`: module `DbtOperator`. It holds the parameter datatype, the specification
  functions (`CommandArgs`, `ResultLog`, `ResultOutcome`, `ExecutionLog`), the lemmas about them,
  and the class `DbtCoreOperator`, which has the stored fields, the constructor, and the methods
  `BuildCommandArgs` and `Execute`. The node loop is the method `LogNodeResults`.

`BuildCommandArgs` builds the list step by step with guarded appends, as the source does. Its
contract ties the result to `CommandArgs`. `Execute` writes the per-node lines through
`LogNodeResults`, a loop over the node results proved equal to `NodeLines`. The contract of
`Execute` ties the log to `ExecutionLog` and the outcome to `ResultOutcome`. Neither method has a
`modifies` clause, so building and executing never change the stored parameters.

The runner's `invoke` is a foreign call, so `Execute` takes it as a parameter of type
`seq<string> -> RunnerResult`. The contract then says that the runner receives exactly
`CommandArgs` of the stored parameters. The runner's result is the datatype
`Failure(detail) | Success(nodes)`. The log is a returned sequence of `Info`/`Error` entries.

The code serialises the pairs in the mapping's iteration order, which is insertion order. The
model keeps that order (`Vars` is a sequence of pairs), and `VarsStringAppend` states it.

The constructor keeps the source's defaults: `target`, `select` and `dbtVars` default to `None`
and `fullRefresh` to `false`.

The vars string escapes nothing. The model reproduces it as written. `VarsStringIsAmbiguous`
shows two different mappings that give the same string: `{"a": "1 b: 2"}` and
`{"a": "1", "b": "2"}`.

## Model

| member | source | states |
|---|---|---|
| `DbtOperator.DbtCoreOperator.constructor` | dags/custom_operator/dbt_operator.py:54-61 | the parameters are stored as given (the mapping as a snapshot of its pairs), and an absent variables mapping is stored as the empty one |
| `DbtOperator.DbtCoreOperator.BuildCommandArgs` | dags/custom_operator/dbt_operator.py:77-95 | the list built by the guarded appends is exactly `CommandArgs` of the stored parameters; there is no `modifies` clause, so no field changes |
| `DbtOperator.DefaultOperatorArgs` | dags/custom_operator/dbt_operator.py:29-32 | an operator created with only the three required arguments gets the defaults and passes exactly the five-element prefix |
| `DbtOperator.Truthy` | dags/custom_operator/dbt_operator.py:84-88 | definition: an optional string is truthy when it is present and non-empty |
| `DbtOperator.Prefix` | dags/custom_operator/dbt_operator.py:77-83 | definition: the command, `--profiles-dir` and its directory, `--project-dir` and its directory |
| `DbtOperator.TargetGroup` | dags/custom_operator/dbt_operator.py:84-85 | definition: `--target` and the target when it is truthy, nothing otherwise |
| `DbtOperator.SelectGroup` | dags/custom_operator/dbt_operator.py:87-88 | definition: `--select` and the selection when it is truthy, nothing otherwise |
| `DbtOperator.FullRefreshGroup` | dags/custom_operator/dbt_operator.py:90-91 | definition: `--full-refresh` when the flag is set, nothing otherwise |
| `DbtOperator.VarsGroup` | dags/custom_operator/dbt_operator.py:93-95 | definition: `--vars` and the quoted vars string when the mapping is non-empty, nothing otherwise |
| `DbtOperator.CommandLine` | dags/custom_operator/dbt_operator.py:97 | definition: `Executing dbt command: ` followed by the arguments joined by spaces |
| `DbtOperator.FailureMessage` | dags/custom_operator/dbt_operator.py:102 | definition: `dbt command failed with exception: ` followed by the detail |
| `DbtOperator.NodeLine` | dags/custom_operator/dbt_operator.py:111 | definition: the node's name, `: `, then its status |
| `DbtOperator.VarEntries` | dags/custom_operator/dbt_operator.py:94 | definition: the `"k: v"` entry of each pair, in insertion order |
| `DbtOperator.VarsString` | dags/custom_operator/dbt_operator.py:94 | definition: the entries joined by single spaces |
| `DbtOperator.VarsArgument` | dags/custom_operator/dbt_operator.py:95 | definition: the vars string wrapped in single quotes |
| `DbtOperator.CommandArgs` | dags/custom_operator/dbt_operator.py:77-95 | definition: the prefix followed by the target, select, full-refresh and vars groups |
| `DbtOperator.NodeLines` | dags/custom_operator/dbt_operator.py:109-111 | definition: one `name: status` info line per node |
| `DbtOperator.ResultLog` | dags/custom_operator/dbt_operator.py:101-111 | definition: the lines logged after the runner returns |
| `DbtOperator.ResultOutcome` | dags/custom_operator/dbt_operator.py:101-104 | definition: a raise with the failure message, or normal completion |
| `DbtOperator.ExecutionLog` | dags/custom_operator/dbt_operator.py:97-111 | definition: the command line followed by the result's lines |
| `Strings.Join` | dags/custom_operator/dbt_operator.py:94 | definition: Python's `sep.join(parts)` |
| `DbtOperator.LogNodeResults` | dags/custom_operator/dbt_operator.py:109-111 | the loop over the node results writes exactly `NodeLines` of them, one line per node in runner order |
| `DbtOperator.BuildCommandArgsTwice` | dags/custom_operator/dbt_operator.py:77-95 | building twice from the same operator gives identical lists |
| `DbtOperator.DbtCoreOperator.Execute` | dags/custom_operator/dbt_operator.py:97-111 | the runner receives exactly the built arguments; the log is the command line followed by the translation of the runner's result; the outcome is a raise with the failure message, or normal completion |
| `DbtOperator.Layout` | dags/custom_operator/dbt_operator.py:77-95 | the prefix, target, select, full-refresh and vars groups occupy consecutive slices in that order, and the vars group ends the list |
| `DbtOperator.ArgsStartWithPrefix` | dags/custom_operator/dbt_operator.py:77-83 | every list has at least five elements and begins with `[command, "--profiles-dir", profiles_dir, "--project-dir", project_dir]` |
| `DbtOperator.ArgsLength` | dags/custom_operator/dbt_operator.py:77-95 | the length is 5 + 2·[target truthy] + 2·[select truthy] + [full_refresh] + 2·[vars non-empty] |
| `DbtOperator.TargetFlag` | dags/custom_operator/dbt_operator.py:84-85 | element 5 is `--target` if and only if the target is truthy, element 6 is then the target; otherwise element 5, when present, is `--select`, `--full-refresh` or `--vars` |
| `DbtOperator.SelectFlag` | dags/custom_operator/dbt_operator.py:87-88 | the select slot holds `--select` if and only if the selection is truthy, followed by the selection |
| `DbtOperator.FullRefreshFlag` | dags/custom_operator/dbt_operator.py:90-91 | the full-refresh slot holds `--full-refresh` if and only if the flag is set, and the flag takes one element with no value: the next element is `--vars` or the list ends |
| `DbtOperator.FullRefreshMembership` | dags/custom_operator/dbt_operator.py:90-91 | when no parameter value is itself `--full-refresh`, that flag occurs in the list if and only if full refresh is set |
| `DbtOperator.VarsFlag` | dags/custom_operator/dbt_operator.py:93-95 | the vars slot holds `--vars` if and only if the mapping is non-empty; the list then ends with `--vars` and `'<vars string>'`, and otherwise it ends at that slot |
| `DbtOperator.VarsArgumentIsQuoted` | dags/custom_operator/dbt_operator.py:95 | the value after `--vars` begins and ends with a single quote |
| `DbtOperator.ArgsDetermineParams` | dags/custom_operator/dbt_operator.py:77-95 | equal argument lists mean equal command and directories, the same truthiness and values of target and select, the same full-refresh flag, and the same vars string |
| `DbtOperator.VarsStringAppend` | dags/custom_operator/dbt_operator.py:94 | adding a pair to a non-empty mapping appends one space and its `k: v` entry, so the string follows insertion order |
| `DbtOperator.VarsExample` | dags/custom_operator/dbt_operator.py:93-95 | `{"a": "1", "b": "2"}` is passed as `'a: 1 b: 2'` |
| `DbtOperator.VarsStringIsAmbiguous` | dags/custom_operator/dbt_operator.py:94-95 | two different mappings give the same vars string, because nothing is escaped |
| `DbtOperator.CommandLineStart` | dags/custom_operator/dbt_operator.py:97 | the first log line is `Executing dbt command: <command> --profiles-dir <dir> --project-dir <dir>`, followed by a space and the optional arguments when there are any |
| `DbtOperator.FailureTranslation` | dags/custom_operator/dbt_operator.py:101-104 | a failed run raises with exactly `dbt command failed with exception: <detail>`, and that message at error level is the only line after the command line |
| `DbtOperator.SuccessTranslation` | dags/custom_operator/dbt_operator.py:106-111 | a successful run completes normally and logs the command line, the success line, and then one `name: status` line per node in runner order, with no other lines |
| `DbtOperator.ErrorLoggedOnlyOnFailure` | dags/custom_operator/dbt_operator.py:101-111 | the log has exactly one error-level line on failure and none on success |
| `DbtOperator.NodeLinesAt` | dags/custom_operator/dbt_operator.py:109-111 | the node lines are one per node, and the line at position i is `Info(name + ": " + status)` of node i |
| `DbtOperator.NodeLinesHaveNoError` | dags/custom_operator/dbt_operator.py:110-111 | the per-node lines are all written at info level |
| `Strings.JoinAppend` | dags/custom_operator/dbt_operator.py:97 | joining two non-empty lists puts exactly one separator between their joined halves |

## Left out

- Constructing `dbtRunner()` is a foreign call with no visible behaviour, so it is not modelled. `invoke` is a function parameter, which makes the runner deterministic in its arguments.
- The Airflow `BaseOperator` base class, the `context` argument and the `**kwargs` forwarding are framework plumbing and are not modelled.
- The logger is not modelled as a sink. Log output is the returned `seq<LogEntry>`, and each entry's level is `Info` or `Error`.
- Python's `str()` of variable keys and values, of `res.exception`, and the f-string formatting of `r.node.name` and `r.status` (line 111; the status is not a plain string) are not modelled. Each is taken as an already formatted string given as input.
- DbtOperator.DbtCoreOperator.constructor: stores a snapshot of the variables mapping. The source keeps a reference to the caller's non-empty dict (`dbt_vars or {}`), so changes the caller makes to that dict before `execute` show up in the `--vars` string; the model does not capture that aliasing.
- The exception type is not modelled. The raise is the `Raised(message)` outcome.
- An absent result list (`res.result` is `None`) and an empty one behave the same in the source, so both are `Success([])`.
- A Python dict has unique keys. `Vars` is a sequence of pairs and does not enforce that. Every property here holds for any sequence of pairs.
- Values of non-string type for target, select, the command or the two directories are not modelled. Truthiness is modelled only for `None` and strings. A non-string directory, such as a `pathlib.Path`, would make the `" ".join` on the logging line raise `TypeError` before the runner is called; the model has no such path.
- RunnerResult: a successful result is modelled only as a list of node results that each have a name and a status. The source reads `r.node.name` and `r.status` from every element, so a result of another shape (plain strings, a bool) raises after the success line is logged; `Execute` does not model that raise.
