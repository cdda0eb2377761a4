/**
 * The workflow record: its name and description, run status and result,
 * parameters, prompts, the activity graph (a map from activity name to
 * activity, successors held by name) and the entry points start,
 * on_success and on_failed.
 */
module Workflows {
  import opened Wrappers
  import opened PyStrings
  import opened Dicts
  import opened Prompts
  import Activities

  datatype Status = CREATED | DOING | SUCCESS | FAILED

  /** The enum value of each status. */
  function StatusValue(s: Status): (v: int)
    ensures -1 <= v <= 2
    ensures s == CREATED <==> v == -1
  {
    match s
    case CREATED => -1
    case DOING => 0
    case SUCCESS => 1
    case FAILED => 2
  }

  /** str(status): the member name. */
  function StatusName(s: Status): string {
    match s
    case CREATED => "CREATED"
    case DOING => "DOING"
    case SUCCESS => "SUCCESS"
    case FAILED => "FAILED"
  }

  /** Workflow.Status[n]: the status called exactly n (case-sensitive). */
  function StatusByName(n: string): Option<Status> {
    if n == "CREATED" then Some(CREATED)
    else if n == "DOING" then Some(DOING)
    else if n == "SUCCESS" then Some(SUCCESS)
    else if n == "FAILED" then Some(FAILED)
    else None
  }

  /** Status names and statuses correspond one to one. */
  lemma StatusByNameIff(n: string, s: Status)
    ensures StatusByName(n) == Some(s) <==> n == StatusName(s)
  {
    if n == StatusName(s) {
      match s
      case CREATED =>
      case DOING =>
      case SUCCESS =>
      case FAILED =>
    }
  }

  /** The status values are pairwise different. */
  lemma StatusValueInjective(a: Status, b: Status)
    ensures StatusValue(a) == StatusValue(b) <==> a == b
  {
  }

  /** The attributes Workflow.__init__ sets, followed by six that the
      reader, the context and the writer use but the constructor does not
      set: onSuccess, onFailed, params, filepath, directory and instanceNr. */
  datatype Workflow = Workflow(
    name: string,
    description: string,
    status: Status,
    result: Option<string>,
    variables: Dict<string>,
    prompts: Dict<Prompt>,
    activities: map<string, Activities.Activity>,
    start: Option<string>,
    onSuccess: Option<string>,
    onFailed: Option<string>,
    params: Dict<string>,
    filepath: string,
    directory: string,
    instanceNr: int)

  /** Workflow(name): nothing read yet, not run yet. */
  function NewWorkflow(name: string): (w: Workflow)
    ensures w.name == name && w.description == ""
    ensures w.status == CREATED && w.result == None
    ensures w.variables == [] && w.prompts == [] && w.activities == map[] && w.params == []
    ensures w.start == None && w.onSuccess == None && w.onFailed == None
    ensures w.filepath == "" && w.directory == "" && w.instanceNr == 0
  {
    Workflow(name, "", CREATED, None, [], [], map[], None, None, None, [], "", "", 0)
  }

  /** How str() prints an optional string: the text, or None. */
  function OptionText(s: Option<string>): string {
    if s.Some? then s.value else "None"
  }

  /** str(workflow) */
  function ToString(w: Workflow): (r: string)
    ensures StartsWith(r, "Workflow(name=" + w.name + ", status=" + StatusName(w.status) + ", result=")
    ensures r[|r| - 1] == ')'
  {
    var head := "Workflow(name=" + w.name + ", status=" + StatusName(w.status) + ", result=";
    assert head + OptionText(w.result) + ")" == head + (OptionText(w.result) + ")");
    head + OptionText(w.result) + ")"
  }

  /** A new workflow prints status CREATED and result None. */
  lemma ToStringNew(name: string)
    ensures ToString(NewWorkflow(name)) == "Workflow(name=" + name + ", status=CREATED, result=None)"
  {
  }
}
