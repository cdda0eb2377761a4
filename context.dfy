/**
 * The run-time context of a workflow: its status, its current result and
 * its variables, and the resolution of a name to a value.  A name resolves,
 * in this order, as a quoted constant, as the STATUS or RESULT/CONTENT
 * pseudo-variable, as a "file:" reference, as a variable, as a prompt, as an
 * environment variable, and otherwise to the caller's default.
 */
module Contexts {
  import opened Wrappers
  import opened PyStrings
  import opened Dicts
  import opened Prompts
  import opened Workflows
  import Commands

  const FilePrefix: string := "file:"
  const MaxNameLength: nat := 100

  /** What the context reads but does not own: the process environment and
      the contents of the files "file:" names refer to. */
  datatype Outside = Outside(environ: map<string, string>, readFile: string -> string)

  /** The part of the context that running activities changes. */
  datatype State = State(status: Status, result: Option<string>, variables: Dict<string>)

  /** A name between single quotes is a constant. */
  predicate Quoted(name: string) {
    |name| >= 1 && name[0] == '\'' && name[|name| - 1] == '\''
  }

  /** name[1:-1] of a quoted name (empty for the one-character name "'"). */
  function Unquote(name: string): (r: string)
    requires Quoted(name)
    ensures |r| == if |name| >= 2 then |name| - 2 else 0
  {
    if |name| >= 2 then name[1..|name| - 1] else ""
  }

  /** The names that are neither constants nor pseudo-variables nor file
      references: the ones stored among the variables. */
  predicate IsVariableName(name: string) {
    name != [] && !Quoted(name) && |name| <= MaxNameLength
    && name != "STATUS" && name != "RESULT" && name != "CONTENT"
    && !StartsWith(name, FilePrefix)
  }

  /** A value held in a variable, with an indirect "file:" value replaced by
      the file's content. */
  function Deref(o: Outside, value: string): string {
    if StartsWith(value, FilePrefix) then o.readFile(value[|FilePrefix|..]) else value
  }

  /** Context.get_value(name, default) */
  function Lookup(s: State, w: Workflow, o: Outside, name: string, default: Option<string>): (r: Option<string>)
    ensures default.Some? ==> r.Some?
  {
    if name == [] then default
    else if Quoted(name) then Some(Unquote(name))
    else if |name| > MaxNameLength then default
    else if name == "STATUS" then Some(StatusName(s.status))
    else if name == "RESULT" || name == "CONTENT" then Some(s.result.GetOr(""))
    else if StartsWith(name, FilePrefix) then Some(o.readFile(name[|FilePrefix|..]))
    else if HasKey(s.variables, name) then Some(Deref(o, Get(s.variables, name).value))
    else if HasKey(w.prompts, name) then Some(Get(w.prompts, name).value.content)
    else if name in o.environ then Some(o.environ[name])
    else default
  }

  /** Context.set_value(name, value): the new state.  Writing to a "file:"
      name changes no part of the state. */
  function Assign(s: State, name: string, value: string): State {
    if name == [] || Quoted(name) || |name| > MaxNameLength then s
    else if name == "STATUS" then
      (if StatusByName(value).Some? then s.(status := StatusByName(value).value) else s)
    else if name == "RESULT" || name == "CONTENT" then s.(result := Some(value))
    else if StartsWith(name, FilePrefix) then s
    else s.(variables := Put(s.variables, name, value))
  }

  /** An empty name, a constant or an over-long name yields the default;
      a quoted name yields its inner text whatever its length. */
  lemma LookupConstants(s: State, w: Workflow, o: Outside, name: string, default: Option<string>)
    ensures name == [] ==> Lookup(s, w, o, name, default) == default
    ensures Quoted(name) ==> Lookup(s, w, o, name, default) == Some(Unquote(name))
    ensures !Quoted(name) && |name| > MaxNameLength ==> Lookup(s, w, o, name, default) == default
  {
  }

  /** STATUS, RESULT and CONTENT do not depend on the variables, the prompts
      or the environment: they shadow entries of the same name. */
  lemma PseudoVariablesShadow(s: State, w: Workflow, o: Outside, vars: Dict<string>,
                              w': Workflow, o': Outside, name: string,
                              d: Option<string>, d': Option<string>)
    requires name == "STATUS" || name == "RESULT" || name == "CONTENT"
    ensures Lookup(s, w, o, name, d) == Lookup(s.(variables := vars), w', o', name, d')
    ensures name == "STATUS" ==> Lookup(s, w, o, name, d) == Some(StatusName(s.status))
    ensures name != "STATUS" ==> Lookup(s, w, o, name, d) == Some(s.result.GetOr(""))
  {
  }

  /** A variable shadows a prompt and an environment variable of the same
      name; a prompt shadows an environment variable. */
  lemma LookupOrder(s: State, w: Workflow, o: Outside, name: string, d: Option<string>)
    requires IsVariableName(name)
    ensures HasKey(s.variables, name) ==>
              Lookup(s, w, o, name, d) == Some(Deref(o, Get(s.variables, name).value))
    ensures !HasKey(s.variables, name) && HasKey(w.prompts, name) ==>
              Lookup(s, w, o, name, d) == Some(Get(w.prompts, name).value.content)
    ensures !HasKey(s.variables, name) && !HasKey(w.prompts, name) && name in o.environ ==>
              Lookup(s, w, o, name, d) == Some(o.environ[name])
    ensures !HasKey(s.variables, name) && !HasKey(w.prompts, name) && name !in o.environ ==>
              Lookup(s, w, o, name, d) == d
  {
  }

  /** Empty, quoted, over-long and "file:" names change nothing. */
  lemma AssignIgnored(s: State, name: string, value: string)
    requires name == [] || Quoted(name) || |name| > MaxNameLength || StartsWith(name, FilePrefix)
    ensures Assign(s, name, value) == s
  {
    if StartsWith(name, FilePrefix) && name != [] && !Quoted(name) && |name| <= MaxNameLength {
      assert name[..5] == FilePrefix;
      assert name != "STATUS" && name != "RESULT" && name != "CONTENT";
    }
  }

  /** Reading a variable back after setting it gives the value set, unless
      the value is itself a "file:" reference; no other name changes. */
  lemma GetAfterSet(s: State, w: Workflow, o: Outside, name: string, value: string,
                    other: string, d: Option<string>)
    requires IsVariableName(name)
    ensures !StartsWith(value, FilePrefix) ==>
              Lookup(Assign(s, name, value), w, o, name, d) == Some(value)
    ensures other != name ==>
              Lookup(Assign(s, name, value), w, o, other, d) == Lookup(s, w, o, other, d)
  {
    GetPutSame(s.variables, name, value);
    if other != name {
      GetPutOther(s.variables, name, value, other);
    }
  }

  /** STATUS accepts exactly the status names, and reads back what was set. */
  lemma StatusAfterSet(s: State, w: Workflow, o: Outside, value: string, d: Option<string>)
    ensures (exists st :: value == StatusName(st)) ==>
              Lookup(Assign(s, "STATUS", value), w, o, "STATUS", d) == Some(value)
    ensures (forall st :: value != StatusName(st)) ==> Assign(s, "STATUS", value) == s
  {
    if exists st :: value == StatusName(st) {
      var st :| value == StatusName(st);
      StatusByNameIff(value, st);
    } else if StatusByName(value).Some? {
      StatusByNameIff(value, StatusByName(value).value);
    }
  }

  /** RESULT and CONTENT are one slot: setting either is read back through both. */
  lemma ResultAfterSet(s: State, w: Workflow, o: Outside, name: string, other: string,
                       value: string, d: Option<string>)
    requires name == "RESULT" || name == "CONTENT"
    requires other == "RESULT" || other == "CONTENT"
    ensures Lookup(Assign(s, name, value), w, o, other, d) == Some(value)
    ensures Assign(s, name, value).variables == s.variables
  {
  }

  /** Context(workflow, command_executor): status CREATED, no result, and a
      copy of the workflow's parameters as variables.  The command executor,
      when there is one, is the function from a command to its output. */
  class Context {
    const workflow: Workflow
    const outside: Outside
    const executor: Option<Commands.Command -> string>
    var status: Status
    var result: Option<string>
    var variables: Dict<string>

    function CurrentState(): State
      reads this
    {
      State(status, result, variables)
    }

    constructor(workflow: Workflow, outside: Outside, executor: Option<Commands.Command -> string>)
      ensures this.workflow == workflow && this.outside == outside && this.executor == executor
      ensures status == CREATED && result == None
      ensures variables == PutAll([], workflow.params)
      ensures UniqueKeys(workflow.params) ==> variables == workflow.params
    {
      this.workflow := workflow;
      this.outside := outside;
      this.executor := executor;
      status := CREATED;
      result := None;
      var vars: Dict<string> := [];
      var params := workflow.params;
      for i := 0 to |params|
        invariant PutAll(vars, params[i..]) == PutAll([], params)
      {
        assert params[i..][0] == params[i] && params[i..][1..] == params[i + 1..];
        vars := Put(vars, params[i].0, params[i].1);
      }
      assert params[|params|..] == [];
      variables := vars;
      if UniqueKeys(params) {
        assert [] + params == params;
        PutAllFresh([], params);
      }
    }

    /** Context.get_value */
    function GetValue(name: string, default: Option<string>): Option<string>
      reads this
    {
      Lookup(CurrentState(), workflow, outside, name, default)
    }

    /** Context.set_value */
    method SetValue(name: string, value: string)
      modifies this
      ensures CurrentState() == Assign(old(CurrentState()), name, value)
    {
      if name == [] || Quoted(name) || |name| > MaxNameLength {
        return;
      }
      if name == "STATUS" {
        var st := StatusByName(value);
        if st.Some? {
          status := st.value;
        }
        return;
      }
      if name == "RESULT" || name == "CONTENT" {
        result := Some(value);
        return;
      }
      if StartsWith(name, FilePrefix) {
        return;
      }
      variables := Put(variables, name, value);
    }
  }
}
