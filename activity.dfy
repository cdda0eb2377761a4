/**
 * Activities: the nodes of a workflow graph.  An activity has a kind, a
 * name (its key in the workflow's activity map), an expression, the names
 * of its `next` and `other` successors and a hit counter.  The edge labels
 * of the flowchart are classified by two fixed label sets.
 */
module Activities {
  import opened Wrappers
  import opened PyStrings

  datatype Kind =
    | START | SET | ASSIGN | CHECK | PROMPT | ASK | EXECUTE | CALL
    | SUCCESS | FAILED | ON

  /** The member name, which str(kind) prints. */
  function KindName(k: Kind): string {
    match k
    case START => "START"
    case SET => "SET"
    case ASSIGN => "ASSIGN"
    case CHECK => "CHECK"
    case PROMPT => "PROMPT"
    case ASK => "ASK"
    case EXECUTE => "EXECUTE"
    case CALL => "CALL"
    case SUCCESS => "SUCCESS"
    case FAILED => "FAILED"
    case ON => "ON"
  }

  /** The member value, used in flowchart captions. */
  function KindValue(k: Kind): string {
    match k
    case START => "Start"
    case SET => "Set"
    case ASSIGN => "Assign"
    case CHECK => "Check"
    case PROMPT => "Prompt"
    case ASK => "Ask"
    case EXECUTE => "Execute"
    case CALL => "Call"
    case SUCCESS => "SUCCESS"
    case FAILED => "FAILED"
    case ON => "ON"
  }

  /** Activity.Kind[n]: the member called exactly n. */
  function KindByName(n: string): (r: Option<Kind>)
    ensures r.Some? ==> KindName(r.value) == n
  {
    if n == "START" then Some(START)
    else if n == "SET" then Some(SET)
    else if n == "ASSIGN" then Some(ASSIGN)
    else if n == "CHECK" then Some(CHECK)
    else if n == "PROMPT" then Some(PROMPT)
    else if n == "ASK" then Some(ASK)
    else if n == "EXECUTE" then Some(EXECUTE)
    else if n == "CALL" then Some(CALL)
    else if n == "SUCCESS" then Some(SUCCESS)
    else if n == "FAILED" then Some(FAILED)
    else if n == "ON" then Some(ON)
    else None
  }

  /** Activity.parse_kind: the kind whose name is the upper-cased text. */
  function ParseKind(s: string): Option<Kind> {
    KindByName(Upper(s))
  }

  /** A text names a kind exactly when its upper-case form is the kind's name. */
  lemma ParseKindIff(s: string, k: Kind)
    ensures ParseKind(s) == Some(k) <==> Upper(s) == KindName(k)
  {
    if Upper(s) == KindName(k) {
      assert KindByName(KindName(k)) == Some(k);
    }
  }

  /** Every kind name parses back in upper and in lower case. */
  lemma ParseKindName(k: Kind)
    ensures ParseKind(KindName(k)) == Some(k)
    ensures ParseKind(Lower(KindName(k))) == Some(k)
  {
    var n := KindName(k);
    assert forall i :: 0 <= i < |n| ==> 'A' <= n[i] <= 'Z';
    assert Upper(n) == n;
    assert Upper(Lower(n)) == n;
    ParseKindIff(n, k);
    ParseKindIff(Lower(n), k);
  }

  /** The member values of the mixed-case kinds are accepted too ("Check" is CHECK). */
  lemma ParseKindValue(k: Kind)
    ensures ParseKind(KindValue(k)) == Some(k)
  {
    var v := KindValue(k);
    assert Upper(v) == KindName(k);
    ParseKindIff(v, k);
  }

  /** Names of the Activity.Succeeded members: labels of a positive edge. */
  const SucceededNames: set<string> := {"YES", "TRUE", "OK", "SUCCESS"}

  /** Names of the Activity.Failed members: labels of a negative edge. */
  const FailedNames: set<string> := {"NO", "FALSE", "ERROR", "FAILED", "ELSE", "FAIL", "OTHER"}

  /** No label is both positive and negative. */
  lemma LabelSetsDisjoint()
    ensures SucceededNames * FailedNames == {}
  {
    forall n | n in SucceededNames
      ensures n !in FailedNames
    {
    }
  }

  datatype Activity = Activity(kind: Kind, name: string, expression: string,
                               next: Option<string>, other: Option<string>, hits: nat)

  /** Activity(kind, name, expression): no successors and no hits yet. */
  function NewActivity(kind: Kind, name: string, expression: string): (a: Activity)
    ensures a.kind == kind && a.name == name && a.expression == expression
    ensures a.next == None && a.other == None && a.hits == 0
  {
    Activity(kind, name, expression, None, None, 0)
  }

  /** The name shown for a successor, "" when there is none. */
  function SuccessorName(s: Option<string>): string {
    if s.Some? then s.value else ""
  }

  /** str(activity) */
  function ToString(a: Activity): (r: string)
    ensures StartsWith(r, "Activity(kind=" + KindName(a.kind) + ", name=" + a.name + ", expr='")
    ensures EndsWith(r, ", hits=" + NatToString(a.hits) + " )")
  {
    var head := "Activity(kind=" + KindName(a.kind) + ", name=" + a.name + ", expr='";
    var tail := ", hits=" + NatToString(a.hits) + " )";
    var mid := a.expression + "', " + "next=" + SuccessorName(a.next) + ", other=" + SuccessorName(a.other);
    Framed(head, mid, tail);
    head + mid + tail
  }

  /** A fresh activity prints empty successor names and zero hits. */
  lemma ToStringNew(kind: Kind, name: string, expression: string)
    ensures ToString(NewActivity(kind, name, expression))
         == "Activity(kind=" + KindName(kind) + ", name=" + name + ", expr='" + expression
            + "', next=, other=, hits=0 )"
  {
  }
}
