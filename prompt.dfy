/**
 * A chat prompt: a role (system, user or assistant) and its trimmed content.
 */
module Prompts {
  import opened Wrappers
  import opened PyStrings
  import opened Dicts

  const System: string := "system"
  const User: string := "user"
  const Assistant: string := "assistant"

  /** The roles a prompt may have, in the order the error message lists them. */
  const AllowedRoles: seq<string> := [System, User, Assistant]

  datatype Prompt = Prompt(role: string, content: string)

  /** The ValueError text of Prompt.check for a rejected role. */
  function RoleError(role: string): string {
    "role must be one of ['system', 'user', 'assistant'], not " + role
  }

  /** Prompt(role, content): the content is stored stripped, and check()
      rejects any role but the three allowed ones. */
  function NewPrompt(role: string, content: string): (r: Result<Prompt>)
    ensures r.Ok? <==> role in AllowedRoles
    ensures r.Ok? ==> r.value.role == role && r.value.content == Strip(content)
    ensures r.Err? ==> r.error == ValueError(RoleError(role))
  {
    var p := Prompt(role, Strip(content));
    if role in AllowedRoles then Ok(p) else Err(ValueError(RoleError(role)))
  }

  /** A prompt that was built successfully is rebuilt identically from its own
      fields, since stripping is idempotent. */
  lemma NewPromptOfPrompt(role: string, content: string)
    requires NewPrompt(role, content).Ok?
    ensures var p := NewPrompt(role, content).value; NewPrompt(p.role, p.content) == Ok(p)
  {
    StripIdempotent(content);
  }

  /** to_dict(): exactly the keys "role" and "content", in that order. */
  function ToDict(p: Prompt): (d: Dict<string>)
    ensures Keys(d) == ["role", "content"]
    ensures Get(d, "role") == Some(p.role) && Get(d, "content") == Some(p.content)
  {
    [("role", p.role), ("content", p.content)]
  }

  /** PromptDecoder.dict_to_object: Prompt(d['role'], d['content']); a
      missing key raises KeyError, role first. */
  function FromDict(d: Dict<string>): (r: Result<Prompt>)
    ensures Get(d, "role").None? ==> r == Err(KeyError("role"))
    ensures Get(d, "role").Some? && Get(d, "content").None? ==> r == Err(KeyError("content"))
    ensures Get(d, "role").Some? && Get(d, "content").Some?
         ==> r == NewPrompt(Get(d, "role").value, Get(d, "content").value)
  {
    match Get(d, "role")
    case None => Err(KeyError("role"))
    case Some(role) =>
      match Get(d, "content")
      case None => Err(KeyError("content"))
      case Some(content) => NewPrompt(role, content)
  }

  /** Encoding a valid prompt with to_dict and decoding it gives the prompt back. */
  lemma DecodeEncode(p: Prompt)
    requires p.role in AllowedRoles && Strip(p.content) == p.content
    ensures FromDict(ToDict(p)) == Ok(p)
  {
    assert Get(ToDict(p), "role") == Some(p.role);
    assert Get(ToDict(p), "content") == Some(p.content);
  }

  /** str(prompt): "role: content" */
  function ToString(p: Prompt): (r: string)
    ensures StartsWith(r, p.role + ": ") && r[|p.role| + 2..] == p.content
  {
    p.role + ": " + p.content
  }
}
