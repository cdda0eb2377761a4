/**
 * AIAgent: the message log and usage counters every agent keeps.  Each
 * call appends the prompts it was given to `messages` (as Prompt values,
 * so their content is stored stripped) and adds the lengths of the texts
 * as given to the character counters.  The language-model settings read
 * from the configuration and the environment are not modelled.
 */
module Agents {
  import opened Wrappers
  import opened PyStrings
  import opened Prompts

  /** The characters of the stored prompts of one side of the conversation:
      system and user prompts count as prompt text, assistant prompts as
      completion text. */
  function StoredChars(messages: seq<Prompt>, completion: bool): (n: nat)
    ensures messages == [] ==> n == 0
  {
    if messages == [] then 0
    else
      var last := messages[|messages| - 1];
      StoredChars(messages[..|messages| - 1], completion)
        + (if (last.role == Assistant) == completion then |last.content| else 0)
  }

  /** Appending a prompt adds its length to its side only. */
  lemma StoredCharsAppend(messages: seq<Prompt>, p: Prompt, completion: bool)
    ensures StoredChars(messages + [p], completion)
         == StoredChars(messages, completion) + (if (p.role == Assistant) == completion then |p.content| else 0)
  {
    assert (messages + [p])[..|messages|] == messages;
  }

  /** Appending a prompt made from a text of length `len` keeps the stored
      characters of each side within counters that grow by `len` on the
      prompt's side. */
  lemma StoredCharsGrow(messages: seq<Prompt>, p: Prompt, len: int, promptChars: int, completionChars: int)
    requires |p.content| <= len
    requires StoredChars(messages, false) <= promptChars
    requires StoredChars(messages, true) <= completionChars
    ensures p.role == Assistant ==>
              StoredChars(messages + [p], false) <= promptChars
              && StoredChars(messages + [p], true) <= completionChars + len
    ensures p.role != Assistant ==>
              StoredChars(messages + [p], false) <= promptChars + len
              && StoredChars(messages + [p], true) <= completionChars
  {
    StoredCharsAppend(messages, p, false);
    StoredCharsAppend(messages, p, true);
  }

  class AIAgent {
    const modelName: string
    var messages: seq<Prompt>
    var lastResult: Option<string>
    var totalIterations: int
    var totalPromptTokens: int
    var totalCompletionTokens: int
    var totalTokens: int
    var totalPromptChars: int
    var totalCompletionChars: int
    var totalChars: int

    /** The counters' invariant: all characters are prompt or completion
        characters, and the counted characters cover the stored prompts,
        which were stripped on the way in. */
    predicate Valid()
      reads this
    {
      totalChars == totalPromptChars + totalCompletionChars
      && StoredChars(messages, false) <= totalPromptChars
      && StoredChars(messages, true) <= totalCompletionChars
    }

    /** A new agent: no messages, no result, every counter zero. */
    constructor(modelName: string)
      ensures Valid()
      ensures this.modelName == modelName
      ensures messages == [] && lastResult == None && totalIterations == 0
      ensures totalPromptTokens == 0 && totalCompletionTokens == 0 && totalTokens == 0
      ensures totalPromptChars == 0 && totalCompletionChars == 0 && totalChars == 0
    {
      this.modelName := modelName;
      messages := [];
      lastResult := None;
      totalIterations := 0;
      totalPromptTokens := 0;
      totalCompletionTokens := 0;
      totalTokens := 0;
      totalPromptChars := 0;
      totalCompletionChars := 0;
      totalChars := 0;
    }

    /** system(prompt): one system message; the result is cleared and the
        iteration count restarts. */
    method SystemPrompt(prompt: string) returns (r: string)
      requires Valid()
      modifies this
      ensures Valid()
      ensures r == prompt
      ensures messages == old(messages) + [Prompt(System, Strip(prompt))]
      ensures lastResult == None && totalIterations == 0
      ensures totalPromptChars == old(totalPromptChars) + |prompt|
      ensures totalCompletionChars == old(totalCompletionChars)
      ensures totalChars == old(totalChars) + |prompt|
      ensures totalPromptTokens == old(totalPromptTokens) && totalCompletionTokens == old(totalCompletionTokens)
      ensures totalTokens == old(totalTokens)
    {
      Record(System, prompt, false);
      lastResult := None;
      totalIterations := 0;
      r := prompt;
    }

    /** ask(prompt): one user message; the iteration count becomes the
        number of messages.  The result is left to the implementation. */
    method Ask(prompt: string) returns (r: string)
      requires Valid()
      modifies this
      ensures Valid()
      ensures r == prompt
      ensures messages == old(messages) + [Prompt(User, Strip(prompt))]
      ensures lastResult == old(lastResult) && totalIterations == |messages|
      ensures totalPromptChars == old(totalPromptChars) + |prompt|
      ensures totalCompletionChars == old(totalCompletionChars)
      ensures totalChars == old(totalChars) + |prompt|
      ensures totalPromptTokens == old(totalPromptTokens) && totalCompletionTokens == old(totalCompletionTokens)
      ensures totalTokens == old(totalTokens)
    {
      Record(User, prompt, false);
      totalIterations := |messages|;
      r := prompt;
    }

    /** One message: the prompt made from `text` appended, and the text's
        length counted as completion text for an assistant prompt and as
        prompt text otherwise. */
    method Record(role: string, text: string, completion: bool)
      requires Valid() && completion == (role == Assistant)
      modifies this
      ensures Valid()
      ensures messages == old(messages) + [Prompt(role, Strip(text))]
      ensures completion ==> totalPromptChars == old(totalPromptChars)
                             && totalCompletionChars == old(totalCompletionChars) + |text|
      ensures !completion ==> totalPromptChars == old(totalPromptChars) + |text|
                              && totalCompletionChars == old(totalCompletionChars)
      ensures totalChars == old(totalChars) + |text|
      ensures lastResult == old(lastResult) && totalIterations == old(totalIterations)
      ensures totalPromptTokens == old(totalPromptTokens) && totalCompletionTokens == old(totalCompletionTokens)
      ensures totalTokens == old(totalTokens)
    {
      StoredCharsGrow(messages, Prompt(role, Strip(text)), |text|, totalPromptChars, totalCompletionChars);
      messages := messages + [Prompt(role, Strip(text))];
      if completion {
        totalCompletionChars := totalCompletionChars + |text|;
      } else {
        totalPromptChars := totalPromptChars + |text|;
      }
      totalChars := totalChars + |text|;
    }

    /** advice(question, answer): a user message for a question and an
        assistant message for an answer, each only when given; the answer
        becomes the result. */
    method Advice(question: Option<string>, answer: Option<string>)
      requires Valid()
      modifies this
      ensures Valid()
      ensures messages == old(messages)
                          + (if question.Some? then [Prompt(User, Strip(question.value))] else [])
                          + (if answer.Some? then [Prompt(Assistant, Strip(answer.value))] else [])
      ensures lastResult == answer && totalIterations == |messages|
      ensures totalPromptChars == old(totalPromptChars) + (if question.Some? then |question.value| else 0)
      ensures totalCompletionChars == old(totalCompletionChars) + (if answer.Some? then |answer.value| else 0)
      ensures totalChars == totalPromptChars + totalCompletionChars
      ensures totalPromptTokens == old(totalPromptTokens) && totalCompletionTokens == old(totalCompletionTokens)
      ensures totalTokens == old(totalTokens)
    {
      if question.Some? {
        Record(User, question.value, false);
      }
      if answer.Some? {
        Record(Assistant, answer.value, true);
      }
      lastResult := answer;
      totalIterations := |messages|;
    }

    /** answer(answer): an assistant message when an answer is given; the
        answer becomes the result. */
    method Answer(answer: Option<string>)
      requires Valid()
      modifies this
      ensures Valid()
      ensures messages == old(messages) + (if answer.Some? then [Prompt(Assistant, Strip(answer.value))] else [])
      ensures lastResult == answer && totalIterations == |messages|
      ensures totalPromptChars == old(totalPromptChars)
      ensures totalCompletionChars == old(totalCompletionChars) + (if answer.Some? then |answer.value| else 0)
      ensures totalChars == old(totalChars) + (if answer.Some? then |answer.value| else 0)
      ensures totalPromptTokens == old(totalPromptTokens) && totalCompletionTokens == old(totalCompletionTokens)
      ensures totalTokens == old(totalTokens)
    {
      if answer.Some? {
        Record(Assistant, answer.value, true);
      }
      lastResult := answer;
      totalIterations := |messages|;
    }
  }
}
