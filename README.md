# AICodeMentor workflow engine, modelled in Dafny

AICodeMentor runs *workflows*: markdown files whose `# Workflow` section
holds a mermaid flowchart of activities (START, SET, ASSIGN, CHECK,
EXECUTE, SUCCESS, FAILED, ON, ...), whose `# Prompts` section holds the
chat prompts an agent is given, and whose variables and run history are
written back out in the same format.  This project models the engine's
text processing and state updates:

- the reader that turns a workflow file (as lines) into the workflow
  record and its activity graph, with hand-written scanners for the
  regular expressions it applies to flowchart lines (`Reader`,
  `ReaderScan`);
- the writers that turn the record, the graph, the variables and the
  history back into markdown and mermaid (`ActivityWriters`,
  `WorkflowWriters`, `Histories`);
- the data model: activities and their edge labels, workflows and their
  status, prompts, commands (`Activities`, `Workflows`, `Prompts`,
  `Commands`);
- the run-time context and its name resolution, the CHECK operators, and
  the per-activity step semantics of the activity interpreter, with a
  class that performs the steps in place and is proved to match them
  (`Contexts`, `Operations`, `Interpreter`), plus the legacy interpreter's
  checks and command execution (`LegacyInterpreters`);
- the extraction of commands from an agent's answer (`CommandParser`) and
  the two executors' marker-framed output collection over given queued
  lines (`ShellExecutors`, `SshExecutors`);
- loading prompts from markdown and text files, and the legacy prompt
  section parser (`PromptFactories`, `WorkflowFactories`);
- the agent base class's message log and usage counters (`Agents`);
- string helpers (`StringUtils`), and the Python `str` and `dict`
  behaviour the engine relies on (`PyStrings`, `Dicts`, `Wrappers`,
  `TextFiles`).

Python dictionaries keep insertion order, so they are modelled as
association lists; the activity graph is a map from activity name to
activity, with `next` and `other` held as names.  The environment, file
contents, the clock, regular-expression search, `float()`, command
executors and random tokens are parameters.

## Model

| member | source | states |
|---|---|---|
| StringUtils.EscapeLinefeedNoNewline | app/util/string_utils.py:3-5 | escape_linefeed leaves no line feed in its result |
| StringUtils.EscapeLinefeedLength | app/util/string_utils.py:3-5 | every line feed becomes two characters, so the result is longer by the number of line feeds |
| StringUtils.TruncRight | app/util/string_utils.py:8-12 | content up to the limit is returned unchanged; longer content keeps exactly its first `length` characters followed by "..." |
| StringUtils.TruncLeft | app/util/string_utils.py:15-19 | as written: longer content loses its first `length` characters and gains "...", so it is len - length + 3 long |
| StringUtils.TruncLeftExceedsLimit | app/util/string_utils.py:15-19 | a 300-character input limited to 100 comes out 203 characters long, beyond the limit plus the ellipsis |
| StringUtils.TruncLeftLimited | app/util/string_utils.py:15-19 | corrected: longer content keeps its last `length` characters behind "...", exactly length + 3 long |
| StringUtils.TruncMiddle | app/util/string_utils.py:22-28 | None exactly for None; content up to the limit is returned unchanged |
| StringUtils.TruncMiddleLong | app/util/string_utils.py:26-27 | with a positive limit the result keeps floor(length/2) head and ceil(length/2) tail characters around the marker, length + 19 in all |
| StringUtils.TruncMiddleZero | app/util/string_utils.py:26-27 | a zero limit keeps the whole content as tail behind the marker, since -0//2 is 0 |
| StringUtils.EscapeLinefeed | app/util/string_utils.py:3-5 | every line feed is replaced by a backslash and "n"; its properties are EscapeLinefeedNoNewline and EscapeLinefeedLength |
| Commands.NormaliseType | app/commands/command.py:13-17 | a type whose lower-case form is sh, shell, bash, powershell or cmd becomes "sh"; any other type is kept verbatim |
| Commands.NewCommand | app/commands/command.py:13-18 | the command holds the normalised type and the given lines |
| Commands.NormaliseIdempotent | app/commands/command.py:14-17 | normalising a normalised type changes nothing |
| Commands.NormaliseExamples | app/commands/command.py:14-17 | BASH and PowerShell become sh in any letter case; python and Python are kept as written |
| Commands.StrReprPlain | app/commands/command.py:20-21 | a line of printable ASCII without quotes or backslashes is shown by repr() between single quotes, unchanged |
| Commands.ToString | app/commands/command.py:20-21 | str(command) starts with the type, ": [" and ends with "]" |
| Commands.ToStringSingle | app/commands/command.py:20-21 | a shell command of one line of printable ASCII without quotes or backslashes prints as sh: ['<line>'] |
| CommandParser.Parse | app/commands/parser.py:19-46 | the loop returns exactly the commands ParsedCommands defines for the message; by CommandParser.BlockRead and CommandParser.TextSkipped those are one command per closed block, in document order, with the block's own fence type and its non-empty lines verbatim, and nothing for text outside blocks |
| CommandParser.ParseCount | app/commands/parser.py:32-40 | fences pair up: the number of commands is half the number of fence lines, counting an open block as a fence still to close |
| CommandParser.NoFencesNoCommands | test/commands/test_parser.py:31-35 | a message without fence lines yields no command |
| CommandParser.CommandsFromLines | app/commands/parser.py:29-45 | soundness over the whole input: every command line is a non-empty, non-fence line of the input, and every type is some fence line of the input without its backticks, normalised (the per-block statement is CommandParser.BlockRead) |
| CommandParser.CommandLinesOfMessage | app/commands/parser.py:29-45 | the commands of a message are made of its own lines |
| CommandParser.OneBlock | app/commands/parser.py:32-45 | an opening fence with a tag, one non-empty line and a closing fence give one command of that tag holding that line |
| CommandParser.ThreeLines | app/commands/parser.py:29 | three lines joined by line feeds split back into those three lines |
| CommandParser.SingleCommandExample | test/commands/test_parser.py:13-19 | the single bash block yields one shell command holding ls -la |
| CommandParser.ParsedCommands | app/commands/parser.py:19-46 | the reference definition of parse: the message's lines are scanned front to back, a fence line opens a block (its type the line without backticks) or closes it and emits one command of its non-empty lines, and a block open at the end emits nothing; CommandParser.BlockRead, CommandParser.TextSkipped and CommandParser.BlockAmidText state this block by block |
| CommandParser.NonEmpty | app/commands/parser.py:43-45 | the lines a block keeps: exactly the non-empty ones of its body, never more than the body has |
| CommandParser.CloseStep | app/commands/parser.py:37-40 | a fence line inside an open block emits that block's command and closes it |
| CommandParser.InsideStep | app/commands/parser.py:41-45 | any other line inside an open block is collected when non-empty and skipped when empty |
| CommandParser.BodyRead | app/commands/parser.py:32-45 | inside an open block, fence-free lines up to the closing fence add their non-empty lines, in order, to the block, and the fence emits it |
| CommandParser.BlockRead | app/commands/parser.py:32-45 | a closed block yields exactly one command, typed by its own opening fence without backticks and holding that block's non-empty lines in order; parsing continues after the closing fence |
| CommandParser.TextSkipped | app/commands/parser.py:41-45 | fence-free lines outside any block yield nothing and do not affect what follows |
| CommandParser.ProseOnly | app/commands/parser.py:41-45 | fence-free lines alone yield no command |
| CommandParser.BlockAmidText | app/commands/parser.py:29-46 | prose, one closed block and more prose yield exactly that block's command |
| Commands.StrRepr | app/commands/command.py:21 | repr() of a string is framed by one matching pair of quotes: double quotes when the text holds a single quote and no double quote, single quotes otherwise |
| Commands.Hex | app/commands/command.py:21 | the w lower-case hex digits repr() writes in an escape |
| Commands.Kept | app/commands/command.py:21 | repr() shows a character as itself exactly when it is printable ASCII other than the backslash and the quote in use, or a character above ASCII that str.isprintable() accepts |
| Commands.EscapeCode | app/commands/command.py:21 | what follows the backslash of an escape (the backslash or quote itself, t, n, r, or x, u or U with 2, 4 or 8 hex digits by code point) is printable ASCII |
| Commands.ReprCharShown | app/commands/command.py:21 | each character's part of a repr() consists of characters str.isprintable() accepts |
| Commands.ReprBodyShown | app/commands/command.py:21 | the same for every character of the text |
| Commands.ReprShown | app/commands/command.py:21 | every character of repr(s) is printable: no control character, DEL or unprintable character above ASCII survives unescaped |
| Commands.HexStep | app/commands/command.py:21 | for n = 16m + k the hex digits of n are those of m followed by the digit k |
| Commands.HexDigitsOfA0 | app/commands/command.py:21 | 0xA0 in two hex digits is "a0" |
| Commands.HexDigitsOf2028 | app/commands/command.py:21 | 0x2028 in four hex digits is "2028" |
| Commands.NoBreakSpaceRepr | app/commands/command.py:21 | a no-break space, which str.isprintable() rejects, is shown as '\xa0' |
| Commands.LineSeparatorRepr | app/commands/command.py:21 | the line separator U+2028 is shown as '\u2028' |
| Commands.ListRepr | app/commands/command.py:21 | repr() of a list of strings is bracketed |
| Commands.ReprAll | app/commands/command.py:21 | the repr of each line, in order |
| Histories.NewRecord | app/workflow/history.py:12-21 | a given timestamp is kept, a missing one becomes the current time; caption, status and result are stored as given |
| Histories.History.constructor | app/workflow/history.py:26-27 | a new history has no records |
| Histories.History.AddRecord | app/workflow/history.py:29-31 | exactly one record, stamped with the current time, is appended and the earlier records are unchanged |
| Workflows.StatusValue | app/workflow/workflow.py:13-18 | CREATED, DOING, SUCCESS and FAILED carry the values -1, 0, 1 and 2 |
| Workflows.StatusByNameIff | app/workflow/workflow.py:13-21 | looking a status up by name finds exactly the status whose str() is that name |
| Workflows.StatusValueInjective | app/workflow/workflow.py:15-18 | no two statuses share a value |
| Workflows.NewWorkflow | app/workflow/workflow.py:24-36 | a new workflow has the given name, an empty description, status CREATED, no result, variables, prompts or activities, and no start; the six attributes the constructor does not set (on_success, on_failed, params, filepath, directory, instance_nr) start at None, None, no params, "", "" and 0 |
| Workflows.ToString | app/workflow/workflow.py:39-40 | str(workflow) opens with the name and status name and ends with a closing parenthesis |
| Workflows.ToStringNew | app/workflow/workflow.py:30-40 | a new workflow prints status CREATED and result None |
| Workflows.StatusName | app/workflow/workflow.py:13-21 | the member name of a status, which str() prints |
| Workflows.StatusByName | app/workflow/workflow.py:13-18 | Workflow.Status[n]: the status called exactly n, case-sensitive |
| Prompts.NewPrompt | app/agents/prompt.py:16-26 | construction succeeds exactly for the roles system, user and assistant, storing the stripped content; any other role is a ValueError naming it |
| Prompts.NewPromptOfPrompt | app/agents/prompt.py:16-19 | a prompt rebuilt from its own role and content is the same prompt |
| Prompts.ToDict | app/agents/prompt.py:28-33 | to_dict holds exactly the keys role and content, mapped to the prompt's fields |
| Prompts.FromDict | app/agents/prompt.py:63-70 | dict_to_object raises KeyError for a missing role, then for a missing content, and otherwise builds Prompt(role, content) |
| Prompts.DecodeEncode | app/agents/prompt.py:28-70 | decoding the dictionary of a valid prompt gives the same prompt back |
| Prompts.ToString | app/agents/prompt.py:35-36 | str(prompt) is the role, ": " and exactly the content |
| Activities.KindByName | app/workflow/activity.py:12-24 | a kind found by name is the kind whose member name is that text |
| Activities.ParseKindIff | app/workflow/activity.py:105-110 | parse_kind finds a kind exactly when the upper-cased text is that kind's name, and None otherwise |
| Activities.ParseKindName | app/workflow/activity.py:105-110 | every kind name parses back to its kind, in upper and in lower case |
| Activities.ParseKindValue | app/workflow/activity.py:14-24 | the mixed-case member values such as Check also parse to their kind |
| Activities.LabelSetsDisjoint | app/workflow/activity.py:30-52 | no name is both a Succeeded and a Failed member |
| Activities.NewActivity | app/workflow/activity.py:55-62 | a new activity has the given kind, name and expression, no next or other successor and zero hits |
| Activities.ToString | app/workflow/activity.py:65-73 | str(activity) opens with the kind name, the name and the quoted expression and closes with the hit count |
| Activities.ToStringNew | app/workflow/activity.py:65-73 | a new activity prints empty successor names and hits=0 |
| Activities.ParseKind | app/workflow/activity.py:105-110 | the kind whose member name is the upper-cased text, or None; characterised by ParseKindIff |
| Activities.KindName | app/workflow/activity.py:12-27 | the member name of a kind, which str() prints |
| Activities.KindValue | app/workflow/activity.py:12-24 | the member value of a kind, used in flowchart captions |
| Operations.Value | app/workflow/operation.py:7-19 | the string operations carry values 0 to 3 and the numeric ones 10 to 13 |
| Operations.ByName | app/workflow/operation.py:7-23 | an operation found by name is the one whose str() is that name |
| Operations.ByNameName | app/workflow/operation.py:7-23 | each operation is found under its own name |
| Operations.AliasOfIff | app/workflow/operation.py:33-44 | a text is recognised as an alias of an operation exactly when it is one of that operation's spellings |
| Operations.NamesAreLong | app/workflow/operation.py:10-19 | every member name is at least four characters long |
| Operations.AliasesAreNotNames | app/workflow/operation.py:31-44 | no alias, upper-cased, is a member name, so the alias checks never shadow the name lookup |
| Operations.ParseOperationIff | app/workflow/operation.py:28-45 | parse_operation gives an operation exactly for its name in any letter case or one of its case-sensitive aliases |
| Operations.ParseOperationNone | app/workflow/operation.py:28-45 | parse_operation gives None exactly for a text that is no name in any case and no alias |
| Operations.ParseName | app/workflow/operation.py:31-32 | every name and its lower-case spelling parse back to the operation |
| Operations.ParseLowerCaseName | app/workflow/operation.py:31-32 | equals parses to EQUALS |
| Operations.ParseMixedCaseName | app/workflow/operation.py:31-32 | Less_Equal parses to LESS_EQUAL |
| Operations.ParseAliasCase | app/workflow/operation.py:33-45 | ge parses to GREATER_EQUAL, while GE and = parse to nothing |
| Operations.Compare | app/workflow/operation.py:69 | Python's str comparison is three-valued |
| Operations.CompareZero | app/workflow/operation.py:69-96 | two strings compare equal exactly when they are the same string |
| Operations.CompareSwap | app/workflow/operation.py:69-96 | swapping the operands negates the comparison |
| Operations.EqualsFirstLine | app/workflow/operation.py:51-53 | EQUALS holds exactly when the stripped right operand equals the stripped text before the first line feed of the left operand |
| Operations.EqualsIgnoresLaterLines | app/workflow/operation.py:51-53 | lines after the first line of the left operand never change EQUALS |
| Operations.DiffersNegatesEquals | app/workflow/operation.py:51-56 | DIFFERS is exactly the negation of EQUALS |
| Operations.ContainsIff | app/workflow/operation.py:57-58 | CONTAINS holds exactly when the stripped right operand occurs somewhere in the unstripped left operand |
| Operations.OrderingDuality | app/workflow/operation.py:61-96 | unless a NaN is compared as a float, GREATER is not LESS_EQUAL and GREATER_EQUAL is not LESS; GREATER is always LESS with swapped operands; and on strings LESS_EQUAL is LESS or equality |
| Operations.ParseOperation | app/workflow/operation.py:28-45 | a member name in any letter case, else one of the case-sensitive aliases ==, eq, !=, ne, <, lt, >, gt, <=, le, >=, ge, else None; characterised by ParseOperationIff |
| Operations.FloatLess | app/workflow/operation.py:61-96 | Python's float `<`: true only for non-NaN operands, with negative infinity below and positive infinity above every finite value |
| Operations.FloatLessEq | app/workflow/operation.py:79-96 | Python's float `<=` is `<` or equality of two non-NaN values, so it is false whenever an operand is NaN |
| Operations.Interpret | app/workflow/operation.py:47-98 | interpret_operation: EQUALS and DIFFERS compare the stripped right operand with the stripped first line of the left one, CONTAINS looks for the stripped right operand in the left one, MATCHES is re.search, and the orderings compare as floats when both operands convert and as strings otherwise |
| Operations.NaNOrderingFalse | app/workflow/operation.py:61-96 | when both operands convert to floats and one is NaN, LESS, GREATER, LESS_EQUAL and GREATER_EQUAL are all false |
| Operations.InfinitiesOrder | app/workflow/operation.py:70-96 | an operand that converts to positive infinity is GREATER than, and not LESS_EQUAL to, any finite number |
| Contexts.Unquote | app/workflow/context.py:66-67 | the inner text of a quoted name is two characters shorter, and empty for the one-character name made of a single quote |
| Contexts.Lookup | app/workflow/context.py:60-102 | get_value with a default always finds a value |
| Contexts.LookupConstants | app/workflow/context.py:62-69 | an empty name gives the default, a quoted name gives its inner text whatever its length, and an unquoted name over 100 characters gives the default |
| Contexts.PseudoVariablesShadow | app/workflow/context.py:72-77 | STATUS reads the status name and RESULT or CONTENT the result, "" when there is none, whatever the variables, prompts and environment hold |
| Contexts.LookupOrder | app/workflow/context.py:84-97 | a variable shadows a prompt and an environment variable of the same name, and a prompt shadows an environment variable; a file: value is read from the file |
| Contexts.AssignIgnored | app/workflow/context.py:107-117 | set_value with an empty, quoted, over-long or file: name changes nothing in the context |
| Contexts.GetAfterSet | app/workflow/context.py:84-89 | a variable set by set_value reads back as the value set unless that value is a file: reference, and no other name changes |
| Contexts.StatusAfterSet | app/workflow/context.py:120-125 | STATUS accepts exactly the status names and then reads back the name set; any other value leaves the context unchanged |
| Contexts.ResultAfterSet | app/workflow/context.py:126-128 | RESULT and CONTENT are one slot: a value set through either reads back through both, and the variables are untouched |
| Contexts.Context.constructor | app/workflow/context.py:38-47 | a new context starts CREATED with no result and a copy of the workflow's parameters, equal to them when their keys are distinct |
| Contexts.Context.SetValue | app/workflow/context.py:105-135 | the new status, result and variables are exactly those Assign gives for the old ones |
| Contexts.Assign | app/workflow/context.py:105-135 | set_value as a new state: empty, quoted and over-long names change nothing, STATUS takes only a status name, RESULT and CONTENT set the result, "file:" names change no state, any other name sets that variable; characterised by AssignIgnored, GetAfterSet, StatusAfterSet and ResultAfterSet |
| Contexts.Context.GetValue | app/workflow/context.py:60-102 | get_value on the context's current state, as Lookup states |
| Contexts.Deref | app/workflow/context.py:87-88 | a variable value starting with "file:" is replaced by the content of the named file |
| PromptFactories.SuffixesExclusive | app/agents/prompt_factory.py:20-25 | a path ends in at most one of .json, .md and .txt |
| PromptFactories.FileTypeOf | app/agents/prompt_factory.py:20-27 | load picks the JSON, markdown or text loader exactly by the suffix, and raises ValueError for any other path |
| PromptFactories.Flush | app/agents/prompt_factory.py:59-60 | a non-empty buffer becomes exactly one prompt of the current role with stripped content; an empty one becomes nothing |
| PromptFactories.MdRole | app/agents/prompt_factory.py:58-72 | a stripped line switches to a role only when it starts with that role's header, and the user and assistant headers are tried first |
| PromptFactories.MdRoleOfHeader | app/agents/prompt_factory.py:58-72 | a line starting with a role's header switches to exactly that role |
| PromptFactories.LoadMarkdownLines | app/agents/prompt_factory.py:53-77 | the markdown loader's loop returns exactly the prompts MarkdownPrompts defines for the lines |
| PromptFactories.MdStep | app/agents/prompt_factory.py:56-74 | one line either flushes the buffer and switches role or is appended verbatim |
| PromptFactories.MdPlainLines | app/agents/prompt_factory.py:73-76 | lines without a header are all appended verbatim, line breaks included, to one buffer |
| PromptFactories.MarkdownWithoutHeaders | app/agents/prompt_factory.py:53-77 | a file without headers is one user prompt holding its whole stripped text, or nothing when it is empty |
| PromptFactories.HeaderLineRead | app/agents/prompt_factory.py:58-72 | a written header line switches the loader to its role |
| PromptFactories.MdBlockRead | app/agents/prompt_factory.py:56-74 | a header line and a body line flush the open buffer and leave the body buffered under the new role |
| PromptFactories.MdBlankRead | app/agents/prompt_factory.py:73-74 | a blank line only adds a line break to the buffer |
| PromptFactories.FlushBody | app/agents/prompt_factory.py:75-76 | a buffer holding a stripped body and trailing line breaks flushes to that prompt |
| PromptFactories.MdRoundTrip | app/agents/prompt_factory.py:53-77 | reading prompts back from their markdown form gives the open buffer's prompt first and then exactly the prompts written |
| PromptFactories.MarkdownTestRendered | test/agents/test_prompt_factory.py:27-28 | the markdown test file is the markdown form of the three test prompts |
| PromptFactories.MarkdownTestFile | test/agents/test_prompt_factory.py:51-57 | the markdown test file loads back as the system, user and assistant test prompts |
| PromptFactories.TextRole | app/agents/prompt_factory.py:95-109 | a stripped line starts a role only when it starts with that role's marker, user and assistant being tried first |
| PromptFactories.TextRoleOfMarker | app/agents/prompt_factory.py:95-109 | a line starting with a role's marker starts exactly that role |
| PromptFactories.LoadTextLines | app/agents/prompt_factory.py:90-114 | the text loader's loop returns exactly the prompts TextPrompts defines for the lines |
| PromptFactories.TextStep | app/agents/prompt_factory.py:93-111 | one stripped line either flushes the buffer and restarts it with the marker removed, or is appended |
| PromptFactories.TextPlainLines | app/agents/prompt_factory.py:110-111 | continuation lines are stripped and joined with no separator |
| PromptFactories.RenderText | app/agents/prompt_factory.py:93-111 | the text form has one line per prompt |
| PromptFactories.TextLineStrip | app/agents/prompt_factory.py:94 | a written text line strips to the marker, a space and the content |
| PromptFactories.TextMarkerRemoved | app/agents/prompt_factory.py:99-109 | replacing the marker in a written line leaves the space and the content, since the content holds no colon |
| PromptFactories.TextLineRead | app/agents/prompt_factory.py:95-109 | a written line flushes the open buffer and buffers a space and the content under its role |
| PromptFactories.FlushSpaced | app/agents/prompt_factory.py:112-113 | a buffer holding a space and a stripped content flushes to that prompt |
| PromptFactories.TextRoundTrip | app/agents/prompt_factory.py:90-114 | reading prompts back from their text form gives the open buffer's prompt first and then exactly the prompts written |
| PromptFactories.SystemTestLine | test/agents/test_prompt_factory.py:24-25 | the system test prompt is written as its test line |
| PromptFactories.UserTestLine | test/agents/test_prompt_factory.py:24-25 | the user test prompt is written as its test line |
| PromptFactories.AssistantTestLine | test/agents/test_prompt_factory.py:24-25 | the assistant test prompt is written as its test line |
| PromptFactories.TextTestRendered | test/agents/test_prompt_factory.py:24-25 | the text test file is the text form of the three test prompts |
| PromptFactories.TextTestFile | test/agents/test_prompt_factory.py:43-49 | the text test file loads back as the system, user and assistant test prompts |
| PromptFactories.Load | app/agents/prompt_factory.py:12-27 | load returns the JSON prompts, the markdown loader's or the text loader's prompts by suffix, and ValueError naming the path otherwise |
| PromptFactories.UnsupportedSuffix | test/agents/test_prompt_factory.py:59-62 | a .xyz path raises ValueError |
| PromptFactories.MarkdownPrompts | app/agents/prompt_factory.py:43-78 | the reference definition of the markdown loader: role user, a role header flushes a non-empty buffer and switches role, other lines are appended verbatim, and the buffer is flushed at the end |
| PromptFactories.TextPrompts | app/agents/prompt_factory.py:80-116 | the reference definition of the text loader: each line stripped, a role marker flushes and starts a buffer with the marker removed, other lines are appended with no separator |
| PromptFactories.MdFrom | app/agents/prompt_factory.py:55-76 | the markdown loader's prompts from the remaining lines: a role header flushes the buffer and switches role, any other line is appended verbatim, and the end flushes |
| PromptFactories.TextFrom | app/agents/prompt_factory.py:93-113 | the text loader's prompts: each line is stripped, a marker line flushes and restarts the buffer with the marker removed, other lines are appended, and the end flushes |
| WorkflowFactories.Store | app/workflow/workflow_factory.py:57-58 | a non-empty buffer is stored as Prompt(role, content) under the current key; an empty one stores nothing |
| WorkflowFactories.LoadWorkflowLines | app/workflow/workflow_factory.py:33-80 | the loader's loop gives a new workflow named after the file whose prompts are exactly those WorkflowPrompts defines for the lines |
| WorkflowFactories.SectionStep | app/workflow/workflow_factory.py:46-76 | one line either opens the prompts section, is skipped before it, stores the buffer and opens a role header's key, or is buffered under an open role |
| WorkflowFactories.PreambleSkipped | app/workflow/workflow_factory.py:47-52 | lines before the first one starting with # Prompts are skipped |
| WorkflowFactories.NoPromptsSection | app/workflow/workflow_factory.py:47-52 | a file without a # Prompts line gives a workflow without prompts |
| WorkflowFactories.OrphanLinesDropped | app/workflow/workflow_factory.py:74-76 | inside the section, lines before the first role header are dropped, later headings included |
| WorkflowFactories.BodyLinesBuffered | app/workflow/workflow_factory.py:74-76 | lines after a role header that are no header are buffered verbatim |
| WorkflowFactories.HeaderStores | app/workflow/workflow_factory.py:56-73 | a role header stores the buffered prompt and opens its role under the header's key |
| WorkflowFactories.EntryHeaderRead | app/workflow/workflow_factory.py:56-73 | the header line written for an entry opens its role under its key |
| WorkflowFactories.EntryStored | app/workflow/workflow_factory.py:77-78 | the buffer of a written entry stores exactly that entry's prompt |
| WorkflowFactories.EntryRead | app/workflow/workflow_factory.py:46-76 | reading a written entry stores the open buffer and leaves the entry's own buffer open |
| WorkflowFactories.EntriesRead | app/workflow/workflow_factory.py:46-78 | reading written entries stores the open buffer and then every entry in order |
| WorkflowFactories.SectionLinesText | app/workflow/workflow_writer.py:132-137 | the section's lines hold exactly the text the writer's _write_prompts produces |
| WorkflowFactories.SectionRoundTrip | app/workflow/workflow_factory.py:33-80 | loading a file whose # Prompts section was written by _write_prompts gives back exactly the prompts written, whatever precedes the section |
| WorkflowFactories.WorkflowPrompts | app/workflow/workflow_factory.py:15-80 | the reference definition of the prompt-section loader: nothing before a "# Prompts" line, then role headers flush and open a key, and body lines are buffered under a role |
| WorkflowFactories.SectionFrom | app/workflow/workflow_factory.py:46-78 | the loader's state machine over the rest of the lines: before the prompts section every line is skipped until one starts with "# Prompts"; from then on a stripped line starting with a role header stores the non-empty buffer under the current key and opens the header's role and key (the line without "## ", stripped), any other line is appended verbatim while a role is open, and at the end the non-empty buffer is stored |
| WorkflowFactories.BodyStep | app/workflow/workflow_factory.py:74-76 | under a role, a line that is not a role header is appended to the buffer |
| Reader.CheckSection | app/workflow/workflow_reader.py:113-119 | a stripped header line opens the Workflow section exactly when it starts with # Workflow, the Prompts section exactly when it starts with # Prompts and not # Workflow, and no section otherwise |
| Reader.AddParamsStep | app/workflow/workflow_reader.py:300-307 | the loop over the comma-separated pieces handles the i-th piece, then the rest |
| Reader.ParamsRead | app/workflow/workflow_reader.py:295-307 | _parse_params changes nothing but the parameters |
| Reader.ActivityRead | app/workflow/workflow_reader.py:243-292 | _parse_activity keeps the entry points and every activity already declared |
| Reader.FlowRead | app/workflow/workflow_reader.py:211-238 | _parse_flow keeps the entry points and the set of declared activities |
| Reader.FlowchartLineRead | app/workflow/workflow_reader.py:192-208 | _parse_flowchart_line keeps the entry points and every activity already declared |
| Reader.WorkflowSectionFrom | app/workflow/workflow_reader.py:122-145 | _parse_section_workflow consumes lines forward, keeps what was declared, and stops only at a "# " header line or at the end of the input |
| Reader.Flush | app/workflow/workflow_reader.py:159-160 | storing the buffered prompt changes nothing but the prompts |
| Reader.PromptsSectionFrom | app/workflow/workflow_reader.py:148-189 | _parse_section_prompts consumes lines forward, changes only the prompts, and stops only at a "# " header line or at the end of the input |
| Reader.PromptLineRead | app/workflow/workflow_reader.py:154-178 | one line of the prompts section changes nothing but the prompts |
| Reader.ContentFrom | app/workflow/workflow_reader.py:78-98 | the main loop of _parse_content keeps the entry points and every activity declared |
| Reader.LineRead | app/workflow/workflow_reader.py:79-86 | a header or description line changes neither activities nor prompts, and only a "# " line changes the section |
| Reader.SectionRead | app/workflow/workflow_reader.py:87-92 | the section's parser consumes lines forward, keeps what was declared, and stops at a header |
| Reader.ContentReadBody | app/workflow/workflow_reader.py:73-110 | _parse_content reads the body and then sets the entry points, or raises what the body raised |
| Reader.StringReadEntryPoints | app/workflow/workflow_reader.py:66-110 | a workflow read from a string starts at START, has on_failed exactly when ON_FAILED and on_success exactly when ON_START is declared, and a text without START raises KeyError('START') |
| Reader.EntryPointsFresh | app/workflow/workflow_reader.py:100-110 | setting the entry points succeeds exactly when START is declared and wires START, ON_FAILED and ON_START as declared |
| Reader.NoDiagramNoChange | app/workflow/workflow_reader.py:122-145 | a workflow section that never opens a mermaid block leaves the workflow unchanged |
| Reader.OutsideDiagram | app/workflow/workflow_reader.py:126-145 | outside a diagram, a line that is neither a header nor a mermaid fence is skipped |
| Reader.CommentIgnored | app/workflow/workflow_reader.py:194-195 | a flowchart line starting with %% changes nothing |
| Reader.ArrowAt | app/workflow/workflow_reader.py:198 | the arrow found in "a --> right" is the one after the name a |
| Reader.ArrowSides | app/workflow/workflow_reader.py:198-202 | the two stripped sides of "a --> right" are a and right |
| Reader.EdgeLineIsFlow | app/workflow/workflow_reader.py:198-205 | an edge line whose two sides are declared and carry no expression only wires the edge |
| Reader.ArrowLine | app/workflow/workflow_reader.py:192-205 | "a --> right" is an edge line with those two sides |
| Reader.LabelledEdgeRead | app/workflow/workflow_reader.py:211-238 | a labelled edge between declared activities sets other of the source for a Failed label, next for a Succeeded label in any letter case, and raises ValueError otherwise; nothing else changes |
| Reader.PlainEdgeRead | app/workflow/workflow_reader.py:229-230 | an unlabelled edge between declared activities sets next of the source and nothing else |
| Reader.KeyValueSplit | app/workflow/workflow_reader.py:303-304 | key=value with no other = splits into the key and the value |
| Reader.ParamPair | app/workflow/workflow_reader.py:301-307 | key=value sets the parameter to the value without trimming either side again, and a bare key sets it to the empty string |
| Reader.ParamTooManyValues | app/workflow/workflow_reader.py:304 | a piece with a second = fails to unpack and raises ValueError |
| Reader.KeyValuesSplit | app/workflow/workflow_reader.py:303-304 | key=value whose value holds another = splits into more than two pieces |
| Reader.DeclareActivity | app/workflow/workflow_reader.py:269-287 | a new bare name declares an activity of the kind its prefix names, with no expression, and raises ValueError when the prefix names no kind |
| Reader.RedeclareActivity | app/workflow/workflow_reader.py:288-292 | declaring an activity again keeps its kind, successors and hits and replaces its expression only by a non-empty one |
| Reader.PromptLostBeforeSection | app/workflow/workflow_reader.py:153-156 | a prompt still buffered when a "# " section header follows is never stored |
| Reader.PromptKeptAtEnd | app/workflow/workflow_reader.py:158-188 | a prompt buffered at the end of the input is stored under the header text without "## " |
| Reader.RoleHeaderNotSection | app/workflow/workflow_reader.py:155-175 | a role header is no section header, and its role is one a prompt accepts |
| Reader.WorkflowReader.constructor | app/workflow/workflow_reader.py:43-44 | a new reader has read nothing: the model holds an empty workflow where the source holds None, and every load replaces it before it is read |
| Reader.WorkflowReader.LoadFromString | app/workflow/workflow_reader.py:66-70 | load_from_string returns exactly the workflow StringRead defines, or the exception it raises |
| Reader.WorkflowReader.ParseContent | app/workflow/workflow_reader.py:73-110 | the loop leaves the workflow ContentRead defines, or stops with its exception |
| Reader.WorkflowReader.ContentLine | app/workflow/workflow_reader.py:79-98 | one pass of the main loop agrees with ContentFrom and moves forward |
| Reader.WorkflowReader.ReadLine | app/workflow/workflow_reader.py:79-86 | a header or description line leaves the workflow and section LineRead gives |
| Reader.WorkflowReader.ParseSection | app/workflow/workflow_reader.py:87-92 | dispatching to a section parser agrees with SectionRead |
| Reader.WorkflowReader.SetEntryPoints | app/workflow/workflow_reader.py:100-110 | the end of _parse_content agrees with EntryPoints |
| Reader.WorkflowReader.ParseSectionWorkflow | app/workflow/workflow_reader.py:122-145 | the loop agrees with WorkflowSectionFrom on the workflow, the header returned and the lines consumed |
| Reader.WorkflowReader.SectionWorkflowLine | app/workflow/workflow_reader.py:131-139 | one line sets the mermaid and flowchart flags as Fence does and reads a flowchart statement only inside an open flowchart |
| Reader.WorkflowReader.ParseSectionPrompts | app/workflow/workflow_reader.py:148-189 | the loop agrees with PromptsSectionFrom on the workflow, the header returned and the lines consumed |
| Reader.WorkflowReader.ReadPromptLine | app/workflow/workflow_reader.py:158-178 | one line agrees with PromptLineRead |
| Reader.WorkflowReader.FlushPrompt | app/workflow/workflow_reader.py:186-188 | storing the buffered prompt agrees with Flush |
| Reader.WorkflowReader.ParseFlowchartLine | app/workflow/workflow_reader.py:192-208 | agrees with FlowchartLineRead |
| Reader.WorkflowReader.ParseFlow | app/workflow/workflow_reader.py:211-240 | agrees with FlowRead |
| Reader.WorkflowReader.ParseActivity | app/workflow/workflow_reader.py:243-292 | agrees with ActivityRead |
| Reader.WorkflowReader.ParseParams | app/workflow/workflow_reader.py:295-307 | agrees with ParamsRead |
| Reader.EntryPoints | app/workflow/workflow_reader.py:100-110 | start becomes START unless already set (KeyError when START is missing), on_failed becomes ON_FAILED and on_success ON_START when unset and declared |
| Reader.ContentRead | app/workflow/workflow_reader.py:73-110 | _parse_content: the main loop from an empty first line, then the entry points |
| Reader.StringRead | app/workflow/workflow_reader.py:66-70 | load_from_string: a fresh workflow named "" read from the text split at "\n" |
| Reader.AddParam | app/workflow/workflow_reader.py:300-307 | one comma piece, stripped: empty is ignored, key=value with "=" after index 0 sets the value (a second "=" raises the unpack ValueError), a bare key sets "" |
| Reader.AddParams | app/workflow/workflow_reader.py:299-307 | the comma pieces in order, stopping at the first error |
| Reader.Fence | app/workflow/workflow_reader.py:131-137 | "```mermaid" opens a diagram, "flowchart" inside one starts the flowchart, any other fence closes both |
| Reader.IsFlowchartLine | app/workflow/workflow_reader.py:138-139 | a non-empty stripped line inside an open flowchart that is neither fence nor "flowchart" line is parsed as a flowchart statement |
| ReaderScan.LastIndex | app/workflow/workflow_reader.py:246 | the greedy (.*) of the activity pattern ends at the last occurrence of a character, -1 when there is none |
| ReaderScan.BarEnd | app/workflow/workflow_reader.py:218 | the optional group (\|.*\|) spans from a leading bar to the last bar, and is empty when the text does not start with a bar or has no second one |
| ReaderScan.SpaceEnd | app/workflow/workflow_reader.py:218 | \s* stops at the first character that is no whitespace |
| ReaderScan.NameEnd | app/workflow/workflow_reader.py:246 | [A-Z_]* stops at the first character that is no name character |
| ReaderScan.FirstBracket | app/workflow/workflow_reader.py:214 | the first opening bracket at or after a position, -1 when there is none |
| ReaderScan.RunStart | app/workflow/workflow_reader.py:214 | the name group that ends at a bracket starts where the run of name characters before it starts |
| ReaderScan.ExprStages | app/workflow/workflow_reader.py:250-265 | a text that is no {...} shape once unwrapped yields its unwrapped text, cut after a caption prefix |
| ReaderScan.CaptionCutAt | app/workflow/workflow_reader.py:263-265 | a colon after the first character cuts the expression after it, stripped |
| ReaderScan.NameEndAt | app/workflow/workflow_reader.py:246 | a run of name characters ends where the name does |
| ReaderScan.SpaceEndAt | app/workflow/workflow_reader.py:218 | a run of whitespace ends where the whitespace does |
| ReaderScan.BareName | app/workflow/workflow_reader.py:214-249 | a bare name reads as that name with an empty expression, on either side of an edge |
| ReaderScan.NameThenBracket | app/workflow/workflow_reader.py:246-249 | a name followed by an opening bracket gives the name as group 2 and the rest as group 3 |
| ReaderScan.CaptionExpr | app/workflow/workflow_reader.py:250-265 | the caption "Kind: expr]" yields the stripped expression |
| ReaderScan.BracketedCaption | app/workflow/workflow_reader.py:250-265 | a bracketed text with a colon after its first character keeps what follows that colon, stripped |
| ReaderScan.CaptionUnwrapped | app/workflow/workflow_reader.py:253-262 | a caption starting with a letter is neither unwrapped nor taken for a shape |
| ReaderScan.CaptionColon | app/workflow/workflow_reader.py:263-265 | the first colon of "Kind: expr" follows the kind |
| ReaderScan.CaptionedNode | app/workflow/workflow_reader.py:243-265 | the node "name[Kind: expr]" reads as that name with the stripped expression |
| ReaderScan.LabelEnd | app/workflow/workflow_reader.py:218 | in "\|LABEL\| name" the bar group, the space and the name end where they are written |
| ReaderScan.LabelBarEnd | app/workflow/workflow_reader.py:218 | in "\|LABEL\| name" the bar group closes at the second bar |
| ReaderScan.LabelSpaceEnd | app/workflow/workflow_reader.py:218 | one space separates the bar group from the name |
| ReaderScan.LabelledTarget | app/workflow/workflow_reader.py:218-225 | the edge target "\|LABEL\| name" reads back as that label and name |
| ReaderScan.LabelledNode | app/workflow/workflow_reader.py:246-249 | the same text read as an activity gives the name and no expression |
| ReaderScan.PlainTarget | app/workflow/workflow_reader.py:218-225 | an unlabelled edge target reads as the name with an empty label |
| ReaderScan.ActivityGroups | app/workflow/workflow_reader.py:246-249 | groups 2 and 3 of the activity pattern: the [A-Z_]* name after an optional \|label\| and whitespace, and everything after the name and one optional opening bracket |
| ReaderScan.Unwrap | app/workflow/workflow_reader.py:253-258 | one pair of enclosing characters is removed when the text starts with the opening one and ends with the closing one |
| ReaderScan.CloseDropped | app/workflow/workflow_reader.py:250-251 | one closing "]" or "}" at the end is dropped |
| ReaderScan.Unwrapped | app/workflow/workflow_reader.py:253-258 | enclosing (), [] and "" are removed, in that order |
| ReaderScan.ShapeCleared | app/workflow/workflow_reader.py:261-262 | an expression that starts with "{" is emptied unless the name starts with PARAMS |
| ReaderScan.CaptionCut | app/workflow/workflow_reader.py:263-265 | a colon after the first character cuts the expression after it, and the rest is stripped |
| ReaderScan.ActivityOfLine | app/workflow/workflow_reader.py:243-265 | the name and cleaned expression _parse_activity reads from a line |
| ReaderScan.EdgeLeft | app/workflow/workflow_reader.py:214-216 | the [A-Z_]* run right before the first opening bracket, or the whole text when there is no bracket |
| ReaderScan.EdgeRight | app/workflow/workflow_reader.py:218-225 | the label between the bars (trimmed when longer than two characters) and the [A-Z_]* target name after the spaces |
| ReaderScan.QuotedBody | app/workflow/workflow_reader.py:296-298 | the text between the first and the last double quote, or the whole text when there are fewer than two |
| ActivityWriters.Traverse | app/workflow/activity_writer.py:62-87 | _write only ever adds activities of the graph to the visited set, and the activity written is visited afterwards |
| ActivityWriters.Successor | app/workflow/activity_writer.py:71-87 | writing one successor slot only adds activities of the graph to the visited set |
| ActivityWriters.NodesOnce | app/workflow/activity_writer.py:62-68 | every activity reached gets exactly one node line: the node lines name pairwise different activities, exactly the newly visited ones |
| ActivityWriters.SuccessorNodesOnce | app/workflow/activity_writer.py:71-87 | the text written for a successor has no two node lines for one activity |
| ActivityWriters.EdgesOfGraph | app/workflow/activity_writer.py:70-87 | every edge line written leads from an activity to its next with the next label or to its other with the other label |
| ActivityWriters.SuccessorEdgesOfGraph | app/workflow/activity_writer.py:70-87 | the edges written for one successor slot are edges of the graph |
| ActivityWriters.LabelsReadBack | app/workflow/activity_writer.py:73-84 | TRUE on next is a Succeeded label, FALSE and FAILED on other are Failed labels, and other is unlabelled exactly for kinds other than CHECK and CALL |
| ActivityWriters.WrittenTag | app/workflow/activity_writer.py:74-84 | the labels written are upper case, TRUE is the only positive one |
| ActivityWriters.EdgeLineSeen | app/workflow/activity_writer.py:72-85 | the flowchart line the reader sees for a written edge is "from --> label to" |
| ActivityWriters.WrittenEdgeRead | app/workflow/activity_writer.py:72-85 | reading a written edge line is reading "from --> label to" |
| ActivityWriters.WrittenLabelRead | app/workflow/activity_writer.py:74-84 | a written TRUE label reads back as next, FALSE or FAILED as other |
| ActivityWriters.UnlabelledRead | app/workflow/activity_writer.py:72-75 | an unlabelled written edge reads back as next |
| ActivityWriters.NextEdgeReadBack | app/workflow/activity_writer.py:71-75 | the next edge written, read back by the workflow reader, sets next to the same activity |
| ActivityWriters.OtherEdgeReadBack | app/workflow/activity_writer.py:79-85 | the other edge written reads back as other for CHECK and CALL, and as next for every other kind |
| ActivityWriters.PlainExpressionKept | app/workflow/activity_writer.py:30 | an expression without a colon or a character the reader strips comes through the reader's clean-up unchanged |
| ActivityWriters.BracedNode | app/workflow/activity_writer.py:28-30 | the CHECK node line reads back as the name and the plain expression |
| ActivityWriters.DoubleBracketNode | app/workflow/activity_writer.py:45-47 | the CALL node line reads back as the name and the plain expression |
| ActivityWriters.BracketedExpr | app/workflow/activity_writer.py:47 | the reader's expression for the CALL caption is the plain expression |
| ActivityWriters.QuotedUnwrapped | app/workflow/activity_writer.py:43 | the quoted EXECUTE caption loses its closing bracket and its quotes |
| ActivityWriters.QuotedCaptionExpr | app/workflow/activity_writer.py:43 | the reader's expression for the quoted caption is the stripped expression |
| ActivityWriters.QuotedCaptionNode | app/workflow/activity_writer.py:41-43 | the EXECUTE node line reads back as the name and the stripped expression |
| ActivityWriters.ShapeNode | app/workflow/activity_writer.py:16-18 | a shape node line reads back as the name with no expression |
| ActivityWriters.ShapeExpr | app/workflow/activity_writer.py:18 | a {...} shape carries no expression for the reader |
| ActivityWriters.CaptionReadBack | app/workflow/activity_writer.py:20-43 | _parse_activity reads the SET, ASSIGN, PROMPT and EXECUTE node lines back as the name and the stripped expression |
| ActivityWriters.BracketReadBack | app/workflow/activity_writer.py:28-47 | _parse_activity reads the CHECK and CALL node lines back as the name and the plain expression |
| ActivityWriters.ShapeReadBack | app/workflow/activity_writer.py:16-59 | _parse_activity reads the START, ASK, SUCCESS, FAILED and ON node lines back as the name with no expression |
| ActivityWriters.NodeReadBack | app/workflow/activity_writer.py:16-59 | _parse_activity reads every kind's node line back as its name, with the expression as each caption keeps it |
| ActivityWriters.CaptionArrowFree | app/workflow/activity_writer.py:16-59 | no caption holds "-->" or a line break unless its expression does, and every caption ends in "]" or "}" |
| ActivityWriters.NodeLineSeen | app/workflow/activity_writer.py:16-59 | a written node line, without its line break and stripped, is one flowchart line that is neither a comment nor an edge, when the expression holds no "-->" and no line break |
| ActivityWriters.NodeLineReadBack | app/workflow/workflow_reader.py:192-208 | _parse_flowchart_line on a written node line declares the activity with the expression the caption keeps, or sets that expression on an activity already declared (an empty one keeps the old), or refuses a name whose prefix is no kind; for expressions without "-->" and without a line break |
| ActivityWriters.ArrowExpressionReadAsEdge | app/workflow/workflow_reader.py:197-199 | a node line whose expression holds "-->" is taken by _parse_flowchart_line for an edge |
| ActivityWriters.ActivityWriter.constructor | app/workflow/activity_writer.py:11-13 | a new writer has visited nothing |
| ActivityWriters.ActivityWriter.Write | app/workflow/activity_writer.py:62-87 | _write appends exactly the text Traverse defines and leaves the visited set it gives |
| ActivityWriters.ActivityWriter.WriteSuccessor | app/workflow/activity_writer.py:71-87 | writing a successor appends the edge line and the successor's text, as Successor defines |
| ActivityWriters.TraverseText | app/workflow/activity_writer.py:62-87 | the text for a new activity is its node line, then the text for next, then the text for other |
| ActivityWriters.SuccessorText | app/workflow/activity_writer.py:71-87 | the text for a present successor is the edge line, then the text written from the successor |
| ActivityWriters.Caption | app/workflow/activity_writer.py:16-59 | the caption each visit passes to _write: "[Kind: expr]" for SET, ASSIGN and PROMPT, "{expr}" for CHECK, "[\"Kind: expr\"]" for EXECUTE, "[[expr]]" for CALL, and fixed shapes for START, ASK (with its text), SUCCESS, FAILED and ON |
| ActivityWriters.Text | app/workflow/activity_writer.py:62-87 | the written lines in order, each indented by two spaces: a node as name and caption, an edge as "from --> \|label\| to" |
| ActivityWriters.NextLabel | app/workflow/activity_writer.py:71-75 | the edge to next is labelled TRUE for CHECK and unlabelled otherwise |
| ActivityWriters.OtherLabel | app/workflow/activity_writer.py:79-85 | the edge to other is labelled FALSE for CHECK, FAILED for CALL, unlabelled otherwise |
| ActivityWriters.LineText | app/workflow/activity_writer.py:67-85 | a node line is "  name" + caption; an edge line is "  from --> " + optional "\|LABEL\| " + target; each ends with a newline |
| ActivityWriters.TextVisit | app/workflow/activity_writer.py:67-87 | the text of a node line followed by two runs of lines is those texts in order |
| WorkflowWriters.GeneralText | app/workflow/workflow_writer.py:94-102 | the general section opens with the workflow's name as a "# " heading and ends with a line break |
| WorkflowWriters.Visit | app/workflow/workflow_writer.py:113-122 | visiting an entry point never forgets an activity already visited |
| WorkflowWriters.Pad2 | app/workflow/workflow_writer.py:72 | the instance number is printed at least two characters wide |
| WorkflowWriters.FlowchartNodesOnce | app/workflow/workflow_writer.py:112-122 | one writer serves start, on_success and on_failed, so an activity shared by the main flow and a handler gets one node line, and the node lines written are exactly the activities visited |
| WorkflowWriters.VisitNodesOnce | app/workflow/workflow_writer.py:113-122 | an entry point adds node lines only for activities newly visited, each once |
| WorkflowWriters.StyleAtEnd | app/workflow/workflow_writer.py:124-128 | giving the current activity inserts its style line just before the closing fence and changes nothing else |
| WorkflowWriters.PromptsTextSplit | app/workflow/workflow_writer.py:135-136 | prompts are written in dictionary order, entry after entry |
| WorkflowWriters.PromptsTextSingle | app/workflow/workflow_writer.py:136 | one prompt is written as its "## " key heading, a blank line, its content and a blank line |
| WorkflowWriters.VariableLines | app/workflow/workflow_writer.py:142-146 | a value with a line break after its first character goes on lines of its own below the key, any other value follows the key on one line |
| WorkflowWriters.NumberedSplit | app/workflow/workflow_writer.py:153-162 | the records are numbered consecutively in list order |
| WorkflowWriters.NumberedFirst | app/workflow/workflow_writer.py:153-162 | the first record gets the first number and the rest the numbers after it |
| WorkflowWriters.HistoryFirstRecord | app/workflow/workflow_writer.py:150-162 | the history section numbers its first record 1 and the others from 2 on |
| WorkflowWriters.HistoryAfterAdd | app/workflow/workflow_writer.py:150-162 | a record added with add_record appears as one more entry, numbered after those before it |
| WorkflowWriters.Pad2Digits | app/workflow/workflow_writer.py:72 | one digit gets a leading zero, two or more digits and negative numbers below -9 print as str() prints them, and -1 to -9 print as "-d" with no zero, since the sign counts toward the width |
| WorkflowWriters.HistoryFileNameOfDefinition | app/workflow/workflow_writer.py:70-72 | a definition dir/stem.wf.md is saved with its history as nn_stem.wfh.md |
| WorkflowWriters.BasenameAfterSlash | app/workflow/workflow_writer.py:71 | the base name of dir/base is base |
| WorkflowWriters.WorkflowWriter.constructor | app/workflow/workflow_writer.py:47-48 | the writer holds the given workflow |
| WorkflowWriters.WorkflowWriter.SaveDefinition | app/workflow/workflow_writer.py:51-60 | the file receives the general section, the flowchart and the prompts, exactly as DefinitionText lays them out |
| WorkflowWriters.WorkflowWriter.SaveHistory | app/workflow/workflow_writer.py:63-82 | the file receives the general section without description and with the file path, the flowchart with the current activity, the variables and the history |
| WorkflowWriters.WorkflowWriter.WriteGeneral | app/workflow/workflow_writer.py:94-102 | appends exactly GeneralText |
| WorkflowWriters.WorkflowWriter.WriteFlowchart | app/workflow/workflow_writer.py:105-128 | appends exactly FlowchartText |
| WorkflowWriters.WorkflowWriter.WriteEntry | app/workflow/workflow_writer.py:113-122 | an entry point appends its comment when it is a handler, then the text its visit defines, and leaves the visited set that visit gives |
| WorkflowWriters.WorkflowWriter.WritePrompts | app/workflow/workflow_writer.py:132-136 | appends exactly PromptsSection |
| WorkflowWriters.WorkflowWriter.WriteVariables | app/workflow/workflow_writer.py:139-147 | appends exactly VariablesSection: nothing without a context |
| WorkflowWriters.WorkflowWriter.WriteVariable | app/workflow/workflow_writer.py:143-146 | appends one variable's text |
| WorkflowWriters.WorkflowWriter.WriteHistory | app/workflow/workflow_writer.py:150-162 | appends exactly HistorySection |
| WorkflowWriters.FlowchartParts | app/workflow/workflow_writer.py:108-128 | the flowchart written part by part is FlowchartText |
| WorkflowWriters.RecordParts | app/workflow/workflow_writer.py:155-161 | a record written in three writes is RecordText |
| WorkflowWriters.VariablesTextStep | app/workflow/workflow_writer.py:142-146 | the variables text grows by one variable per loop step |
| WorkflowWriters.FlowchartText | app/workflow/workflow_writer.py:105-130 | _write_flowchart: the heading and mermaid head, the lines from start, then from on_success and on_failed each after its handler comment, one style line for the current activity when given, and the closing fence |
| WorkflowWriters.PromptsText | app/workflow/workflow_writer.py:132-136 | each prompt as "## key", a blank line, its content and a blank line, in dictionary order |
| WorkflowWriters.VariableText | app/workflow/workflow_writer.py:142-147 | a value with a line break after its first character is written below "- **key**:", any other value after "- **key**=" |
| WorkflowWriters.RecordText | app/workflow/workflow_writer.py:155-162 | one history entry: the numbered heading with caption and status name, the timestamp comment, and the result or a blank line |
| WorkflowWriters.Basename | app/workflow/workflow_writer.py:70-72 | os.path.basename for "/" separators: the text after the last "/" |
| WorkflowWriters.HistoryFileName | app/workflow/workflow_writer.py:70-72 | the default history file: the instance number padded to two digits, "_", and the basename with ".wf.md" replaced by ".wfh.md" |
| WorkflowWriters.HandlerComment | app/workflow/workflow_writer.py:117 | "\n  %% Event-handler: name\n" before an event handler |
| WorkflowWriters.StyleLine | app/workflow/workflow_writer.py:126-127 | the style line that highlights the current activity |
| WorkflowWriters.PromptText | app/workflow/workflow_writer.py:136 | "## key\n\ncontent\n\n" for one prompt |
| WorkflowWriters.VariablesText | app/workflow/workflow_writer.py:142-146 | the variables' texts in dictionary order |
| WorkflowWriters.Numbered | app/workflow/workflow_writer.py:153-162 | the records' texts in list order, numbered consecutively from the first number |
| WorkflowWriters.RecordsText | app/workflow/workflow_writer.py:153-162 | the history records numbered from the given counter |
| WorkflowWriters.DefinitionText | app/workflow/workflow_writer.py:56-60 | save_definition's file: general section with description, flowchart without highlight, prompts |
| WorkflowWriters.HistoryText | app/workflow/workflow_writer.py:76-82 | save_history's file: general section with the file path, flowchart highlighting the current activity, variables, history |
| Interpreter.WordEnd | app/workflow/activity_interpreter.py:341 | \w* stops at the first character that is no word character |
| Interpreter.Placeholders | app/workflow/activity_interpreter.py:341 | every match re.findall reports is a {{word}} placeholder |
| Interpreter.ScanStep | app/workflow/activity_interpreter.py:341 | the scan either matches a placeholder at the current position and resumes after it, or moves one character on |
| Interpreter.PlaceholdersOccur | app/workflow/activity_interpreter.py:341 | every match reported occurs in the text at or after the scan start |
| Interpreter.PlaceholderPosition | app/workflow/activity_interpreter.py:341 | the i-th match occurs at a position at or after the scan start |
| Interpreter.ScanMatch | app/workflow/activity_interpreter.py:341 | a match found at a position ends at its closing braces and the scan resumes right after them |
| Interpreter.NoBraceNoPlaceholders | app/workflow/activity_interpreter.py:341 | a text without "{" has no placeholder |
| Interpreter.RenderPlain | app/workflow/activity_interpreter.py:338-346 | _render_content leaves a text without "{" unchanged |
| Interpreter.ReplaceEachUnresolved | app/workflow/activity_interpreter.py:342-345 | placeholders whose names resolve to nothing are left in the text as they are |
| Interpreter.WordEndAt | app/workflow/activity_interpreter.py:341 | a run of word characters ends where the word does |
| Interpreter.RenderSinglePlaceholder | app/workflow/activity_interpreter.py:338-346 | a text that is one placeholder renders to the value of its name |
| Interpreter.Fail | app/workflow/activity_interpreter.py:64-69 | a failing activity sets status FAILED, its diagnostic as result and outcome false, and changes neither the variables nor the control flags |
| Interpreter.SetWithoutEquals | app/workflow/activity_interpreter.py:60-70 | a SET expression without = fails with the syntax diagnostic |
| Interpreter.SetThenGet | app/workflow/activity_interpreter.py:72-80 | after SET name=value the name reads as the resolved and rendered value and every other name as before |
| Interpreter.SetQuotedExample | app/workflow/activity_interpreter.py:72-76 | SET foo='bar' makes foo read as bar |
| Interpreter.AssignUnresolvedRaises | app/workflow/activity_interpreter.py:85-96 | as written, an ASSIGN whose expression resolves to nothing raises TypeError in _render_content and changes nothing; the corrected step fails the activity with the ASSIGN diagnostic |
| Interpreter.AssignEmptyExpression | app/workflow/activity_interpreter.py:85-96 | ASSIGN of the empty expression raises as written and fails the activity when corrected |
| Interpreter.AssignQuotedExample | app/workflow/activity_interpreter.py:98-103 | ASSIGN 'hello' succeeds and makes RESULT read as hello |
| Interpreter.CheckTooShort | app/workflow/activity_interpreter.py:109-118 | a CHECK expression with fewer than three space-separated parts fails with the syntax diagnostic |
| Interpreter.SplitThreeWords | app/workflow/activity_interpreter.py:109 | three words without blanks joined by single blanks split back into them |
| Interpreter.CheckOutcome | app/workflow/activity_interpreter.py:120-137 | a well-formed CHECK changes only the outcome, which is the operator applied to the resolved operands |
| Interpreter.EqualsItself | app/workflow/operation.py:51-53 | EQUALS holds between a one-line text and itself |
| Interpreter.StatusOperands | app/workflow/activity_interpreter.py:120-121 | STATUS resolves to the current status name and == parses to EQUALS |
| Interpreter.CheckStatusStep | app/workflow/activity_interpreter.py:120-137 | CHECK STATUS == 'name' compares the current status name with name |
| Interpreter.EqualsStatusNames | app/workflow/activity_interpreter.py:137 | two status names are EQUALS exactly when the statuses are the same |
| Interpreter.CheckStatusIs | app/workflow/activity_interpreter.py:106-137 | CHECK STATUS == 'name' holds exactly when the context is in that status, and changes nothing else |
| Interpreter.ExecTextAppend | app/workflow/activity_interpreter.py:232-243 | running commands one after another appends their texts in order |
| Interpreter.ExecuteExpression | app/workflow/activity_interpreter.py:223-245 | EXECUTE with an expression runs it rendered as one shell command, and the result is "$ command", a line break and the output with a line break |
| Interpreter.ExecuteWithoutExecutor | app/workflow/activity_interpreter.py:211-221 | as written, EXECUTE without an executor raises, and the result and outcome stay as they were; when a result exists the status has become FAILED first; the corrected step fails the activity with "CommandExecutor is not set!" |
| Interpreter.ExecuteWithoutResultRaises | app/workflow/activity_interpreter.py:211 | as written, EXECUTE on a context whose result is None raises TypeError in trunc_right of its first log line and changes nothing, whatever the expression and executor; the corrected step still runs an expression command and succeeds |
| Interpreter.ExecuteSucceeds | app/workflow/activity_interpreter.py:223-245 | with an executor, EXECUTE succeeds whenever it returns, and raises exactly when it has no expression and no result to parse |
| Interpreter.SuccessOutcome | app/workflow/activity_interpreter.py:254-272 | SUCCESS hands over to an on_success handler not yet run without touching the status, and otherwise ends the workflow with status SUCCESS |
| Interpreter.FailedCallOutcome | app/workflow/activity_interpreter.py:300-327 | failed() returns whether the workflow finished; when it did, the status is FAILED and a previous non-empty result is kept after the new one |
| Interpreter.StepRaisesOnlyInExecute | app/workflow/activity.py:76-102 | apart from EXECUTE no step raises, and CALL and ON only set the outcome true |
| Interpreter.ActivityInterpreter.constructor | app/workflow/activity_interpreter.py:38-45 | a new interpreter has outcome true, is in no handler, has not ended and has no next activity |
| Interpreter.ActivityInterpreter.RenderContent | app/workflow/activity_interpreter.py:338-346 | the loop returns exactly what Render defines |
| Interpreter.ActivityInterpreter.VisitStart | app/workflow/activity_interpreter.py:49-54 | the new state is StartStep's: status DOING |
| Interpreter.ActivityInterpreter.VisitSet | app/workflow/activity_interpreter.py:57-80 | the new state is SetStep's |
| Interpreter.ActivityInterpreter.VisitAssign | app/workflow/activity_interpreter.py:83-103 | the new state is that of the corrected AssignStep |
| Interpreter.ActivityInterpreter.FailActivity | app/workflow/activity_interpreter.py:64-69 | the new state is Fail's |
| Interpreter.ActivityInterpreter.VisitCheck | app/workflow/activity_interpreter.py:106-137 | the new state is CheckStep's |
| Interpreter.ActivityInterpreter.VisitExecute | app/workflow/activity_interpreter.py:209-245 | the new state and the exception are those of the corrected ExecuteStep |
| Interpreter.ActivityInterpreter.RunCommands | app/workflow/activity_interpreter.py:230-243 | the loop leaves exactly ExecText of the commands as the result and changes neither status nor variables |
| Interpreter.ActivityInterpreter.AppendCommand | app/workflow/activity_interpreter.py:233-243 | one round appends the command's lines and its output to the result |
| Interpreter.ActivityInterpreter.VisitCall | app/workflow/activity_interpreter.py:248-251 | only the outcome becomes true |
| Interpreter.ActivityInterpreter.VisitSuccess | app/workflow/activity_interpreter.py:254-272 | the new state is SuccessStep's |
| Interpreter.ActivityInterpreter.Success | app/workflow/activity_interpreter.py:274-276 | success() does what visit_success does |
| Interpreter.ActivityInterpreter.VisitFailed | app/workflow/activity_interpreter.py:279-298 | the new state is FailedStep's |
| Interpreter.ActivityInterpreter.Failed | app/workflow/activity_interpreter.py:300-327 | the new state and the flag returned are FailedCall's |
| Interpreter.ActivityInterpreter.VisitOn | app/workflow/activity_interpreter.py:330-334 | only the outcome becomes true |
| Interpreter.ActivityInterpreter.Accept | app/workflow/activity.py:76-102 | dispatching by kind gives the state and exception Step defines, that is the corrected dispatch: ASSIGN runs AssignStep and EXECUTE runs ExecuteStep, not the as-written AssignStepAsWritten (activity_interpreter.py:85-96) and ExecuteStepAsWritten (activity_interpreter.py:211-221) |
| Interpreter.Render | app/workflow/activity_interpreter.py:338-346 | _render_content: every `{{word}}` match found by the scan is replaced, all its occurrences at once, by the value its name resolves to; unresolved ones stay |
| Interpreter.StartStep | app/workflow/activity_interpreter.py:49-54 | visit_start sets the status to DOING and changes nothing else |
| Interpreter.SetStep | app/workflow/activity_interpreter.py:57-80 | visit_set: without "=" the activity fails with the syntax diagnostic; otherwise the text after the first "=" (pieces re-joined with spaces) is resolved with itself as default, rendered, and set under the name before it |
| Interpreter.AssignStepAsWritten | app/workflow/activity_interpreter.py:83-103 | visit_assign as written: an unresolved expression raises TypeError in _render_content and changes nothing; a resolved one becomes the rendered result |
| Interpreter.AssignStep | app/workflow/activity_interpreter.py:83-103 | visit_assign as its failure branch intends: an unresolved expression fails the activity with "ASSIGN Value is not set!", a resolved one becomes the rendered result |
| Interpreter.CheckStep | app/workflow/activity_interpreter.py:106-137 | visit_check: fewer than three space-separated parts, or an unresolved left operand, operator or right operand, fails the activity; otherwise the outcome is Interpret of the operator on the resolved operands |
| Interpreter.ExecuteStepAsWritten | app/workflow/activity_interpreter.py:209-245 | visit_execute as written: a None result raises TypeError in the first log line; without an executor the status becomes FAILED and calling the result raises TypeError; otherwise as ExecuteBody |
| Interpreter.ExecuteBody | app/workflow/activity_interpreter.py:223-245 | the commands to run (the rendered expression as one shell command, or those parsed from the result, AttributeError when there is none) run in order, their texts become the result and the outcome is true |
| Interpreter.ExecuteStep | app/workflow/activity_interpreter.py:209-245 | visit_execute as intended: logging never raises; without an executor the activity fails with "CommandExecutor is not set!"; otherwise as ExecuteBody |
| Interpreter.SuccessStep | app/workflow/activity_interpreter.py:254-277 | visit_success and success(): an on_success handler not yet visited becomes the next activity; otherwise the status becomes SUCCESS and the workflow ends |
| Interpreter.FailedStep | app/workflow/activity_interpreter.py:279-298 | visit_failed: an on_failed handler not yet visited becomes the next activity inside the handler; otherwise the status becomes FAILED and the workflow ends |
| Interpreter.FailedCall | app/workflow/activity_interpreter.py:300-327 | failed(result): with an unvisited on_failed handler a non-empty result and FAILED are recorded and False returned; otherwise the result is the given one, or it is prefixed to an existing one, the status becomes FAILED and True is returned |
| Interpreter.Step | app/workflow/activity.py:76-102 | accept, corrected: the step of the activity's kind, where ASSIGN goes to AssignStep and EXECUTE to ExecuteStep (the corrected visits; AssignStepAsWritten and ExecuteStepAsWritten model activity_interpreter.py:85-96 and 211-221 as written), and CALL and ON only mark the outcome a success |
| Interpreter.Resolve | app/workflow/activity_interpreter.py:343 | a placeholder name is resolved by the context's get_value |
| Interpreter.ReplaceEach | app/workflow/activity_interpreter.py:342-345 | each match in turn replaces all its occurrences by its value when the name resolves, and is kept otherwise |
| Interpreter.DollarLines | app/workflow/activity_interpreter.py:235-236 | "$ line\n" for each line of a command, in order |
| Interpreter.CommandText | app/workflow/activity_interpreter.py:235-242 | a command's dollar lines, then its output and a newline, or a bare newline when there is no output |
| Interpreter.ExecText | app/workflow/activity_interpreter.py:230-242 | the result EXECUTE builds: the commands' texts in order, starting from "" |
| Interpreter.SucceedStep | app/workflow/activity_interpreter.py:248-251 | visit_call and visit_on set only the success flag |
| LegacyInterpreters.OutputsAppend | app/workflow/interpreter.py:82-85 | running two lists of commands one after the other yields their outputs one after the other |
| LegacyInterpreters.OutputsContain | app/workflow/interpreter.py:82-85 | every command's output appears in the result, right after the outputs of the commands before it |
| LegacyInterpreters.CommandsToRun | app/workflow/interpreter.py:78-81 | an explicit command runs as one command; otherwise the commands come from the result, and a missing result raises AttributeError |
| LegacyInterpreters.ExplicitCommand | app/workflow/interpreter.py:78-85 | an explicit command line runs as exactly one sh command holding that line, and the result becomes its output |
| LegacyInterpreters.NoBlocksEmptyResult | app/workflow/interpreter.py:80-85 | a result without command blocks runs nothing and leaves an empty result |
| LegacyInterpreters.WorkflowInterpreter.constructor | app/workflow/interpreter.py:35-38 | a new interpreter holds the workflow and no executor |
| LegacyInterpreters.WorkflowInterpreter.Execute | app/workflow/interpreter.py:73-85 | without an executor a ValueError and no change; otherwise the result is replaced by the outputs of the commands to run, in order, or the parse error is raised |
| LegacyInterpreters.WorkflowInterpreter.CheckStatus | app/workflow/interpreter.py:87-91 | corrected: the check holds exactly when the status has the expected value |
| LegacyInterpreters.WorkflowInterpreter.CheckResult | app/workflow/interpreter.py:93-100 | check_result gives an answer exactly when a result was set, and raises otherwise |
| LegacyInterpreters.CheckStatusExactly | app/workflow/interpreter.py:87-91 | the corrected check holds for exactly the workflow's own status |
| LegacyInterpreters.CheckStatusAsWrittenMisses | app/workflow/interpreter.py:91 | for a workflow in status DOING checked against 0, the check as written says no and the corrected one says yes |
| LegacyInterpreters.CheckResultPadded | app/workflow/interpreter.py:99-100 | a result that is the expected text padded with whitespace passes the equality check |
| LegacyInterpreters.CheckEqualsThenContains | app/workflow/interpreter.py:97-100 | a stripped expected text that passes the equality check also passes the containment check |
| LegacyInterpreters.CheckContainsUntrimmed | app/workflow/interpreter.py:97-98 | containment works on the unstripped texts: a leading blank the equality check ignores makes it fail |
| LegacyInterpreters.WorkflowInterpreter.CheckStatusAsWritten | app/workflow/interpreter.py:87-91 | check_status as written: an Enum member compared with an int, which is never equal, so the check is always false |
| LegacyInterpreters.Outputs | app/workflow/interpreter.py:82-85 | the commands' outputs concatenated in order, with nothing between them |
| ShellExecutors.Marker | app/commands/shell_executor.py:91 | the end-of-command marker is a non-empty line ending with a newline, so it can only match a whole line read from stdout |
| ShellExecutors.Collect | app/commands/shell_executor.py:117-133 | a collection pass only consumes queued lines, and when it sees the marker it has consumed at least that stdout line |
| ShellExecutors.CollectFound | app/commands/shell_executor.py:117-126 | the read loop stops on the marker exactly when the marker line is among the queued stdout lines |
| ShellExecutors.CollectStdout | app/commands/shell_executor.py:117-126 | with stderr empty, the stdout lines before the marker are appended except those ending with the marker, and the lines after it stay queued |
| ShellExecutors.EchoCollected | app/commands/shell_executor.py:117-126 | an echoed line followed by the marker is collected as that line and the marker is consumed |
| ShellExecutors.TrimBlankEnds | app/commands/shell_executor.py:138-142 | the clean-up removes at most one leading newline and one trailing blank line (at most three characters) |
| ShellExecutors.TrimFramed | app/commands/shell_executor.py:138-142 | output framed by a leading newline and a trailing blank line comes back without the frame |
| ShellExecutors.TrimKeeps | app/commands/shell_executor.py:138-142 | output without a leading newline or trailing blank line is left unchanged |
| ShellExecutors.NoBlankEnd | app/commands/shell_executor.py:138-142 | a single line of text with its newline is not touched by the trailing-blank-line clean-up |
| ShellExecutors.Run | app/commands/shell_executor.py:86-110 | when every command's marker comes back, each command consumed at least its own marker line from stdout |
| ShellExecutors.RunAppend | app/commands/shell_executor.py:86-110 | running two lists of commands is running the first and, if it finished, the second from the queues and output it left: the output is reset only at the start |
| ShellExecutors.LineSplit | test/commands/test_shellexecutor.py:20-21 | a line of text and its newline split at newline into the text and an empty rest |
| ShellExecutors.SingleEcho | test/commands/test_shellexecutor.py:14-22 | one echoed line gives an output of that line and a newline, which splits into two parts, the first holding the echoed text |
| ShellExecutors.ShellCommandExecutor.constructor | app/commands/shell_executor.py:31-52 | a new executor has sent "cd ~" and collected its output from the given queues, as Run says |
| ShellExecutors.ShellCommandExecutor.ReadShellOutput | app/commands/shell_executor.py:113-142 | the polling loop consumes the queues and appends the lines exactly as Collect says, trims the output once the marker is seen, and writes nothing to stdin |
| ShellExecutors.ShellCommandExecutor.SendCommandToShell | app/commands/shell_executor.py:80-110 | the output is reset once, each command's payload is written to stdin and its output collected, and the new state is exactly what Run gives |
| ShellExecutors.ShellCommandExecutor.Execute | app/commands/shell_executor.py:55-72 | a run whose markers all come back gives the command the collected output and exit code 0 and returns 0; the output and stdin follow Run |
| ShellExecutors.Payload | app/commands/shell_executor.py:95-102 | what stdin receives for one command line: the line with CRLF turned into LF, then "\necho marker\n" |
| SshExecutors.PayloadFramed | app/commands/ssh_executor.py:117-131 | the payload is the echo of the begin marker, each command line with its newline, and the echo of the end marker, each on its own line |
| SshExecutors.JoinTerminated | app/commands/ssh_executor.py:131 | joining the script lines with newlines and adding a final newline terminates every line |
| SshExecutors.NewlineAt | app/commands/ssh_executor.py:92-93 | the split position is inside the buffer and, when it is before the end, it is a newline |
| SshExecutors.NewlineIn | app/commands/ssh_executor.py:92-93 | the buffer holds a newline exactly when the split position is inside it, and the text before it holds none |
| SshExecutors.SplitOffFirst | app/commands/ssh_executor.py:92-94 | one pass of the reader's inner loop queues the text before the first newline with a newline and keeps the text after it |
| SshExecutors.SplitFromLossless | app/commands/ssh_executor.py:87-94 | the queued lines and the kept tail give back exactly the received text, and the tail holds no newline |
| SshExecutors.SplitFromLines | app/commands/ssh_executor.py:92-94 | every line the reader queues ends with a newline and holds no other |
| SshExecutors.SplitFromPlain | app/commands/ssh_executor.py:91-92 | received text without a newline only extends the kept tail and queues nothing |
| SshExecutors.SplitFromAppend | app/commands/ssh_executor.py:88-94 | reading two texts in turn queues the lines of the first and then those the second completes from the first's tail |
| SshExecutors.ChunkStep | app/commands/ssh_executor.py:88-94 | one more received chunk queues exactly the lines it completes from the kept tail, after the ones already queued |
| SshExecutors.Capture | app/commands/ssh_executor.py:151-180 | the capture loop only consumes queued lines, and when it sees the end marker it has consumed that line |
| SshExecutors.CaptureSkips | app/commands/ssh_executor.py:165-171 | lines before the begin marker are skipped without changing the captured text |
| SshExecutors.CaptureKeeps | app/commands/ssh_executor.py:173-180 | inside the window the lines up to the end marker are kept as they came except the echo of the end command, and the lines after it stay queued |
| SshExecutors.CaptureWindow | app/commands/ssh_executor.py:141-180 | whatever precedes the begin marker and follows the end marker is left out, and exactly the lines between them are captured |
| SshExecutors.CaptureNeverEnds | app/commands/ssh_executor.py:151-177 | when no queued line is the end marker the capture never ends (the source then times out) |
| SshExecutors.Collected | app/commands/ssh_executor.py:152-182 | a successful collection has no trailing CR or LF characters |
| SshExecutors.SSHCommandExecutor.constructor | app/commands/ssh_executor.py:38-43 | a new executor has empty output, empty queues, an empty reader buffer and has sent nothing |
| SshExecutors.SSHCommandExecutor.EnqueueOutput | app/commands/ssh_executor.py:83-94 | a received chunk is added to the buffer, every complete line in it is queued with its newline as SplitOff says, and only the tail without a newline is kept |
| SshExecutors.SSHCommandExecutor.DrainQueues | app/commands/ssh_executor.py:185-196 | both queues end up empty and nothing else changes |
| SshExecutors.SSHCommandExecutor.CollectBetweenMarkers | app/commands/ssh_executor.py:141-182 | the loop consumes the queue as Capture says and returns the captured text as Collected says, or the timeout when the end marker never comes |
| SshExecutors.SSHCommandExecutor.RunAndCapture | app/commands/ssh_executor.py:112-138 | the payload is appended to what was sent, the queues are drained before the reply is read, and the result is the window of the reply's lines |
| SshExecutors.SSHCommandExecutor.Execute | app/commands/ssh_executor.py:98-109 | on success the command gets the captured text and exit code 0 and the text becomes the current output; on a timeout it gets the previous output and exit code 1 |
| SshExecutors.Payload | app/commands/ssh_executor.py:126-131 | the script lines (begin echo, commands, end echo) joined by "\n" with a final "\n"; PayloadFramed spells it out |
| SshExecutors.SplitFrom | app/commands/ssh_executor.py:87-94 | each newline in the received text completes the line read so far, which is queued with a newline; the text after the last newline stays buffered |
| SshExecutors.SplitOff | app/commands/ssh_executor.py:92-94 | the reader's inner loop over a buffer, starting with no partial line |
| SshExecutors.Bare | app/commands/ssh_executor.py:163 | a line without its trailing CR and LF characters |
| SshExecutors.Opens | app/commands/ssh_executor.py:165-171 | a bare line opens the capture when it is the begin marker or ends with CR and the begin marker |
| SshExecutors.Closes | app/commands/ssh_executor.py:174-177 | a bare line ends the capture when it is the end marker or ends with CR and the end marker |
| SshExecutors.EchoesEnd | app/commands/ssh_executor.py:179-180 | a bare line that ends with "echo " and the end marker is the shell's echo and is not captured |
| Agents.StoredCharsAppend | app/agents/agent.py:54-102 | appending a message adds its stored length to its own side of the conversation only |
| Agents.StoredCharsGrow | app/agents/agent.py:54-102 | appending a message made from a text keeps the stored characters of each side within the character counters once the text's length is added to its side |
| Agents.AIAgent.constructor | app/agents/agent.py:39-52 | a new agent has no messages, no result and every counter at zero |
| Agents.AIAgent.SystemPrompt | app/agents/agent.py:54-64 | one system message is appended, the result is cleared, the iteration count restarts, the prompt's length is counted as prompt text, and the prompt is returned |
| Agents.AIAgent.Ask | app/agents/agent.py:66-78 | one user message is appended, the iteration count becomes the number of messages, the prompt's length is counted as prompt text, and the result and token counters are left alone |
| Agents.AIAgent.Record | app/agents/agent.py:57-74 | one message is appended and its text's length is added to the prompt or completion counter by role, and to the total |
| Agents.AIAgent.Advice | app/agents/agent.py:80-92 | a user message for a given question and an assistant message for a given answer, in that order; the counters grow by their lengths, the answer becomes the result and the iteration count the number of messages |
| Agents.AIAgent.Answer | app/agents/agent.py:94-102 | an assistant message only when an answer is given; the completion counter grows by its length, the answer becomes the result and the iteration count the number of messages |
| PyStrings.StripUnicodeSpaces | app/workflow/operation.py:53 | str.strip() removes Unicode whitespace too: an ideographic space before and a no-break space after "SUCCESS" are both dropped |
| TextFiles.TextFile.Write | app/workflow/workflow_writer.py:97 | file.write appends its text to what was written |

## Left out

- Reader: load_from_mdfile reads a file and sets the directory; only load_from_string, over the file's text, is modelled.
- Reader: when parsing raises, the source leaves the partly filled workflow behind; the model returns only the error.
- Activities are identified by their key in the activity map, not by object identity, so two distinct activity objects under one name are not modelled.
- ActivityWriters: the `other` edge of an activity that is neither CHECK nor CALL is written without a label and so reads back as `next`; the round-trip lemmas are stated for the edges that survive.
- ActivityWriters: the expressions of the START, SUCCESS, FAILED and ON nodes are not written (their captions are fixed shapes), so they are lost on a round trip.
- ActivityWriters.NodeLineReadBack: stated for expressions without "-->" and without a line break; the writer writes such expressions as they are, so a node line holding "-->" is taken for an edge (ActivityWriters.ArrowExpressionReadAsEdge: "SET_A[Set: x-->y]" gives the right end "y]", whose empty prefix is refused with "Invalid Activity prefix!"), and a line break splits the node line in two.
- ActivityWriters.NodeReadBack: states what _parse_activity makes of the node line; that _parse_flowchart_line hands it the whole line is ActivityWriters.NodeLineReadBack, with the limits given there.
- Interpreter.Step: PROMPT and ASK are not interpreted (they call a language model or read the console); the step functions and ActivityInterpreter.Accept require an interpretable kind.
- Interpreter: history persistence in `_save_history` / `_update_history` (app/workflow/activity_interpreter.py:349-372) writes files and is not modelled.
- Interpreter.VisitCall: sub-workflow CALL is a stub in the source and stays one.
- Histories: timestamps are kept as text and the clock reading is a parameter.
- WorkflowWriters: the three flowchart head lines are written in one write; the file content is the same.
- WorkflowWriters: file opening (`_open_file`, FileExistsError) and directory creation in save_definition / save_history are file I/O and are not modelled; the file is a text buffer.
- WorkflowWriters.Basename: os.path.basename is modelled for "/" separators only.
- PromptFactories: the JSON loader's decoding is a parameter, and reading a file is given as its lines; write_textfile and delete_file are file I/O and are not modelled.
- Contexts: the constructor's agent creation (app/workflow/context.py:49-54) is not modelled; `file:` reads are a parameter, and `_value_to_file` (app/workflow/context.py:152-162) writes a file, so the model leaves the state unchanged there.
- Interpreter.WordEnd: `\w` in the placeholder pattern is taken as ASCII letters, digits and "_" (Interpreter.IsWordChar); Python's `\w` also matches every other Unicode letter and digit, so a name such as `größe` ends the scan early here and `{{größe}}` is not a placeholder.
- Interpreter.Placeholders: finds only placeholders whose names are ASCII word characters, for the reason given for WordEnd; Interpreter.Render therefore leaves a placeholder with a non-ASCII name unreplaced where Python replaces it.
- PyStrings.Upper: maps only the ASCII letters; Python's str.upper() also maps other letters, some of them to ASCII (`"ſet".upper()` is "SET") and some to two characters ("ß" to "SS"). Activities.ParseKind, Operations.ParseOperation and the reader's label sets use it, so such names are not recognised here.
- PyStrings.Lower: maps only the ASCII letters, where Python's str.lower() maps every cased letter. Its one use on source data, the shell-alias test of Commands.NormaliseType, is unaffected: no letter outside ASCII lowers to a letter of sh, shell, bash, powershell or cmd, and the type is otherwise stored verbatim.
- Commands.StrRepr: which characters above ASCII str.isprintable() accepts comes from the Unicode character database, which is not modelled; it is the parameter isPrintable, and the escape forms repr() uses for the rest are modelled.
- Workflows.NewWorkflow: app/workflow/workflow.py:24-36 does not set on_success, on_failed, params, filepath, directory or instance_nr, although the reader, the context and the writer use them; the model adds them with the defaults None, None, no params, "", "" and 0. As written, the reader raises AttributeError at app/workflow/workflow_reader.py:103 (reading on_failed) for every text that declares START, and at app/workflow/workflow_reader.py:305-307 (writing params) for every PARAMS entry; the model follows the behaviour the reader's tests expect instead.
- Reader.EntryPoints: assumes the on_failed and on_success attributes of Workflows.NewWorkflow; the AttributeError the source raises at app/workflow/workflow_reader.py:103 is not modelled.
- Reader.StringReadEntryPoints: proved about EntryPoints, so it does not model the AttributeError at app/workflow/workflow_reader.py:103 either.
- Reader.EntryPointsFresh: proved about EntryPoints, so it does not model the AttributeError at app/workflow/workflow_reader.py:103 either.
- Reader.WorkflowReader.SetEntryPoints: performs EntryPoints, so it does not model the AttributeError at app/workflow/workflow_reader.py:103 either.
- Reader.ParamPair: assumes the params attribute of Workflows.NewWorkflow; the AttributeError the source raises at app/workflow/workflow_reader.py:305-307 is not modelled.
- Reader.AddParam: stores into the params attribute Workflows.NewWorkflow adds, as AddParams and ParamsRead do; the AttributeError at app/workflow/workflow_reader.py:305-307 is not modelled.
- Reader.WorkflowReader.constructor: the source's reader holds None until a load; the model holds an empty workflow, which no member reads before a load replaces it.
- Commands.NewCommand: starts output and exit code at "" and 0, whereas command.py:13-18 sets neither, so reading one before an executor has run raises AttributeError in the source; that error is not modelled.
- CommandParser.CommandsFromLines: relates each command to the input as a whole (its lines occur in the input, its type comes from some fence line); the per-block promise (own opening fence, own lines, order) is stated by CommandParser.BlockRead, CommandParser.TextSkipped and CommandParser.BlockAmidText instead.
- Operations: MATCHES (re.search) and the float() conversion of the ordering comparisons are parameters; float() is given as a function to a Python float (a finite value, an infinity or NaN), and which texts it accepts is not modelled.
- Activities: an activity expression of None is modelled as the empty string; the reader always stores a string.
- LegacyInterpreters: prompt() (app/workflow/interpreter.py:49-70) calls a language model and is not modelled; start(), success() and failed() refer to Workflow.DOING, Workflow.SUCCESS and Workflow.FAILED, which the Workflow class does not define, and are not modelled.
- Agents: the model settings read from the configuration and the environment, and the duration counter, are not modelled.
- ShellExecutors: the shell process and its reader threads are not modelled; the lines it writes are given as two queues, and the stdout/stderr interleaving is fixed to one line of each per round.
- ShellExecutors: the marker's `hash()` text, randomised per process, is a function parameter.
- ShellExecutors.ShellCommandExecutor.Execute: when the queues run out before a marker, the source keeps polling for ever; the model stops and reports that it is still waiting (None).
- ShellExecutors.ShellCommandExecutor.Execute: the CalledProcessError branch (exit code 1) cannot be reached from the calls made, and is not modelled.
- SshExecutors: the SSH connection, the channel, the reader thread and UTF-8 decoding are not modelled; the received text is given as chunks, in order, before the window is collected.
- SshExecutors: the uuid4 token of a round trip is a parameter.
- SshExecutors.SSHCommandExecutor.CollectBetweenMarkers: the command and inactivity timeouts are not clocked; running out of queued lines before the end marker stands for the inactivity timeout.
- SshExecutors.SSHCommandExecutor.constructor: the initial "cd ~" round trip is not modelled.
- close() of both executors, and the `__main__` blocks, are not modelled.
- Logging calls are not modelled, except the eager trunc_right(self.context.result) of visit_execute (app/workflow/activity_interpreter.py:211), which raises on a None result and is part of ExecuteStepAsWritten; every other eagerly computed log argument is a string where it is computed.

## Findings

| source | as written | input that shows it | evidently intended | confidence | as-written member | corrected member |
|---|---|---|---|---|---|---|
| app/util/string_utils.py:15-19 | trunc_left keeps `content[length:]`, dropping the first `length` characters, so its result grows with the input | a 300-character text with length 100 gives 203 characters | keep the last `length` characters behind "...", at most length + 3 long, as "limit the string length" says | not executed | StringUtils.TruncLeftExceedsLimit | StringUtils.TruncLeftLimited |
| app/workflow/activity_interpreter.py:85-96 | an expression that does not resolve reaches `_render_content` as None, and re.findall raises TypeError before the `content is None` failure branch | ASSIGN with the empty expression, or any name that does not resolve | the activity fails with "ASSIGN Value is not set!" | not executed | Interpreter.AssignUnresolvedRaises | Interpreter.AssignStep |
| app/workflow/activity_interpreter.py:214-221 | without an executor, the status is set to FAILED and then `context.result(...)` calls the result as a function, which raises TypeError | EXECUTE on a context with no command executor | the result is set to "FAILED  \nCommandExecutor is not set!" and the activity fails | not executed | Interpreter.ExecuteWithoutExecutor | Interpreter.ExecuteStep |
| app/workflow/activity_interpreter.py:211 | the first log line evaluates `trunc_right(self.context.result)` eagerly, and `len(None)` raises TypeError when the result is None, as it is in a new context | EXECUTE as the first activity after START, with any expression | the log line does not decide the step: the expression command runs, or the executor check fails the activity | not executed | Interpreter.ExecuteWithoutResultRaises | Interpreter.ExecuteStep |
| app/workflow/interpreter.py:87-91 | check_status compares a Workflow.Status enum member with an int, which is never equal | a workflow in status DOING checked against 0 | the check holds when the status has the expected value | not executed | LegacyInterpreters.CheckStatusAsWrittenMisses | LegacyInterpreters.CheckStatusExactly |
