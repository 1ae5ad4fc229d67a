/** The multi-role chatbot's core (`week2_project/multirole_chatbot/chat_core.py`):
    loading a persona prompt and turning a chat history plus a new query
    into one model call. The file read and the model are parameters. */
module ChatCore {
  import opened Wrappers
  import opened Text

  /** A history entry; only its content reaches the model. */
  datatype Turn = Human(content: string) | Assistant(content: string) | SystemTurn(content: string)

  const DefaultPrompt: string := "You are a helpful assistant."

  /** `load_system_prompt_content`: the stripped file contents, or the
      default persona when the read fails. */
  function LoadSystemPrompt(read: Result<string, string>): (r: string)
    ensures read.Ok? ==> r == Strip(read.value)
    ensures read.Err? ==> r == DefaultPrompt
    ensures r != [] ==> !IsSpace(r[0]) && !IsSpace(r[|r| - 1])
  {
    if read.Ok? then Strip(read.value)
    else assert DefaultPrompt[0] == 'Y' && DefaultPrompt[|DefaultPrompt| - 1] == '.'; DefaultPrompt
  }

  /** The working copy: the caller's history with the query appended. */
  function WorkingHistory(history: seq<Turn>, query: string): (r: seq<Turn>)
    ensures |r| == |history| + 1
    ensures r[..|history|] == history && r[|history|] == Human(query)
  {
    history + [Human(query)]
  }

  function Contents(turns: seq<Turn>): (r: seq<string>)
    ensures |r| == |turns|
    ensures forall i :: 0 <= i < |turns| ==> r[i] == turns[i].content
  {
    seq(|turns|, i requires 0 <= i < |turns| => turns[i].content)
  }

  function FormattedPrompt(history: seq<Turn>, query: string): string {
    Join(Contents(WorkingHistory(history, query)), " ")
  }

  /** The prompt is the history's contents joined by single spaces, followed
      by the query after one more space (or the query alone for an empty
      history). */
  lemma {:induction false} PromptEndsWithQuery(history: seq<Turn>, query: string)
    ensures FormattedPrompt(history, query)
         == if history == [] then query else Join(Contents(history), " ") + " " + query
  {
    assert Contents(WorkingHistory(history, query)) == Contents(history) + [query];
    JoinSnoc(Contents(history), query, " ");
  }

  /** The model's answer to one prompt: a reply, or an exception text. */
  type ChatModel = string -> Result<string, string>

  const ErrorPrefix: string := "An error occurred during AI generation: "

  /** `get_ai_response_for_chat`: the reply verbatim, or the exception
      behind a fixed prefix. */
  function GetAiResponse(history: seq<Turn>, model: ChatModel, query: string): (r: string)
    ensures var reply := model(Join(Contents(history + [Human(query)]), " "));
            && (reply.Ok? ==> r == reply.value)
            && (reply.Err? ==> r == ErrorPrefix + reply.error && StartsWith(r, ErrorPrefix))
  {
    match model(FormattedPrompt(history, query))
    case Ok(reply) => reply
    case Err(e) => assert (ErrorPrefix + e)[..|ErrorPrefix|] == ErrorPrefix; ErrorPrefix + e
  }

  /** The model sees the earlier turns as well: after one turn the prompt is
      that turn's content, a space and the query. */
  lemma ResponseSeesHistory(previous: Turn, query: string, model: ChatModel)
    ensures GetAiResponse([previous], model, query)
         == match model(previous.content + " " + query)
            case Ok(reply) => reply
            case Err(e) => ErrorPrefix + e
  {
    PromptEndsWithQuery([previous], query);
    assert Contents([previous]) == [previous.content];
  }
}
