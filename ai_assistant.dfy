/**
 * The request shaping of modules/ai_assistant.py: the configuration gate in
 * front of every API call, the extraction of commands from a reply, the
 * truncation of long inspection output, and the conversation list that chat
 * appends to.  The HTTP exchange itself is an input: `reply` is None when the
 * request fails, raises or answers with a status other than 200, and
 * Some(content) otherwise.
 */
module AiAssistant {
  import opened Wrappers
  import opened Text

  /** _call_api: no request unless both the model and the API key are non-blank. */
  function CallApi(model: string, apiKey: string, reply: Option<string>): (r: Option<string>)
    ensures IsBlank(model) || IsBlank(apiKey) ==> r.None?
    ensures r.Some? ==> !IsBlank(model) && !IsBlank(apiKey) && r == reply
    ensures !IsBlank(model) && !IsBlank(apiKey) ==> r == reply
  {
    if Strip(model) == "" then None
    else if Strip(apiKey) == "" then None
    else reply
  }

  /** A reply line that becomes a command: non-blank and not a `#` comment once stripped. */
  predicate IsCommandLine(line: string) {
    Strip(line) != "" && !StartsWith(Strip(line), "#")
  }

  /** [line.strip() for line in lines if line.strip() and not line.strip().startswith('#')] */
  function Commands(lines: seq<string>): (cmds: seq<string>)
    ensures |cmds| <= |lines|
    ensures forall k :: 0 <= k < |cmds| ==> IsCommand(cmds[k])
  {
    if lines == [] then [] else CommandOf(lines[0]) + Commands(lines[1..])
  }

  /** What one reply line contributes: its stripped text if it is a command line, nothing otherwise. */
  function CommandOf(line: string): (r: seq<string>)
    ensures |r| <= 1
    ensures r != [] <==> IsCommandLine(line)
    ensures forall k :: 0 <= k < |r| ==> IsCommand(r[k]) && r[k] == Strip(line)
  {
    if IsCommandLine(line) then
      StrippedIsCommand(line);
      [Strip(line)]
    else []
  }

  /** A command as extracted: non-empty, unpadded, not a comment. */
  predicate IsCommand(c: string) {
    && c != ""
    && !IsSpace(c[0]) && !IsSpace(c[|c| - 1])
    && !StartsWith(c, "#")
  }

  lemma StrippedIsCommand(line: string)
    requires IsCommandLine(line)
    ensures IsCommand(Strip(line))
  {
  }

  /** The comprehension keeps the lines' order: it distributes over concatenation. */
  lemma {:induction false} CommandsAppend(a: seq<string>, b: seq<string>)
    ensures Commands(a + b) == Commands(a) + Commands(b)
  {
    if a != [] {
      var ab := a + b;
      assert ab[0] == a[0] && ab[1..] == a[1..] + b;
      CommandsAppend(a[1..], b);
    } else {
      assert a + b == b;
    }
  }

  /** One line contributes its stripped text exactly when it is a command line. */
  lemma CommandsOfLine(line: string)
    ensures IsCommandLine(line) ==> Commands([line]) == [Strip(line)]
    ensures !IsCommandLine(line) ==> Commands([line]) == []
  {
    assert [line][1..] == [];
    assert Commands([line]) == CommandOf(line);
  }

  /** The command list of generate_commands and generate_inspection_commands; a falsy reply gives []. */
  function ParseCommands(response: Option<string>): (cmds: seq<string>)
    ensures response.None? || response.value == "" ==> cmds == []
    ensures response.Some? && response.value != "" ==> cmds == Commands(Lines(response.value))
  {
    match response
    case None => []
    case Some(text) => if text == "" then [] else Commands(Lines(text))
  }

  /** A command as the model replies it: non-empty, one line, unpadded, not a comment. */
  predicate IsCleanCommand(c: string) {
    IsCommand(c) && '\n' !in c
  }

  /** A reply that lists clean commands one per line parses back to exactly those commands. */
  lemma {:induction false} ParseJoinedCommands(cmds: seq<string>)
    requires |cmds| >= 1
    requires forall k :: 0 <= k < |cmds| ==> IsCleanCommand(cmds[k])
    ensures ParseCommands(Some(Join(cmds, "\n"))) == cmds
  {
    assert Join(cmds, "\n") != "" by { JoinNonEmpty(cmds); }
    SplitJoin(cmds);
    CommandsOfClean(cmds);
  }

  lemma {:induction false} JoinNonEmpty(cmds: seq<string>)
    requires |cmds| >= 1 && cmds[0] != ""
    ensures Join(cmds, "\n") != ""
  {
    if |cmds| > 1 {
      assert Join(cmds, "\n") == cmds[0] + "\n" + Join(cmds[1..], "\n");
    }
  }

  lemma {:induction false} CommandsOfClean(cmds: seq<string>)
    requires forall k :: 0 <= k < |cmds| ==> IsCleanCommand(cmds[k])
    ensures Commands(cmds) == cmds
  {
    if cmds != [] {
      StripTrimmed(cmds[0]);
      assert IsCommandLine(cmds[0]);
      CommandsOfClean(cmds[1..]);
      assert cmds == [cmds[0]] + cmds[1..];
    }
  }

  /** Requests are refused outright on a blank model or key, and the command list is then empty. */
  function GenerateCommands(model: string, apiKey: string, reply: Option<string>): (cmds: seq<string>)
    ensures IsBlank(model) || IsBlank(apiKey) ==> cmds == []
    ensures !IsBlank(model) && !IsBlank(apiKey) ==> cmds == ParseCommands(reply)
  {
    ParseCommands(CallApi(model, apiKey, reply))
  }

  const MAX_CHARS: nat := 20000
  /** int(max_chars * 0.4) and int(max_chars * 0.2) */
  const HEAD_CHARS: nat := 8000
  const TAIL_CHARS: nat := 4000
  const SAMPLE_MARKER: string := "\n\n[... 中间部分已省略，以下是采样内容 ...]\n\n"
  const TAIL_MARKER: string := "\n\n[... 中间部分已省略，以下是尾部内容 ...]\n\n"

  /**
   * analyze_inspection_result's truncation: text of at most 20000 characters
   * passes unchanged; longer text keeps its head, a sample around its middle
   * and its tail.
   */
  function TruncateInspection(text: string): (r: string)
    ensures |text| <= MAX_CHARS ==> r == text
    ensures |text| > MAX_CHARS ==>
      var start := |text| / 2 - TAIL_CHARS;
      && 0 <= start && start + HEAD_CHARS <= |text|
      && r == text[..HEAD_CHARS] + SAMPLE_MARKER + text[start..start + HEAD_CHARS] + TAIL_MARKER + text[|text| - TAIL_CHARS..]
  {
    if |text| <= MAX_CHARS then text
    else
      var middleStart := |text| / 2 - TAIL_CHARS;
      var middleEnd := middleStart + HEAD_CHARS;
      text[..HEAD_CHARS] + SAMPLE_MARKER + text[middleStart..middleEnd] + TAIL_MARKER + text[|text| - TAIL_CHARS..]
  }

  /** A truncated text has a fixed size, begins with the original's head and ends with its tail. */
  lemma TruncatedShape(text: string)
    requires |text| > MAX_CHARS
    ensures |TruncateInspection(text)| == MAX_CHARS + |SAMPLE_MARKER| + |TAIL_MARKER|
    ensures TruncateInspection(text)[..HEAD_CHARS] == text[..HEAD_CHARS]
    ensures EndsWith(TruncateInspection(text), text[|text| - TAIL_CHARS..])
    ensures |TruncateInspection(text)| < |text| + |SAMPLE_MARKER| + |TAIL_MARKER|
  {
    var r := TruncateInspection(text);
    var tail := text[|text| - TAIL_CHARS..];
    assert r[|r| - TAIL_CHARS..] == tail;
  }

  /** analyze_inspection_detailed sends at most the first 5000 characters. */
  function DetailedExcerpt(text: string): (r: string)
    ensures |r| <= 5000 && StartsWith(text, r)
    ensures r == text <==> |text| <= 5000
  {
    if |text| > 5000 then text[..5000] else text
  }

  /** The analysis routes answer the reply, or a fixed failure text when the reply is None or empty. */
  function AnalysisReply(response: Option<string>): (r: string)
    ensures r != ""
    ensures response.Some? && response.value != "" ==> r == response.value
  {
    if response.Some? && response.value != "" then response.value else "分析失败，请检查AI配置"
  }

  datatype Message = Message(role: string, content: string)

  /** A conversation list that the caller owns and chat may append to. */
  class Conversation {
    var messages: seq<Message>

    constructor (messages: seq<Message>)
      ensures this.messages == messages
    {
      this.messages := messages;
    }
  }

  /**
   * chat: a missing or empty history is replaced by a new list, so the
   * caller's empty list stays empty; a non-empty history is the list that
   * receives the user message.  `sent` is what goes to the API.
   */
  method Chat(history: Conversation?, userMessage: string, model: string, apiKey: string, reply: Option<string>)
    returns (sent: seq<Message>, answer: string)
    modifies history
    ensures |sent| >= 1 && sent[|sent| - 1] == Message("user", userMessage)
    ensures history != null && old(history.messages) != [] ==>
      history.messages == old(history.messages) + [Message("user", userMessage)] && sent == history.messages
    ensures history == null || old(history.messages) == [] ==>
      sent == [Message("user", userMessage)]
    ensures history != null && old(history.messages) == [] ==> history.messages == []
    ensures answer != ""
    ensures var response := CallApi(model, apiKey, reply);
      response.Some? && response.value != "" ==> answer == response.value
    ensures var response := CallApi(model, apiKey, reply);
      !(response.Some? && response.value != "") ==> answer == "回复失败，请检查AI配置"
  {
    var user := Message("user", userMessage);
    if history != null && history.messages != [] {
      history.messages := history.messages + [user];
      sent := history.messages;
    } else {
      sent := [user];
    }
    var response := CallApi(model, apiKey, reply);
    if response.Some? && response.value != "" {
      answer := response.value;
    } else {
      answer := "回复失败，请检查AI配置";
    }
  }
}
