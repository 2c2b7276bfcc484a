/// The chat agent's HTTP side (src/server.js): the `/api/chat` conversation
/// with its in-memory sessions and its tool-use loop, the sweep of expired
/// sessions (defined in the server but never called), and the signature gate
/// of the Stripe webhook.
module Server {
  import opened Values
  import Tools
  import Stripe

  // ---------------------------------------------------------------------------
  // Messages exchanged with the language model
  // ---------------------------------------------------------------------------

  datatype Role = User | Assistant

  /** A content block of a model response, by its `type`. */
  datatype Block =
    | TextBlock(text: string)
    | ToolUse(id: string, name: string, input: map<string, Value>)
    | OtherBlock(kind: string)

  /** `{type: 'tool_result', tool_use_id, content: JSON.stringify(result)}`;
      the content is kept as the tool's output rather than its JSON text. */
  datatype ToolResult = ToolResult(toolUseId: string, content: Tools.ToolOutput)

  /** A message's content: the visitor's message or the final reply, the
      blocks of a response that asked for tools, or the tools' results. */
  datatype Content = Plain(value: Value) | Blocks(blocks: seq<Block>) | Results(results: seq<ToolResult>)

  datatype Message = Message(role: Role, content: Content)

  datatype ModelResponse = ModelResponse(stopReason: string, content: seq<Block>)

  /** What one `anthropic.messages.create` call gives: a response, or a
      rejection. The model is a script of such answers, one per call. */
  datatype ModelCall = Answered(response: ModelResponse) | Failed(error: string)

  /** A session: its whole history and `created_at` in milliseconds. */
  datatype Session = Session(messages: seq<Message>, createdAt: int)

  /** The HTTP answer of `/api/chat`. `Unfinished` is a call the script has no
      answer for: the source would still be waiting on the model. */
  datatype ChatReply =
    | Replied(response: string, sessionId: Value)
    | BadRequest(error: string)
    | ServerError(error: string)
    | Unfinished

  const ContextSize := 20
  const MaxAge := 2 * 60 * 60 * 1000
  const Apology := "Désolé, je n'ai pas pu traiter votre demande."
  const ServerErrorMessage := "Désolé, une erreur s'est produite. Veuillez réessayer."
  const MessageRequired := "Message requis"

  /** `messages.slice(-20)`: the last twenty messages, or all of them. */
  function Window(h: seq<Message>): seq<Message> {
    if |h| <= ContextSize then h else h[|h| - ContextSize..]
  }

  /** The window is a suffix of the history: all of it up to twenty
      messages, and otherwise its last twenty. */
  lemma WindowSuffix(h: seq<Message>)
    ensures var w := Window(h);
      && |w| == (if |h| < ContextSize then |h| else ContextSize)
      && w == h[|h| - |w|..]
      && forall i :: 0 <= i < |w| ==> w[i] == h[|h| - |w| + i]
  {
  }

  /** `content.filter(block => block.type === 'tool_use')`: the tool-use
      blocks of a response, in order. */
  function ToolUses(content: seq<Block>): (uses: seq<Block>)
    ensures |uses| <= |content|
    ensures forall i :: 0 <= i < |uses| ==> uses[i].ToolUse?
  {
    if content == [] then []
    else (if content[0].ToolUse? then [content[0]] else []) + ToolUses(content[1..])
  }

  /** `content.filter(block => block.type === 'text').map(block => block.text)`. */
  function Texts(content: seq<Block>): seq<string> {
    if content == [] then []
    else (if content[0].TextBlock? then [content[0].text] else []) + Texts(content[1..])
  }

  /** A block is among the tool uses exactly when it is a tool use of the
      response. */
  lemma {:induction false} ToolUsesMembers(content: seq<Block>)
    ensures forall b :: b in ToolUses(content) <==> b in content && b.ToolUse?
  {
    if content != [] {
      ToolUsesMembers(content[1..]);
      assert content == [content[0]] + content[1..];
    }
  }

  /** Tool uses are kept in block order: those of a concatenation are those
      of the first part followed by those of the second. */
  lemma {:induction false} ToolUsesAppend(a: seq<Block>, b: seq<Block>)
    ensures ToolUses(a + b) == ToolUses(a) + ToolUses(b)
    decreases |a|
  {
    if a != [] {
      assert (a + b)[1..] == a[1..] + b;
      ToolUsesAppend(a[1..], b);
    } else {
      assert a + b == b;
    }
  }

  /** A response without text blocks has no texts, and one with a text block
      has at least one. */
  lemma {:induction false} TextsEmpty(content: seq<Block>)
    ensures Texts(content) == [] <==> forall i :: 0 <= i < |content| ==> !content[i].TextBlock?
  {
    if content != [] {
      TextsEmpty(content[1..]);
      if !content[0].TextBlock? {
        forall i | 1 <= i < |content| ensures content[i] == content[1..][i - 1] {}
      }
    }
  }

  /** How the server runs a tool: `executeTool(name, input)`. */
  type ToolRunner = (string, map<string, Value>) -> Tools.ToolOutput

  /** The server's `executeTool`, over the shop and payment services `b`. */
  function Executor(b: Tools.Backend): ToolRunner {
    (name, input) => Tools.ExecuteTool(b, name, input)
  }

  /** One result per tool use, in the same order, answering its id. */
  function ResultsFor(uses: seq<Block>, run: ToolRunner): (rs: seq<ToolResult>)
    requires forall i :: 0 <= i < |uses| ==> uses[i].ToolUse?
    ensures |rs| == |uses|
  {
    if uses == [] then []
    else [ToolResult(uses[0].id, run(uses[0].name, uses[0].input))] + ResultsFor(uses[1..], run)
  }

  /** Result `i` answers tool use `i`: its id, and what running it gives. */
  lemma {:induction false} ResultsForAt(uses: seq<Block>, run: ToolRunner, i: nat)
    requires forall j :: 0 <= j < |uses| ==> uses[j].ToolUse?
    requires i < |uses|
    ensures ResultsFor(uses, run)[i] == ToolResult(uses[i].id, run(uses[i].name, uses[i].input))
    decreases i
  {
    if i > 0 {
      ResultsForAt(uses[1..], run, i - 1);
    }
  }

  /** Running one more tool use appends its result. */
  lemma {:induction false} ResultsForSnoc(uses: seq<Block>, run: ToolRunner, i: nat)
    requires forall j :: 0 <= j < |uses| ==> uses[j].ToolUse?
    requires i < |uses|
    ensures ResultsFor(uses[..i + 1], run) ==
      ResultsFor(uses[..i], run) + [ToolResult(uses[i].id, run(uses[i].name, uses[i].input))]
    decreases i
  {
    if i > 0 {
      assert uses[..i + 1][1..] == uses[1..][..i];
      assert uses[..i][1..] == uses[1..][..i - 1];
      ResultsForSnoc(uses[1..], run, i - 1);
    }
  }

  /** The two messages one tool round appends: the response, then the results. */
  function Round(h: seq<Message>, response: ModelResponse, run: ToolRunner): seq<Message> {
    h + [Message(Assistant, Blocks(response.content)),
         Message(User, Results(ResultsFor(ToolUses(response.content), run)))]
  }

  /** The text blocks of the final response, joined by newlines, or the
      apology when that is empty. */
  function ReplyText(content: seq<Block>): string {
    var joined := Join(Texts(content), "\n");
    if joined == "" then Apology else joined
  }

  /** The reply is never empty: it joins the response's texts when any is
      non-empty and is the apology when there are none. */
  lemma ReplyTextCases(content: seq<Block>)
    ensures ReplyText(content) != ""
    ensures (forall i :: 0 <= i < |content| ==> !content[i].TextBlock?) ==> ReplyText(content) == Apology
    ensures var texts := Texts(content);
      |texts| >= 2 || (|texts| == 1 && texts[0] != "") ==> ReplyText(content) == Join(texts, "\n")
  {
    TextsEmpty(content);
    JoinEmpty(Texts(content), "\n");
  }

  // ---------------------------------------------------------------------------
  // The tool-use loop
  // ---------------------------------------------------------------------------

  datatype LoopEnd = Answer(response: ModelResponse) | CallFailed(error: string) | OutOfScript

  /** The history after the loop, the context of each model call it made, and
      how it ended. */
  datatype Conversation = Conversation(history: seq<Message>, contexts: seq<seq<Message>>, end: LoopEnd)

  /** The `while (response.stop_reason === 'tool_use')` loop, from the
      history `h` and the latest response, with `script` answering the calls
      still to come. */
  function Converse(h: seq<Message>, response: ModelResponse, script: seq<ModelCall>,
                    run: ToolRunner): Conversation
    decreases |script|
  {
    if response.stopReason != "tool_use" then Conversation(h, [], Answer(response))
    else
      var next := Round(h, response, run);
      if script == [] then Conversation(next, [Window(next)], OutOfScript)
      else match script[0]
        case Failed(e) => Conversation(next, [Window(next)], CallFailed(e))
        case Answered(r) =>
          var rest := Converse(next, r, script[1..], run);
          Conversation(rest.history, [Window(next)] + rest.contexts, rest.end)
  }

  /** One step of the loop: a tool round, a call, and the rest of the loop. */
  lemma ConverseStep(h: seq<Message>, response: ModelResponse, script: seq<ModelCall>, run: ToolRunner)
    requires response.stopReason == "tool_use" && script != [] && script[0].Answered?
    ensures var next := Round(h, response, run);
      var rest := Converse(next, script[0].response, script[1..], run);
      var c := Converse(h, response, script, run);
      c.history == rest.history && c.contexts == [Window(next)] + rest.contexts && c.end == rest.end
  {
  }

  /** A tool round appends one well-formed pair of messages. */
  lemma RoundAppends(h: seq<Message>, response: ModelResponse, run: ToolRunner)
    ensures var next := Round(h, response, run);
      |next| == |h| + 2 && next[..|h|] == h && ToolRounds(next[|h|..], run)
  {
    var next := Round(h, response, run);
    assert next[|h|..][2..] == [];
  }

  /** The loop only appends, two messages per model call. */
  lemma {:induction false} ConverseGrows(h: seq<Message>, response: ModelResponse,
                                         script: seq<ModelCall>, run: ToolRunner)
    ensures var c := Converse(h, response, script, run);
      |c.history| == |h| + 2 * |c.contexts| && c.history[..|h|] == h
    decreases |script|
  {
    if response.stopReason == "tool_use" {
      var next := Round(h, response, run);
      RoundAppends(h, response, run);
      if script != [] && script[0].Answered? {
        ConverseStep(h, response, script, run);
        ConverseGrows(next, script[0].response, script[1..], run);
        var rest := Converse(next, script[0].response, script[1..], run);
        assert rest.history[..|h|] == rest.history[..|next|][..|h|];
      }
    }
  }

  /** The first call of `contexts` saw the last twenty of the first `n`
      messages of `hist`, and each later call the history two messages (one
      tool round) further on than the call before. */
  predicate SawWindows(contexts: seq<seq<Message>>, hist: seq<Message>, n: nat)
    decreases |contexts|
  {
    contexts == [] ||
      (n <= |hist| && contexts[0] == Window(hist[..n]) && SawWindows(contexts[1..], hist, n + 2))
  }

  /** Call `j` of `contexts` saw the last twenty of the first `n + 2 * j`
      messages of `hist`. */
  lemma {:induction false} SawWindowsAt(contexts: seq<seq<Message>>, hist: seq<Message>, n: nat, j: nat)
    requires SawWindows(contexts, hist, n)
    requires j < |contexts|
    ensures n + 2 * j <= |hist| && contexts[j] == Window(hist[..n + 2 * j])
    decreases j
  {
    if j > 0 {
      SawWindowsAt(contexts[1..], hist, n + 2, j - 1);
    }
  }

  lemma SawWindowsCons(first: seq<Message>, hist: seq<Message>, later: seq<seq<Message>>)
    requires |first| <= |hist| && hist[..|first|] == first
    requires SawWindows(later, hist, |first| + 2)
    ensures SawWindows([Window(first)] + later, hist, |first|)
  {
    assert ([Window(first)] + later)[1..] == later;
  }

  /** Extending the history keeps what earlier calls saw. */
  lemma {:induction false} SawWindowsExtend(contexts: seq<seq<Message>>, hist: seq<Message>,
                                            ext: seq<Message>, n: nat)
    requires |hist| <= |ext| && ext[..|hist|] == hist
    requires SawWindows(contexts, hist, n)
    ensures SawWindows(contexts, ext, n)
    decreases |contexts|
  {
    if contexts != [] {
      assert ext[..n] == hist[..n];
      SawWindowsExtend(contexts[1..], hist, ext, n + 2);
    }
  }

  /** Each call of the loop sees the last twenty messages of the history as
      it stood after that call's tool round. */
  lemma {:induction false} ConverseContexts(h: seq<Message>, response: ModelResponse,
                                            script: seq<ModelCall>, run: ToolRunner)
    ensures var c := Converse(h, response, script, run);
      SawWindows(c.contexts, c.history, |h| + 2)
    decreases |script|
  {
    ConverseGrows(h, response, script, run);
    if response.stopReason == "tool_use" {
      var next := Round(h, response, run);
      RoundAppends(h, response, run);
      if script != [] && script[0].Answered? {
        var rest := Converse(next, script[0].response, script[1..], run);
        ConverseStep(h, response, script, run);
        ConverseGrows(next, script[0].response, script[1..], run);
        ConverseContexts(next, script[0].response, script[1..], run);
        assert rest.history[..|next|] == next;
        SawWindowsCons(next, rest.history, rest.contexts);
      } else {
        SawWindowsCons(next, next, []);
      }
    }
  }

  /** `msgs` is a run of tool rounds: pairs of a response that asked for
      tools and the results of exactly that response's tool uses, in order. */
  predicate ToolRounds(msgs: seq<Message>, run: ToolRunner)
    decreases |msgs|
  {
    if |msgs| < 2 then msgs == []
    else
      && msgs[0].role == Assistant
      && msgs[0].content.Blocks?
      && msgs[1] == Message(User, Results(ResultsFor(ToolUses(msgs[0].content.blocks), run)))
      && ToolRounds(msgs[2..], run)
  }

  lemma {:induction false} ToolRoundsConcat(x: seq<Message>, y: seq<Message>, run: ToolRunner)
    requires ToolRounds(x, run) && ToolRounds(y, run)
    ensures ToolRounds(x + y, run)
    decreases |x|
  {
    if |x| >= 2 {
      ToolRoundsConcat(x[2..], y, run);
      assert (x + y)[2..] == x[2..] + y;
    } else {
      assert x + y == y;
    }
  }

  /** Everything the loop appends is tool rounds. */
  lemma {:induction false} ConverseRoundShape(h: seq<Message>, response: ModelResponse,
                                              script: seq<ModelCall>, run: ToolRunner)
    ensures var c := Converse(h, response, script, run);
      |h| <= |c.history| && ToolRounds(c.history[|h|..], run)
    decreases |script|
  {
    ConverseGrows(h, response, script, run);
    var c := Converse(h, response, script, run);
    if response.stopReason != "tool_use" {
      assert c.history[|h|..] == [];
    } else {
      var next := Round(h, response, run);
      RoundAppends(h, response, run);
      if script != [] && script[0].Answered? {
        var rest := Converse(next, script[0].response, script[1..], run);
        ConverseStep(h, response, script, run);
        ConverseGrows(next, script[0].response, script[1..], run);
        ConverseRoundShape(next, script[0].response, script[1..], run);
        ToolRoundsConcat(next[|h|..], rest.history[|next|..], run);
        assert rest.history == next + rest.history[|next|..];
        assert rest.history[|h|..] == next[|h|..] + rest.history[|next|..];
      }
    }
  }

  /** A response that asks for no tool ends the loop with no further call. */
  lemma ConverseAnswered(h: seq<Message>, response: ModelResponse, script: seq<ModelCall>,
                         run: ToolRunner)
    requires response.stopReason != "tool_use"
    ensures Converse(h, response, script, run) == Conversation(h, [], Answer(response))
  {
  }

  /** The loop ends on a response that asks for no tool, on a failed call, or
      when the script runs out, and a script of `n` answers allows at most
      `n + 1` further calls. */
  lemma {:induction false} ConverseEnds(h: seq<Message>, response: ModelResponse,
                                        script: seq<ModelCall>, run: ToolRunner)
    ensures var c := Converse(h, response, script, run);
      && |c.contexts| <= |script| + 1
      && (c.end.Answer? ==> c.end.response.stopReason != "tool_use")
      && (c.end.OutOfScript? ==> |c.contexts| == |script| + 1)
    decreases |script|
  {
    if response.stopReason == "tool_use" && script != [] && script[0].Answered? {
      ConverseEnds(Round(h, response, run), script[0].response, script[1..], run);
    }
  }

  // ---------------------------------------------------------------------------
  // POST /api/chat
  // ---------------------------------------------------------------------------

  /** `session_id || \`session_${Date.now()}\``. */
  function SessionIdFor(requested: Value, now: int): (id: Value)
    ensures Truthy(requested) ==> id == requested
    ensures !Truthy(requested) ==> id.Str? && |id.s| > 8 && id.s[..8] == "session_"
  {
    if Truthy(requested) then requested else Str("session_" + Decimal(now))
  }

  /** A generated session id carries the clock reading it was made at. */
  lemma SessionIdReadsClock(requested: Value, now: int)
    requires !Truthy(requested)
    ensures ParseInt(SessionIdFor(requested, now).s[8..]) == Some(now)
  {
    ParseIntDecimal(now);
    assert SessionIdFor(requested, now).s[8..] == Decimal(now);
  }

  /** How the exchange with the model ended, either with the reply text, on a
      failed call, or on a call the script has no answer for. */
  datatype ExchangeEnd = Reply(text: string) | ModelFailed | NoAnswer

  /** The history after the request, the context of every model call, and
      how the exchange ended. */
  datatype Exchange = Exchange(history: seq<Message>, contexts: seq<seq<Message>>, end: ExchangeEnd)

  /** Everything after the visitor's message is appended to the history `h`:
      the first model call, the tool-use loop and the reply. */
  function Exchanged(h: seq<Message>, script: seq<ModelCall>, run: ToolRunner): Exchange {
    if script == [] then Exchange(h, [Window(h)], NoAnswer)
    else match script[0]
      case Failed(_) => Exchange(h, [Window(h)], ModelFailed)
      case Answered(r) => AfterLoop(Window(h), Converse(h, r, script[1..], run))
  }

  /** What follows the loop, whose first call saw `first`: the reply is
      extracted and stored, or the failure is reported. */
  function AfterLoop(first: seq<Message>, c: Conversation): Exchange {
    var contexts := [first] + c.contexts;
    match c.end
    case Answer(final) =>
      var text := ReplyText(final.content);
      Exchange(c.history + [Message(Assistant, Plain(Str(text)))], contexts, Reply(text))
    case CallFailed(_) => Exchange(c.history, contexts, ModelFailed)
    case OutOfScript => Exchange(c.history, contexts, NoAnswer)
  }

  /** After the loop the history is the loop's, or the loop's and the reply. */
  lemma AfterLoopExtends(first: seq<Message>, c: Conversation)
    ensures var x := AfterLoop(first, c);
      |c.history| <= |x.history| && x.history[..|c.history|] == c.history && x.contexts == [first] + c.contexts
  {
  }

  /** The history only grows, and every model call, the first included, sees
      the last twenty messages of the history as it stood at that call. */
  lemma ExchangeHistory(h: seq<Message>, script: seq<ModelCall>, run: ToolRunner)
    ensures var x := Exchanged(h, script, run);
      && |x.contexts| >= 1
      && |h| <= |x.history|
      && x.history[..|h|] == h
      && SawWindows(x.contexts, x.history, |h|)
  {
    var x := Exchanged(h, script, run);
    if script != [] && script[0].Answered? {
      var c := Converse(h, script[0].response, script[1..], run);
      ConverseGrows(h, script[0].response, script[1..], run);
      ConverseContexts(h, script[0].response, script[1..], run);
      assert x == AfterLoop(Window(h), c);
      AfterLoopExtends(Window(h), c);
      SawWindowsExtend(c.contexts, c.history, x.history, |h| + 2);
      assert x.history[..|h|] == c.history[..|h|];
      SawWindowsCons(h, x.history, c.contexts);
    } else {
      SawWindowsCons(h, h, []);
    }
  }

  /** The reply is the final response's text, and a reply comes only once
      the model stopped asking for tools. */
  lemma ExchangeReply(h: seq<Message>, script: seq<ModelCall>, run: ToolRunner)
    ensures var x := Exchanged(h, script, run);
      && (x.end.Reply? ==> x.end.text != "" && x.history[|x.history| - 1] == Message(Assistant, Plain(Str(x.end.text))))
      && (x.end.NoAnswer? ==> |x.contexts| == |script| + 1)
      && |x.contexts| <= |script| + 1
  {
    if script != [] && script[0].Answered? {
      ConverseEnds(h, script[0].response, script[1..], run);
      var c := Converse(h, script[0].response, script[1..], run);
      if c.end.Answer? {
        ReplyTextCases(c.end.response.content);
      }
    }
  }

  /** The reply, the sessions afterwards, and the context of every model call. */
  datatype ChatOutcome = ChatOutcome(reply: ChatReply, sessions: map<Value, Session>,
                                     contexts: seq<seq<Message>>)

  /** The session a request resolves to, before its message is appended. */
  function Resolve(sessions: map<Value, Session>, id: Value, now: int): Session {
    if id in sessions then sessions[id] else Session([], now)
  }

  /** What `/api/chat` does with `body`, the sessions, the clock reading `now`
      and the model's answers. */
  function HandleChat(sessions: map<Value, Session>, body: map<string, Value>, now: int,
                      script: seq<ModelCall>, run: ToolRunner): ChatOutcome
  {
    var message := Get(body, "message");
    if !Truthy(message) then ChatOutcome(BadRequest(MessageRequired), sessions, [])
    else
      var id := SessionIdFor(Get(body, "session_id"), now);
      var session := Resolve(sessions, id, now);
      var x := Exchanged(session.messages + [Message(User, Plain(message))], script, run);
      ChatOutcome(ReplyFor(x.end, id), sessions[id := session.(messages := x.history)], x.contexts)
  }

  /** The HTTP answer for how the exchange ended. */
  function ReplyFor(end: ExchangeEnd, id: Value): ChatReply {
    match end
    case Reply(text) => Replied(text, id)
    case ModelFailed => ServerError(ServerErrorMessage)
    case NoAnswer => Unfinished
  }

  /** `HandleChat` on a request with a message, with the session id and the
      history the model starts from named. */
  lemma ChatUnfolds(sessions: map<Value, Session>, body: map<string, Value>, now: int,
                    script: seq<ModelCall>, run: ToolRunner, id: Value, h: seq<Message>)
    requires Truthy(Get(body, "message"))
    requires id == SessionIdFor(Get(body, "session_id"), now)
    requires h == Resolve(sessions, id, now).messages + [Message(User, Plain(Get(body, "message")))]
    ensures var x := Exchanged(h, script, run);
      HandleChat(sessions, body, now, script, run) ==
        ChatOutcome(ReplyFor(x.end, id), sessions[id := Resolve(sessions, id, now).(messages := x.history)], x.contexts)
  {
  }

  /** A request without a truthy message is refused and changes nothing. */
  lemma ChatNeedsMessage(sessions: map<Value, Session>, body: map<string, Value>, now: int,
                         script: seq<ModelCall>, run: ToolRunner)
    requires !Truthy(Get(body, "message"))
    ensures HandleChat(sessions, body, now, script, run) == ChatOutcome(BadRequest(MessageRequired), sessions, [])
  {
  }

  /** A request with a message touches only the session it names (or a new
      one, created now): every other session is kept as it was, the
      session's creation time is kept, and its history only grows, by the
      visitor's message first. Each model call sees the last twenty messages
      of that history as it stood at the call. */
  lemma ChatSession(sessions: map<Value, Session>, body: map<string, Value>, now: int,
                    script: seq<ModelCall>, run: ToolRunner)
    requires Truthy(Get(body, "message"))
    ensures var id := SessionIdFor(Get(body, "session_id"), now);
      var start := Resolve(sessions, id, now);
      var h := start.messages + [Message(User, Plain(Get(body, "message")))];
      var out := HandleChat(sessions, body, now, script, run);
      && out.sessions.Keys == sessions.Keys + {id}
      && (forall k :: k in sessions && k != id ==> out.sessions[k] == sessions[k])
      && out.sessions[id].createdAt == start.createdAt
      && (id !in sessions ==> out.sessions[id].createdAt == now)
      && |h| <= |out.sessions[id].messages|
      && out.sessions[id].messages[..|h|] == h
      && 1 <= |out.contexts| <= |script| + 1
      && SawWindows(out.contexts, out.sessions[id].messages, |h|)
      && (out.reply.Replied? ==> out.reply.sessionId == id && out.reply.response != "")
  {
    var id := SessionIdFor(Get(body, "session_id"), now);
    var h := Resolve(sessions, id, now).messages + [Message(User, Plain(Get(body, "message")))];
    ChatUnfolds(sessions, body, now, script, run, id, h);
    ExchangeHistory(h, script, run);
    ExchangeReply(h, script, run);
  }

  /** When the first response asks for no tool, the model is called once and
      the session gains the visitor's message and the reply. */
  lemma ChatWithoutTools(sessions: map<Value, Session>, body: map<string, Value>, now: int,
                         r: ModelResponse, rest: seq<ModelCall>, run: ToolRunner)
    requires Truthy(Get(body, "message"))
    requires r.stopReason != "tool_use"
    ensures var id := SessionIdFor(Get(body, "session_id"), now);
      var start := Resolve(sessions, id, now);
      var out := HandleChat(sessions, body, now, [Answered(r)] + rest, run);
      && out.reply == Replied(ReplyText(r.content), id)
      && |out.contexts| == 1
      && out.sessions[id].messages ==
           start.messages + [Message(User, Plain(Get(body, "message"))), Message(Assistant, Plain(Str(ReplyText(r.content))))]
  {
    var id := SessionIdFor(Get(body, "session_id"), now);
    var h := Resolve(sessions, id, now).messages + [Message(User, Plain(Get(body, "message")))];
    ChatUnfolds(sessions, body, now, [Answered(r)] + rest, run, id, h);
    assert ([Answered(r)] + rest)[1..] == rest;
  }

  /** A failed first model call answers the generic error, and the history
      keeps the visitor's message. */
  lemma ChatModelFailure(sessions: map<Value, Session>, body: map<string, Value>, now: int,
                         e: string, rest: seq<ModelCall>, run: ToolRunner)
    requires Truthy(Get(body, "message"))
    ensures var id := SessionIdFor(Get(body, "session_id"), now);
      var out := HandleChat(sessions, body, now, [Failed(e)] + rest, run);
      && out.reply == ServerError(ServerErrorMessage)
      && out.sessions[id].messages ==
           Resolve(sessions, id, now).messages + [Message(User, Plain(Get(body, "message")))]
  {
    var id := SessionIdFor(Get(body, "session_id"), now);
    var h := Resolve(sessions, id, now).messages + [Message(User, Plain(Get(body, "message")))];
    ChatUnfolds(sessions, body, now, [Failed(e)] + rest, run, id, h);
    assert Exchanged(h, [Failed(e)] + rest, run) == Exchange(h, [Window(h)], ModelFailed);
  }

  /** Every session of `before` is still in `after`, created at the same
      time, with its history a prefix of the new one. */
  predicate Retains(before: map<Value, Session>, after: map<Value, Session>) {
    forall k :: k in before ==>
      k in after && after[k].createdAt == before[k].createdAt && before[k].messages <= after[k].messages
  }

  /** Keeping every session is transitive. */
  lemma RetainsTransitive(a: map<Value, Session>, b: map<Value, Session>, c: map<Value, Session>)
    requires Retains(a, b) && Retains(b, c)
    ensures Retains(a, c)
  {
  }

  /** A chat request never removes a session: every session it found is
      still there, with its creation time, and its history only grows. */
  lemma ChatKeepsSessions(sessions: map<Value, Session>, body: map<string, Value>, now: int,
                          script: seq<ModelCall>, run: ToolRunner)
    ensures Retains(sessions, HandleChat(sessions, body, now, script, run).sessions)
  {
    if !Truthy(Get(body, "message")) {
      ChatNeedsMessage(sessions, body, now, script, run);
    } else {
      ChatSession(sessions, body, now, script, run);
      var id := SessionIdFor(Get(body, "session_id"), now);
      var h := Resolve(sessions, id, now).messages + [Message(User, Plain(Get(body, "message")))];
      var out := HandleChat(sessions, body, now, script, run).sessions;
      if id in sessions {
        var n := |sessions[id].messages|;
        assert out[id].messages[..n] == out[id].messages[..|h|][..n] == h[..n];
      }
    }
  }

  /** One `/api/chat` request as it reaches the server. */
  datatype ChatRequest = ChatRequest(body: map<string, Value>, now: int, script: seq<ModelCall>)

  /** The sessions after the server, running its own tools over the
      services' answers `b`, has served `requests` in order. */
  function ServeChats(sessions: map<Value, Session>, requests: seq<ChatRequest>, b: Tools.Backend): map<Value, Session>
    decreases |requests|
  {
    if requests == [] then sessions
    else
      var r := requests[0];
      ServeChats(HandleChat(sessions, r.body, r.now, r.script, Executor(b)).sessions, requests[1..], b)
  }

  /** `cleanExpiredSessions` is never called, so however many requests the
      server serves, no session is ever removed or restarted, and every
      history only grows. */
  lemma {:induction false} SessionsNeverRemoved(sessions: map<Value, Session>, requests: seq<ChatRequest>, b: Tools.Backend)
    ensures Retains(sessions, ServeChats(sessions, requests, b))
    decreases |requests|
  {
    if requests != [] {
      var r := requests[0];
      var mid := HandleChat(sessions, r.body, r.now, r.script, Executor(b)).sessions;
      ChatKeepsSessions(sessions, r.body, r.now, r.script, Executor(b));
      SessionsNeverRemoved(mid, requests[1..], b);
      RetainsTransitive(sessions, mid, ServeChats(mid, requests[1..], b));
    }
  }

  // ---------------------------------------------------------------------------
  // cleanExpiredSessions: the server defines it but never calls it, so what
  // follows is the sweep as it would run if something did.
  // ---------------------------------------------------------------------------

  predicate Expired(s: Session, now: int) {
    now - s.createdAt > MaxAge
  }

  /** The sessions the sweep keeps. */
  function Unexpired(sessions: map<Value, Session>, now: int): (kept: map<Value, Session>)
    ensures forall id :: id in kept <==> id in sessions && !Expired(sessions[id], now)
    ensures forall id :: id in kept ==> kept[id] == sessions[id]
  {
    map id | id in sessions && !Expired(sessions[id], now) :: sessions[id]
  }

  /** The sessions after sweeping all but `pending`. */
  function SweptBut(sessions: map<Value, Session>, now: int, pending: set<Value>): map<Value, Session> {
    map id | id in sessions && (id in pending || !Expired(sessions[id], now)) :: sessions[id]
  }

  /** Sweeping twice at the same time removes nothing more. */
  lemma SweepIdempotent(sessions: map<Value, Session>, now: int)
    ensures Unexpired(Unexpired(sessions, now), now) == Unexpired(sessions, now)
  {
  }

  /** A session created more than two hours before a sweep is gone after it,
      however it was used by a chat request in between. */
  lemma ExpiredAfterChat(sessions: map<Value, Session>, body: map<string, Value>, t: int,
                         script: seq<ModelCall>, run: ToolRunner, id: Value, now: int)
    requires id in sessions
    requires now - sessions[id].createdAt > MaxAge
    ensures id !in Unexpired(HandleChat(sessions, body, t, script, run).sessions, now)
  {
    if Truthy(Get(body, "message")) {
      ChatSession(sessions, body, t, script, run);
    }
  }

  /** The `for (const toolUse of toolUseBlocks)` loop: runs each tool use
      of a response, in order, and collects one result per use. */
  method RunTools(content: seq<Block>, run: ToolRunner) returns (results: seq<ToolResult>)
    ensures results == ResultsFor(ToolUses(content), run)
  {
    var uses := ToolUses(content);
    results := [];
    for i := 0 to |uses|
      invariant results == ResultsFor(uses[..i], run)
    {
      ResultsForSnoc(uses, run, i);
      results := results + [ToolResult(uses[i].id, run(uses[i].name, uses[i].input))];
    }
    assert uses[..|uses|] == uses;
  }

  // ---------------------------------------------------------------------------
  // The server's state
  // ---------------------------------------------------------------------------

  /** The process-wide `sessions` map and the two routes that use it. */
  class ChatServer {
    var sessions: map<Value, Session>

    constructor ()
      ensures sessions == map[]
    {
      sessions := map[];
    }

    /** `POST /api/chat` with the request body, the clock reading and the
        model's answers; also returns the context of each model call. */
    method Chat(body: map<string, Value>, now: int, script: seq<ModelCall>, run: ToolRunner)
      returns (reply: ChatReply, contexts: seq<seq<Message>>)
      modifies this
      ensures HandleChat(old(sessions), body, now, script, run) == ChatOutcome(reply, sessions, contexts)
    {
      var message := Get(body, "message");
      if !Truthy(message) {
        reply := BadRequest(MessageRequired);
        contexts := [];
        return;
      }
      var id := SessionIdFor(Get(body, "session_id"), now);
      if id !in sessions {
        sessions := sessions[id := Session([], now)];
      }
      var session := sessions[id];
      assert session == Resolve(old(sessions), id, now);
      var history := session.messages + [Message(User, Plain(message))];
      sessions := sessions[id := session.(messages := history)];
      contexts := [Window(history)];
      ChatUnfolds(old(sessions), body, now, script, run, id, history);
      var end;
      history, contexts, end := RunExchange(id, session, old(sessions), history, script, run);
      match end
      case Reply(text) =>
        reply := Replied(text, id);
      case ModelFailed =>
        reply := ServerError(ServerErrorMessage);
      case NoAnswer =>
        reply := Unfinished;
    }

    /** The model calls of one `/api/chat` request, from the first call to the
        reply appended to the session `id`; a failed call ends the exchange.
        It does what `Exchanged` describes, and the session holds the
        history so far at the end. */
    method RunExchange(id: Value, session: Session, ghost base: map<Value, Session>,
                       h: seq<Message>, script: seq<ModelCall>, run: ToolRunner)
      returns (history: seq<Message>, contexts: seq<seq<Message>>, end: ExchangeEnd)
      modifies this
      requires sessions == base[id := session.(messages := h)]
      ensures Exchanged(h, script, run) == Exchange(history, contexts, end)
      ensures sessions == base[id := session.(messages := history)]
    {
      history, contexts := h, [Window(h)];
      if script == [] {
        end := NoAnswer;
        return;
      }
      if script[0].Failed? {
        end := ModelFailed;
        return;
      }
      var loopEnd, later;
      history, loopEnd, later := ToolLoop(id, session, base, h, script[0].response, script[1..], run);
      contexts := contexts + later;
      match loopEnd
      case Answer(response) =>
        var text := ReplyText(response.content);
        history := history + [Message(Assistant, Plain(Str(text)))];
        sessions := sessions[id := session.(messages := history)];
        end := Reply(text);
      case CallFailed(_) =>
        end := ModelFailed;
      case OutOfScript =>
        end := NoAnswer;
    }

    /** The `while (response.stop_reason === 'tool_use')` loop of `/api/chat`:
        runs the tools a response asks for, stores the round in the session
        `id`, and calls the model again, until a response asks for no tool or
        a call fails. It does what `Converse` describes, and the session
        holds the history so far after every step. */
    method ToolLoop(id: Value, session: Session, ghost base: map<Value, Session>,
                    h: seq<Message>, first: ModelResponse, rest: seq<ModelCall>, run: ToolRunner)
      returns (history: seq<Message>, end: LoopEnd, later: seq<seq<Message>>)
      modifies this
      requires sessions == base[id := session.(messages := h)]
      ensures Converse(h, first, rest, run) == Conversation(history, later, end)
      ensures sessions == base[id := session.(messages := history)]
    {
      history, later := h, [];
      var response := first;
      var k := 0;
      while response.stopReason == "tool_use"
        invariant 0 <= k <= |rest|
        invariant sessions == base[id := session.(messages := history)]
        invariant var c := Converse(history, response, rest[k..], run);
          Converse(h, first, rest, run) == Conversation(c.history, later + c.contexts, c.end)
        decreases |rest| - k
      {
        ghost var before := history;
        history := ToolRound(id, session, history, response, run);
        later := later + [Window(history)];
        if k == |rest| {
          end := OutOfScript;
          return;
        }
        if rest[k].Failed? {
          end := CallFailed(rest[k].error);
          return;
        }
        ConverseStep(before, response, rest[k..], run);
        assert rest[k..][1..] == rest[k + 1..];
        response := rest[k].response;
        k := k + 1;
      }
      ConverseAnswered(history, response, rest[k..], run);
      end := Answer(response);
    }

    /** One round of the loop: runs the tools `response` asks for and pushes
        the response, then the results, onto the session `id`. */
    method ToolRound(id: Value, session: Session, h: seq<Message>, response: ModelResponse,
                     run: ToolRunner) returns (next: seq<Message>)
      modifies this
      ensures next == Round(h, response, run)
      ensures sessions == old(sessions)[id := session.(messages := next)]
    {
      var results := RunTools(response.content, run);
      next := h + [Message(Assistant, Blocks(response.content)), Message(User, Results(results))];
      sessions := sessions[id := session.(messages := next)];
    }

    /** `cleanExpiredSessions()` at time `now`: deletes every session
        created more than two hours earlier, one entry at a time. */
    method Sweep(now: int)
      modifies this
      ensures sessions == Unexpired(old(sessions), now)
    {
      var pending := sessions.Keys;
      while pending != {}
        invariant pending <= old(sessions).Keys
        invariant sessions == SweptBut(old(sessions), now, pending)
        decreases pending
      {
        var id :| id in pending;
        if Expired(sessions[id], now) {
          sessions := sessions - {id};
        }
        pending := pending - {id};
      }
    }
  }

  // ---------------------------------------------------------------------------
  // POST /webhook/stripe
  // ---------------------------------------------------------------------------

  /** The route's answer; `Escaped` is a rejection of the event handler that
      the route does not catch. */
  datatype WebhookResponse = Responded(status: int, body: WebhookBody) | Escaped(error: string)

  /** `{received: true}` or `{error: 'Signature invalide'}`. */
  datatype WebhookBody = Received | SignatureInvalid

  datatype WebhookOutcome = WebhookOutcome(response: WebhookResponse, orders: Stripe.Orders)

  /** The webhook route, given what signature checking makes of the raw body,
      the shop's orders and the shop's reply to an update. */
  function StripeWebhook(constructed: Result<Stripe.Event>, orders: Stripe.Orders,
                         put: Stripe.PutReply): WebhookOutcome
    requires constructed.Ok? ==> Stripe.KnownOrderUpdate(constructed.value, orders, put)
  {
    match Stripe.VerifyWebhook(constructed)
    case Rejected(_) => WebhookOutcome(Responded(400, SignatureInvalid), orders)
    case Verified(e) =>
      var h := Stripe.HandleWebhookEvent(e, orders, put);
      if h.result.Threw? then WebhookOutcome(Escaped(h.result.error), h.orders)
      else WebhookOutcome(Responded(200, Received), h.orders)
  }

  /** A body whose signature does not check is refused with 400 and no
      order changes. */
  lemma WebhookRejectsBadSignature(constructed: Result<Stripe.Event>, orders: Stripe.Orders,
                                   put: Stripe.PutReply)
    requires constructed.Err?
    ensures StripeWebhook(constructed, orders, put) == WebhookOutcome(Responded(400, SignatureInvalid), orders)
  {
  }

  /** A verified event is handled, and acknowledged with 200 whether or not
      the order update succeeded, unless the handler's rejection escapes. */
  lemma WebhookHandlesVerified(e: Stripe.Event, orders: Stripe.Orders, put: Stripe.PutReply)
    requires Stripe.KnownOrderUpdate(e, orders, put)
    ensures var out := StripeWebhook(Ok(e), orders, put);
      var h := Stripe.HandleWebhookEvent(e, orders, put);
      && out.orders == h.orders
      && (out.response.Escaped? <==> h.result.Threw?)
      && (!h.result.Threw? ==> out.response == Responded(200, Received))
  {
  }

  /** Only a verified checkout or payment-failure event can change an order. */
  lemma WebhookChangesOnlyOnEvents(constructed: Result<Stripe.Event>, orders: Stripe.Orders,
                                   put: Stripe.PutReply)
    requires constructed.Ok? ==> Stripe.KnownOrderUpdate(constructed.value, orders, put)
    requires StripeWebhook(constructed, orders, put).orders != orders
    ensures constructed.Ok?
    ensures constructed.value.kind in {"checkout.session.completed", "payment_intent.payment_failed"}
  {
  }
}
