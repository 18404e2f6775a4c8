/**
 * The top-level controller of App.tsx: the list of conversations, the id of the current one
 * and the flag that stops a running generation.  The conversation rewrites are the
 * functional `prev.map(c => ...)` updates of the source; `HandleSendMessage` is the
 * send-and-stream handler with its `for await` loop.
 *
 * Uuids are fresh ids supplied by the caller, `Date.now()` is a parameter, and the response
 * stream is a sequence of chunks that may end with the generator throwing.  Other handlers can
 * set the stop flag while a reply streams: `stopRequests[k]` says whether that happened before
 * checkpoint `k` (checkpoint `k < |chunks|` is the flag test before chunk `k`, checkpoint
 * `|chunks|` the test after the loop); a missing entry means no request.
 */
module Transcript {
  import opened Wrappers
  import opened JsStrings
  import opened ChatTypes
  import opened Grounding
  import ConversationTitle

  const NewConversationTitle := "Nova Conversa"
  const InterruptedText := "Essa mensagem foi interrompida"
  const ErrorText := "Desculpe, encontrei um erro. Por favor, tente novamente."

  /** The response stream: the chunks it delivers and whether it then throws instead of
      finishing (a `generateStream` call that throws is a stream with no chunks that fails). */
  datatype Stream = Stream(chunks: seq<StreamChunk>, fails: bool)

  /** How a send ended.  `titleContext` holds the two messages a background title request is
      made from, when one is made. */
  datatype Ending = Interrupted | Failed | Completed(titleContext: Option<seq<Message>>)

  /** `history` is what the generator was given. */
  datatype SendOutcome = Ignored | Sent(history: seq<Message>, ending: Ending)

  // ----- functional rewrites of the conversation list -----

  /** `prev.map(c => c.id === id ? { ...c, messages: [...c.messages, ...tail] } : c)` */
  function AppendMessages(cs: seq<Conversation>, id: Id, tail: seq<Message>): seq<Conversation>
  {
    seq(|cs|, i requires 0 <= i < |cs| =>
      if cs[i].id == id then cs[i].(messages := cs[i].messages + tail) else cs[i])
  }

  /** The field change applied to one message. */
  datatype Edit = SetContent(text: string) | SetGrounding(chunks: seq<GroundingChunk>)

  function ApplyEdit(m: Message, e: Edit): Message
  {
    match e
    case SetContent(t) => m.(content := t)
    case SetGrounding(g) => m.(groundingChunks := Some(g))
  }

  /** `c.messages.map(m => m.id === msgId ? { ...m, ... } : m)` */
  function EditIn(ms: seq<Message>, msgId: Id, e: Edit): seq<Message>
  {
    seq(|ms|, k requires 0 <= k < |ms| => if ms[k].id == msgId then ApplyEdit(ms[k], e) else ms[k])
  }

  /** The nested rewrite that changes one message of the conversation `convId`. */
  function EditMessage(cs: seq<Conversation>, convId: Id, msgId: Id, e: Edit): seq<Conversation>
  {
    seq(|cs|, i requires 0 <= i < |cs| =>
      if cs[i].id == convId then cs[i].(messages := EditIn(cs[i].messages, msgId, e)) else cs[i])
  }

  /** `conversations.find(c => c.id === id)?.messages ?? []` */
  function HistoryOf(cs: seq<Conversation>, id: Id): seq<Message>
  {
    if |cs| == 0 then [] else if cs[0].id == id then cs[0].messages else HistoryOf(cs[1..], id)
  }

  predicate MessageIdInUse(cs: seq<Conversation>, msgId: Id) {
    exists i, k :: 0 <= i < |cs| && 0 <= k < |cs[i].messages| && cs[i].messages[k].id == msgId
  }

  /** What uuidv4 gives the three messages a send may create: three fresh, distinct ids. */
  predicate FreshIds(cs: seq<Conversation>, userId: Id, aiId: Id, interruptId: Id) {
    userId != aiId && userId != interruptId && aiId != interruptId
    && !MessageIdInUse(cs, userId) && !MessageIdInUse(cs, aiId) && !MessageIdInUse(cs, interruptId)
  }

  function NewConversation(id: Id, now: int): Conversation {
    Conversation(id, NewConversationTitle, [], now)
  }

  function UserMessage(id: Id, input: string): Message {
    Message(id, User, input, None, None)
  }

  /** The placeholder model message, `{ role: 'model', content: '', groundingChunks: [] }`. */
  function Placeholder(id: Id): Message {
    Message(id, Model, "", None, Some([]))
  }

  // ----- the specification of a send -----

  function StopAt(stopRequests: seq<bool>, k: nat): bool {
    k < |stopRequests| && stopRequests[k]
  }

  /** The number of chunks folded in: the first checkpoint before a chunk with a stop request,
      or all `n` chunks. */
  function AcceptedCount(n: nat, stopRequests: seq<bool>, from: nat := 0): (k: nat)
    requires from <= n
    ensures from <= k <= n
    ensures forall j :: from <= j < k ==> !StopAt(stopRequests, j)
    ensures k < n ==> StopAt(stopRequests, k)
    decreases n - from
  {
    if from == n then n else if StopAt(stopRequests, from) then from
    else AcceptedCount(n, stopRequests, from + 1)
  }

  /** The text of a sequence of chunks, joined: `fullResponse += chunk.text` chunk after chunk. */
  function ChunkTexts(chunks: seq<StreamChunk>): string
  {
    if |chunks| == 0 then "" else ChunkTexts(chunks[..|chunks| - 1]) + chunks[|chunks| - 1].text
  }

  /** The outcome class of a streamed reply. */
  datatype Run = Run(accepted: seq<StreamChunk>, failed: bool, stopped: bool)

  function RunOf(stream: Stream, stopRequests: seq<bool>): Run
  {
    var n := |stream.chunks|;
    var k := AcceptedCount(n, stopRequests);
    var failed := k == n && stream.fails;
    Run(stream.chunks[..k], failed, !failed && (k < n || StopAt(stopRequests, n)))
  }

  /** The messages appended to the conversation for a reply that ran as `run`, given the user
      message and the placeholder. */
  function FinishTail(user: Message, ai: Message, run: Run, interruptId: Id): seq<Message>
  {
    if run.failed then [user, ai.(content := ErrorText)]
    else
      var text := ChunkTexts(run.accepted);
      var g := CollectGrounding(run.accepted);
      var ai' := ai.(content := text, groundingChunks := if |g| > 0 then Some(g) else ai.groundingChunks);
      if !run.stopped then [user, ai']
      else if |text| == 0 then [user, ai'.(content := InterruptedText)]
      else [user, ai', Message(interruptId, Model, InterruptedText, None, None)]
  }

  /** The messages a send appends to its conversation, once the reply is over. */
  function ReplyTail(input: string, userId: Id, aiId: Id, interruptId: Id,
                     stream: Stream, stopRequests: seq<bool>): seq<Message>
  {
    FinishTail(UserMessage(userId, input), Placeholder(aiId), RunOf(stream, stopRequests), interruptId)
  }

  function EndingOf(history: seq<Message>, input: string, userId: Id, aiId: Id,
                    stream: Stream, stopRequests: seq<bool>): Ending
  {
    var run := RunOf(stream, stopRequests);
    if run.failed then Failed
    else if run.stopped then Interrupted
    else Completed(if |history| == 0
                   then Some([UserMessage(userId, input), Placeholder(aiId).(content := ChunkTexts(run.accepted))])
                   else None)
  }

  // ----- lemmas about the rewrites -----

  /** Editing the freshly appended message `m` by its id changes only that message. */
  lemma EditAppended(cs: seq<Conversation>, t: Id, pre: seq<Message>, m: Message, e: Edit)
    requires !MessageIdInUse(cs, m.id)
    requires forall k :: 0 <= k < |pre| ==> pre[k].id != m.id
    ensures EditMessage(AppendMessages(cs, t, pre + [m]), t, m.id, e) == AppendMessages(cs, t, pre + [ApplyEdit(m, e)])
  {
    var lhs := EditMessage(AppendMessages(cs, t, pre + [m]), t, m.id, e);
    var rhs := AppendMessages(cs, t, pre + [ApplyEdit(m, e)]);
    forall i | 0 <= i < |cs| ensures lhs[i] == rhs[i] {
      if cs[i].id == t {
        var ms := cs[i].messages + pre + [m];
        var ms' := cs[i].messages + pre + [ApplyEdit(m, e)];
        forall k | 0 <= k < |ms| ensures EditIn(ms, m.id, e)[k] == ms'[k] {
          if k < |cs[i].messages| {
            assert cs[i].messages[k].id != m.id;
          }
        }
        assert EditIn(ms, m.id, e) == ms';
        assert cs[i].messages + (pre + [m]) == ms;
        assert cs[i].messages + (pre + [ApplyEdit(m, e)]) == ms';
      }
    }
  }

  lemma AppendTwice(cs: seq<Conversation>, t: Id, a: seq<Message>, b: seq<Message>)
    ensures AppendMessages(AppendMessages(cs, t, a), t, b) == AppendMessages(cs, t, a + b)
  {
    forall i | 0 <= i < |cs| ensures AppendMessages(AppendMessages(cs, t, a), t, b)[i] == AppendMessages(cs, t, a + b)[i] {
      assert cs[i].messages + a + b == cs[i].messages + (a + b);
    }
  }

  /** A send rewrites only the conversation with the target id, only by appending, and the
      history read before the append is what that conversation held before it. */
  lemma {:induction false} AppendFrame(cs: seq<Conversation>, t: Id, tail: seq<Message>)
    ensures |AppendMessages(cs, t, tail)| == |cs|
    ensures forall i :: 0 <= i < |cs| && cs[i].id != t ==> AppendMessages(cs, t, tail)[i] == cs[i]
    ensures forall i :: 0 <= i < |cs| && cs[i].id == t ==>
      AppendMessages(cs, t, tail)[i].messages == cs[i].messages + tail
      && AppendMessages(cs, t, tail)[i].(messages := cs[i].messages) == cs[i]
    ensures (exists i :: 0 <= i < |cs| && cs[i].id == t) ==>
      HistoryOf(AppendMessages(cs, t, tail), t) == HistoryOf(cs, t) + tail
  {
    if |cs| > 0 {
      AppendFrame(cs[1..], t, tail);
      assert AppendMessages(cs, t, tail)[1..] == AppendMessages(cs[1..], t, tail);
      if cs[0].id != t && (exists i :: 0 <= i < |cs| && cs[i].id == t) {
        var i :| 0 <= i < |cs| && cs[i].id == t;
        assert cs[1..][i - 1].id == t;
      }
    }
  }

  // ----- lemmas about a send -----

  lemma ChunkTextsPush(chunks: seq<StreamChunk>, i: nat)
    requires i < |chunks|
    ensures ChunkTexts(chunks[..i + 1]) == ChunkTexts(chunks[..i]) + chunks[i].text
  {
    assert chunks[..i + 1][..i] == chunks[..i];
  }

  /** One accepted chunk: the placeholder's text grows by the chunk's text, in place. */
  lemma PlaceholderGrows(cs: seq<Conversation>, t: Id, u: Message, aiId: Id, full: string, text: string)
    requires !MessageIdInUse(cs, aiId) && u.id != aiId
    ensures EditMessage(AppendMessages(cs, t, [u, Placeholder(aiId).(content := full)]), t, aiId, SetContent(full + text))
         == AppendMessages(cs, t, [u, Placeholder(aiId).(content := full + text)])
  {
    var p := Placeholder(aiId).(content := full);
    EditAppended(cs, t, [u], p, SetContent(full + text));
    assert [u] + [p] == [u, p];
    assert [u] + [ApplyEdit(p, SetContent(full + text))] == [u, Placeholder(aiId).(content := full + text)];
  }

  /** A reply appends the user message carrying the input, then the model message with the
      placeholder's id, then at most the interruption notice. */
  lemma ReplyShape(input: string, userId: Id, aiId: Id, interruptId: Id, stream: Stream, stopRequests: seq<bool>)
    ensures var tail := ReplyTail(input, userId, aiId, interruptId, stream, stopRequests);
      var run := RunOf(stream, stopRequests);
      && 2 <= |tail| <= 3
      && tail[0] == UserMessage(userId, input)
      && tail[1].id == aiId && tail[1].role == Model && tail[1].attachment == None
      && (|tail| == 3 <==> run.stopped && ChunkTexts(run.accepted) != "")
      && (|tail| == 3 ==> tail[2] == Message(interruptId, Model, InterruptedText, None, None))
  {
  }

  /** The content the model message ends with: the error text after a failure, the
      interruption text after a stop with nothing received, otherwise the concatenation of the
      text of every chunk accepted before the first stop request. */
  lemma ReplyContent(input: string, userId: Id, aiId: Id, interruptId: Id, stream: Stream, stopRequests: seq<bool>)
    ensures var tail := ReplyTail(input, userId, aiId, interruptId, stream, stopRequests);
      var run := RunOf(stream, stopRequests);
      var k := |run.accepted|;
      && k <= |stream.chunks| && run.accepted == stream.chunks[..k]
      && (forall j :: 0 <= j < k ==> !StopAt(stopRequests, j))
      && (k < |stream.chunks| ==> StopAt(stopRequests, k) && run.stopped)
      && (run.failed <==> k == |stream.chunks| && stream.fails)
      && tail[1].content == (if run.failed then ErrorText
                             else if run.stopped && ChunkTexts(run.accepted) == "" then InterruptedText
                             else ChunkTexts(run.accepted))
  {
  }

  /** Once a stop request is seen before chunk `j`, nothing from chunk `j` on (nor whether the
      stream would later fail) influences the reply. */
  lemma StopCutsStream(input: string, userId: Id, aiId: Id, interruptId: Id,
                       s1: Stream, s2: Stream, stopRequests: seq<bool>, j: nat)
    requires j < |s1.chunks| && j < |s2.chunks| && s1.chunks[..j] == s2.chunks[..j]
    requires StopAt(stopRequests, j)
    ensures ReplyTail(input, userId, aiId, interruptId, s1, stopRequests)
         == ReplyTail(input, userId, aiId, interruptId, s2, stopRequests)
  {
    var k1 := AcceptedCount(|s1.chunks|, stopRequests);
    var k2 := AcceptedCount(|s2.chunks|, stopRequests);
    assert k1 <= j && k2 <= j;
    assert k1 == k2;
    assert s1.chunks[..k1] == s1.chunks[..j][..k1];
    assert s2.chunks[..k2] == s2.chunks[..j][..k2];
  }

  /** When the generator throws, the model message shows the error text and keeps no
      citations; nothing else of the reply is kept. */
  lemma FailureReplaces(input: string, userId: Id, aiId: Id, interruptId: Id, stream: Stream, stopRequests: seq<bool>)
    requires RunOf(stream, stopRequests).failed
    ensures ReplyTail(input, userId, aiId, interruptId, stream, stopRequests)
         == [UserMessage(userId, input), Message(aiId, Model, ErrorText, None, Some([]))]
  {
  }

  /** The model message of a reply that did not fail carries the de-duplicated citations of
      the accepted chunks (the empty list when there are none). */
  lemma ReplyGrounding(input: string, userId: Id, aiId: Id, interruptId: Id, stream: Stream, stopRequests: seq<bool>)
    requires !RunOf(stream, stopRequests).failed
    ensures ReplyTail(input, userId, aiId, interruptId, stream, stopRequests)[1].groundingChunks
         == Some(CollectGrounding(RunOf(stream, stopRequests).accepted))
  {
  }

  /** A title is requested exactly for the first exchange of a conversation whose reply
      neither failed nor was stopped, and its context is the input and the full reply,
      labelled by role. */
  lemma TitleRequest(history: seq<Message>, input: string, userId: Id, aiId: Id,
                     stream: Stream, stopRequests: seq<bool>)
    ensures var ending := EndingOf(history, input, userId, aiId, stream, stopRequests);
      var run := RunOf(stream, stopRequests);
      && (ending.Completed? && ending.titleContext.Some? <==> |history| == 0 && !run.failed && !run.stopped)
      && (ending.Completed? && ending.titleContext.Some? ==>
            ConversationTitle.TitleContext(ending.titleContext.value)
            == "Usuário: " + input + "\n\n" + "Assistente: " + ChunkTexts(run.accepted))
  {
    var ending := EndingOf(history, input, userId, aiId, stream, stopRequests);
    if ending.Completed? && ending.titleContext.Some? {
      var ms := ending.titleContext.value;
      ConversationTitle.TitleContextShape(ms);
    }
  }

  // ----- the controller -----

  /** `!!currentConversationId`: neither an absent id nor the empty string selects a conversation. */
  predicate HasCurrent(currentId: Option<Id>) {
    currentId.Some? && currentId.value != ""
  }

  class ChatController {
    var conversations: seq<Conversation>
    var currentId: Option<Id>
    var stop: bool

    constructor (conversations: seq<Conversation>, currentId: Option<Id>)
      ensures this.conversations == conversations && this.currentId == currentId && !stop
    {
      this.conversations := conversations;
      this.currentId := currentId;
      stop := false;
    }

    /** `startNewConversation`: stop any generation, put an empty "Nova Conversa" first and
        make it current. */
    method StartNewConversation(newId: Id, now: int)
      modifies this
      ensures conversations == [NewConversation(newId, now)] + old(conversations)
      ensures currentId == Some(newId) && stop
    {
      stop := true;
      conversations := [NewConversation(newId, now)] + conversations;
      currentId := Some(newId);
    }

    /** `handleStopGenerating` */
    method HandleStopGenerating()
      modifies this`stop
      ensures stop
    {
      stop := true;
    }

    /** `selectConversation` */
    method SelectConversation(id: Id)
      modifies this
      ensures currentId == Some(id) && stop && conversations == old(conversations)
    {
      stop := true;
      currentId := Some(id);
    }

    /** `clearHistory` */
    method ClearHistory()
      modifies this
      ensures conversations == [] && currentId == None && stop
    {
      stop := true;
      conversations := [];
      currentId := None;
    }

    /** The effect on `[conversations, currentConversationId]`: select the first conversation
        when none is current, or start a new one when the list is empty.  Afterwards there is a
        current id and at least one conversation. */
    method AutoSelect(newId: Id, now: int)
      modifies this
      ensures !HasCurrent(old(currentId)) && |old(conversations)| > 0 ==>
        conversations == old(conversations) && currentId == Some(old(conversations)[0].id) && stop == old(stop)
      ensures |old(conversations)| == 0 ==>
        conversations == [NewConversation(newId, now)] && currentId == Some(newId) && stop
      ensures HasCurrent(old(currentId)) && |old(conversations)| > 0 ==>
        conversations == old(conversations) && currentId == old(currentId) && stop == old(stop)
      ensures currentId.Some? && |conversations| > 0
    {
      if !HasCurrent(currentId) && |conversations| > 0 {
        currentId := Some(conversations[0].id);
      } else if |conversations| == 0 {
        StartNewConversation(newId, now);
      }
    }

    /** `handleSendMessage`.  Blank input or no current conversation changes nothing.
        Otherwise the user message and the placeholder are appended to the current
        conversation, the generator is given the conversation's messages as they were before,
        and each accepted chunk's text is folded into the placeholder until a stop request is
        seen; afterwards come the citations, the interruption notice or the error text.  No
        other conversation and no earlier message changes. */
    method HandleSendMessage(input: string, userId: Id, aiId: Id, interruptId: Id,
                             stream: Stream, stopRequests: seq<bool>) returns (outcome: SendOutcome)
      requires FreshIds(conversations, userId, aiId, interruptId)
      modifies this
      ensures outcome.Ignored? <==> Trim(input) == "" || !HasCurrent(old(currentId))
      ensures outcome.Ignored? ==>
        conversations == old(conversations) && currentId == old(currentId) && stop == old(stop)
      ensures outcome.Sent? ==>
        var t := old(currentId).value;
        && currentId == old(currentId)
        && outcome.history == HistoryOf(old(conversations), t)
        && conversations == AppendMessages(old(conversations), t,
                                           ReplyTail(input, userId, aiId, interruptId, stream, stopRequests))
        && outcome.ending == EndingOf(outcome.history, input, userId, aiId, stream, stopRequests)
        && stop == (exists k :: 0 <= k <= |stream.chunks| && StopAt(stopRequests, k))
    {
      if Trim(input) == "" || !HasCurrent(currentId) {
        return Ignored;
      }
      var target := currentId.value;
      var userMessage := UserMessage(userId, input);
      var aiMessage := Placeholder(aiId);
      var history := HistoryOf(conversations, target);
      ghost var before := conversations;
      conversations := AppendMessages(conversations, target, [userMessage, aiMessage]);
      stop := false;

      var fullResponse, allChunks, broke := FoldStream(target, before, userMessage, aiId, stream, stopRequests);
      if StopAt(stopRequests, |allChunks|) {
        HandleStopGenerating();
      }
      assert stop == (exists k :: 0 <= k <= |stream.chunks| && StopAt(stopRequests, k)) by {
        if broke { assert StopAt(stopRequests, |allChunks|); }
        else if StopAt(stopRequests, |allChunks|) { assert |allChunks| == |stream.chunks|; }
      }
      var failed := !broke && stream.fails;
      var run := Run(allChunks, failed, !failed && stop);
      assert run == RunOf(stream, stopRequests);
      Conclude(target, before, userMessage, aiId, interruptId, run, fullResponse);

      if failed {
        outcome := Sent(history, Failed);
      } else if stop {
        outcome := Sent(history, Interrupted);
      } else {
        var titleContext := if |history| == 0 then Some([userMessage, aiMessage.(content := fullResponse)]) else None;
        outcome := Sent(history, Completed(titleContext));
      }
    }

    /** The `for await` loop of `handleSendMessage`: fold chunk texts into the placeholder
        until the stop flag is seen. */
    method FoldStream(target: Id, ghost before: seq<Conversation>, userMessage: Message, aiId: Id,
                      stream: Stream, stopRequests: seq<bool>)
      returns (fullResponse: string, allChunks: seq<StreamChunk>, broke: bool)
      requires !MessageIdInUse(before, aiId) && userMessage.id != aiId && !stop
      requires conversations == AppendMessages(before, target, [userMessage, Placeholder(aiId)])
      modifies this
      ensures allChunks == stream.chunks[..AcceptedCount(|stream.chunks|, stopRequests)]
      ensures fullResponse == ChunkTexts(allChunks)
      ensures broke <==> |allChunks| < |stream.chunks|
      ensures stop == broke && currentId == old(currentId)
      ensures conversations == AppendMessages(before, target, [userMessage, Placeholder(aiId).(content := fullResponse)])
    {
      fullResponse := "";
      allChunks := [];
      broke := false;
      var i := 0;
      while i < |stream.chunks| && !broke
        invariant 0 <= i <= |stream.chunks|
        invariant allChunks == stream.chunks[..i]
        invariant fullResponse == ChunkTexts(allChunks)
        invariant forall j :: 0 <= j < i ==> !StopAt(stopRequests, j)
        invariant broke ==> i < |stream.chunks| && StopAt(stopRequests, i)
        invariant stop == broke
        invariant currentId == old(currentId)
        invariant conversations == AppendMessages(before, target, [userMessage, Placeholder(aiId).(content := fullResponse)])
        decreases |stream.chunks| - i, if broke then 0 else 1
      {
        if StopAt(stopRequests, i) {
          HandleStopGenerating();
        }
        if stop {
          broke := true;
        } else {
          var chunk := stream.chunks[i];
          allChunks := allChunks + [chunk];
          ChunkTextsPush(stream.chunks, i);
          PlaceholderGrows(before, target, userMessage, aiId, fullResponse, chunk.text);
          fullResponse := fullResponse + chunk.text;
          conversations := EditMessage(conversations, target, aiId, SetContent(fullResponse));
          i := i + 1;
        }
      }
      assert AcceptedCount(|stream.chunks|, stopRequests) == i;
    }

    /** What `handleSendMessage` does after the loop: the error text when the generator threw;
        otherwise the citations, and on a stop the interruption notice. */
    method Conclude(target: Id, ghost before: seq<Conversation>, userMessage: Message, aiId: Id, interruptId: Id,
                    run: Run, fullResponse: string)
      requires !MessageIdInUse(before, aiId) && userMessage.id != aiId
      requires fullResponse == ChunkTexts(run.accepted)
      requires !run.failed ==> run.stopped == stop
      requires conversations == AppendMessages(before, target, [userMessage, Placeholder(aiId).(content := fullResponse)])
      modifies this`conversations
      ensures conversations == AppendMessages(before, target, FinishTail(userMessage, Placeholder(aiId), run, interruptId))
    {
      var ai := Placeholder(aiId).(content := fullResponse);
      ghost var tail := FinishTail(userMessage, Placeholder(aiId), run, interruptId);
      assert [userMessage] + [ai] == [userMessage, ai];
      if run.failed {
        EditAppended(before, target, [userMessage], ai, SetContent(ErrorText));
        conversations := EditMessage(conversations, target, aiId, SetContent(ErrorText));
        assert tail == [userMessage] + [ai.(content := ErrorText)];
        return;
      }
      var grounding := CollectGrounding(run.accepted);
      if |grounding| > 0 {
        EditAppended(before, target, [userMessage], ai, SetGrounding(grounding));
        conversations := EditMessage(conversations, target, aiId, SetGrounding(grounding));
        ai := ai.(groundingChunks := Some(grounding));
      }
      assert [userMessage] + [ai] == [userMessage, ai];
      if stop {
        if |fullResponse| == 0 {
          EditAppended(before, target, [userMessage], ai, SetContent(InterruptedText));
          conversations := EditMessage(conversations, target, aiId, SetContent(InterruptedText));
          assert tail == [userMessage] + [ai.(content := InterruptedText)];
        } else {
          var interruption := Message(interruptId, Model, InterruptedText, None, None);
          AppendTwice(before, target, [userMessage, ai], [interruption]);
          conversations := AppendMessages(conversations, target, [interruption]);
          assert tail == [userMessage, ai] + [interruption];
        }
      } else {
        assert tail == [userMessage] + [ai];
      }
    }
  }
}
