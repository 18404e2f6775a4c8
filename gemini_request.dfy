/**
 * The request `generateStream` (services/geminiService.ts:20-98) sends to the provider: one
 * content per history message, then the new user turn, with empty turns filtered out, and the
 * model picked from the attachment's MIME type.  The provider call itself is not modelled.
 */
module GeminiRequest {
  import opened Wrappers
  import opened JsStrings
  import opened ChatTypes

  datatype Part = Text(text: string) | InlineData(mimeType: string, data: string)

  datatype Content = Content(role: Role, parts: seq<Part>)

  /** The two model constants; the source gives both the name 'gemini-2.5-flash'. */
  datatype ModelChoice = ChatModel | VisionModel

  function ModelName(m: ModelChoice): string {
    match m
    case ChatModel => "gemini-2.5-flash"
    case VisionModel => "gemini-2.5-flash"
  }

  const SystemInstruction := "Você é um assistente de IA prestativo e amigável. Responda em português do Brasil e formate as respostas usando Markdown. Se perguntarem quem te criou ou quem é seu criador, responda que foi Pedro Campos Queiroz."
  const MaxOutputTokens := 8192
  const ThinkingBudget := 1024

  datatype StreamRequest = StreamRequest(
    model: string,
    contents: seq<Content>,
    systemInstruction: string,
    maxOutputTokens: nat,
    thinkingBudget: nat)

  predicate IsImage(mimeType: string) {
    StartsWith(mimeType, "image/")
  }

  /** The note for a non-image file attached to an earlier user message. */
  function EarlierFileText(a: Attachment): string {
    if a.data != "" then
      "Contexto de um arquivo anterior chamado \"" + a.name + "\":\n\n--- CONTEÚDO ---\n" + a.data + "\n--- FIM ---"
    else
      "[O usuário tinha anexado o arquivo \"" + a.name + "\" mas o conteúdo não foi lido.]"
  }

  /** The note for a non-image file attached to the new prompt. */
  function NewFileText(a: Attachment): string {
    if a.data != "" then
      "Use o conteúdo do arquivo \"" + a.name + "\" abaixo para responder à pergunta do usuário.\n\n--- INÍCIO ---\n" + a.data + "\n--- FIM ---"
    else
      "[O usuário anexou o arquivo \"" + a.name + "\" (" + a.mimeType + "), mas não foi possível ler o seu conteúdo. Informe educadamente ao usuário que você não pode acessar o conteúdo deste tipo de arquivo.]"
  }

  /** The parts of a history message (services/geminiService.ts:28-53): the attachment's part,
      if any, then the message text, if non-empty. */
  function MessageParts(m: Message): seq<Part>
  {
    var attachmentPart :=
      match m.attachment
      case None => []
      case Some(a) =>
        if IsImage(a.mimeType) then [InlineData(a.mimeType, a.data)]
        else if m.role == User then [Text(EarlierFileText(a))]
        else [];
    attachmentPart + (if m.content != "" then [Text(m.content)] else [])
  }

  /** The parts of the new user turn (services/geminiService.ts:57-78). */
  function NewTurnParts(prompt: string, attachment: Option<Attachment>): seq<Part>
  {
    var attachmentPart :=
      match attachment
      case None => []
      case Some(a) => if IsImage(a.mimeType) then [InlineData(a.mimeType, a.data)] else [Text(NewFileText(a))];
    attachmentPart + (if Trim(prompt) != "" then [Text(prompt)] else [])
  }

  /** `contents` before filtering: one content per history message, then the new turn when it
      has a part. */
  function Contents(history: seq<Message>, prompt: string, attachment: Option<Attachment>): seq<Content>
  {
    var turn := NewTurnParts(prompt, attachment);
    seq(|history|, i requires 0 <= i < |history| => Content(history[i].role, MessageParts(history[i])))
    + (if |turn| > 0 then [Content(User, turn)] else [])
  }

  /** `('text' in p && p.text.trim()) || 'inlineData' in p` */
  predicate IsUsefulPart(p: Part) {
    p.InlineData? || Trim(p.text) != ""
  }

  /** The filter's test: at least one part, and some part is an image or non-blank text. */
  predicate IsUseful(c: Content) {
    |c.parts| > 0 && exists p :: p in c.parts && IsUsefulPart(p)
  }

  /** `contents.filter(IsUseful)` */
  function FilterContents(cs: seq<Content>): seq<Content>
  {
    if |cs| == 0 then []
    else
      var rest := FilterContents(cs[..|cs| - 1]);
      if IsUseful(cs[|cs| - 1]) then rest + [cs[|cs| - 1]] else rest
  }

  /** `attachment?.mimeType.startsWith('image/') ? visionModel : chatModel` */
  function ChooseModel(attachment: Option<Attachment>): (m: ModelChoice)
    ensures m == VisionModel <==> attachment.Some? && IsImage(attachment.value.mimeType)
  {
    if attachment.Some? && IsImage(attachment.value.mimeType) then VisionModel else ChatModel
  }

  /** `s` is `t` with some elements left out, the rest in their order: either the last
      elements agree and the rest of `s` is a subsequence of the rest of `t`, or the last
      element of `t` is left out. */
  predicate IsSubsequence<T(==)>(s: seq<T>, t: seq<T>)
    decreases |t|
  {
    if |s| == 0 then true
    else if |t| == 0 then false
    else (s[|s| - 1] == t[|t| - 1] && IsSubsequence(s[..|s| - 1], t[..|t| - 1]))
         || IsSubsequence(s, t[..|t| - 1])
  }

  // ----- lemmas -----

  /** Before filtering there is one content per history message, with its role, in order,
      followed by the new turn exactly when that turn has a part. */
  lemma ContentsShape(history: seq<Message>, prompt: string, attachment: Option<Attachment>)
    ensures var cs := Contents(history, prompt, attachment);
      var turn := NewTurnParts(prompt, attachment);
      && |cs| == |history| + (if |turn| > 0 then 1 else 0)
      && (forall i :: 0 <= i < |history| ==> cs[i].role == history[i].role && cs[i].parts == MessageParts(history[i]))
      && (|turn| > 0 ==> cs[|history|] == Content(User, turn))
  {
  }

  /** An image attachment gives one inline-data part, before the message's text. */
  lemma ImagePartFirst(m: Message)
    requires m.attachment.Some? && IsImage(m.attachment.value.mimeType)
    ensures var a := m.attachment.value;
      MessageParts(m) == [InlineData(a.mimeType, a.data)] + (if m.content != "" then [Text(m.content)] else [])
  {
  }

  /** A non-image attachment adds a text part (the file's content, or the note that it was
      not read) only on a user message; a model message gets just its own text. */
  lemma OtherAttachmentParts(m: Message)
    requires m.attachment.Some? && !IsImage(m.attachment.value.mimeType)
    ensures var a := m.attachment.value;
      var own := if m.content != "" then [Text(m.content)] else [];
      && (m.role == User ==> MessageParts(m) == [Text(EarlierFileText(a))] + own)
      && (m.role == Model ==> MessageParts(m) == own)
      && (m.role == User && a.data != "" ==> StartsWith(MessageParts(m)[0].text, "Contexto de um arquivo anterior chamado"))
      && (m.role == User && a.data == "" ==> StartsWith(MessageParts(m)[0].text, "[O usuário tinha anexado o arquivo"))
  {
    var a := m.attachment.value;
    if m.role == User {
      var t := MessageParts(m)[0].text;
      if a.data != "" {
        var p := "Contexto de um arquivo anterior chamado";
        StartsWithExtend("Contexto de um arquivo anterior chamado \"", a.name, p);
        StartsWithExtend("Contexto de um arquivo anterior chamado \"" + a.name, "\":\n\n--- CONTEÚDO ---\n", p);
        StartsWithExtend("Contexto de um arquivo anterior chamado \"" + a.name + "\":\n\n--- CONTEÚDO ---\n", a.data, p);
        StartsWithExtend("Contexto de um arquivo anterior chamado \"" + a.name + "\":\n\n--- CONTEÚDO ---\n" + a.data, "\n--- FIM ---", p);
      } else {
        var p := "[O usuário tinha anexado o arquivo";
        StartsWithExtend("[O usuário tinha anexado o arquivo \"", a.name, p);
        StartsWithExtend("[O usuário tinha anexado o arquivo \"" + a.name, "\" mas o conteúdo não foi lido.]", p);
      }
    }
  }

  /** The new turn: the prompt, untouched, is its last part exactly when its trim is
      non-empty; an attachment's part comes before it. */
  lemma NewTurnOrder(prompt: string, attachment: Option<Attachment>)
    ensures var turn := NewTurnParts(prompt, attachment);
      && |turn| == (if attachment.Some? then 1 else 0) + (if Trim(prompt) != "" then 1 else 0)
      && (Trim(prompt) != "" <==> |turn| > 0 && turn[|turn| - 1] == Text(prompt)
                                  && (attachment.Some? ==> |turn| == 2))
      && (attachment.Some? ==> turn[0] == (if IsImage(attachment.value.mimeType)
                                           then InlineData(attachment.value.mimeType, attachment.value.data)
                                           else Text(NewFileText(attachment.value))))
  {
  }

  lemma {:induction false} FilterMembers(cs: seq<Content>)
    ensures var r := FilterContents(cs);
      && (forall c :: c in r ==> IsUseful(c) && c in cs)
      && (forall c :: c in cs && IsUseful(c) ==> c in r)
  {
    if |cs| > 0 {
      var n := |cs| - 1;
      FilterMembers(cs[..n]);
      assert cs == cs[..n] + [cs[n]];
    }
  }

  lemma {:induction false} FilterSubsequence(cs: seq<Content>)
    ensures IsSubsequence(FilterContents(cs), cs)
  {
    if |cs| > 0 {
      var n := |cs| - 1;
      FilterSubsequence(cs[..n]);
      var rest := FilterContents(cs[..n]);
      if IsUseful(cs[n]) {
        assert (rest + [cs[n]])[..|rest|] == rest;
      }
    }
  }

  /** Filtering keeps exactly the useful contents, in their order. */
  lemma FilterSpec(cs: seq<Content>)
    ensures var r := FilterContents(cs);
      && (forall c :: c in r ==> IsUseful(c) && c in cs)
      && (forall c :: c in cs && IsUseful(c) ==> c in r)
      && IsSubsequence(r, cs)
  {
    FilterMembers(cs);
    FilterSubsequence(cs);
  }

  /** Filtering keeps every copy and the order: filtering a concatenation is concatenating
      the filtered parts. */
  lemma {:induction false} FilterAppend(a: seq<Content>, b: seq<Content>)
    ensures FilterContents(a + b) == FilterContents(a) + FilterContents(b)
    decreases |b|
  {
    if |b| == 0 {
      assert a + b == a;
    } else {
      var n := |b| - 1;
      FilterAppend(a, b[..n]);
      assert (a + b)[..|a + b| - 1] == a + b[..n];
      assert (a + b)[|a + b| - 1] == b[n];
    }
  }

  /** A single content is kept exactly when it is useful. */
  lemma FilterOne(c: Content)
    ensures FilterContents([c]) == if IsUseful(c) then [c] else []
  {
    assert [c][..0] == [];
  }

  /** Filtering a second time removes nothing more. */
  lemma {:induction false} FilterIdempotent(cs: seq<Content>)
    ensures FilterContents(FilterContents(cs)) == FilterContents(cs)
  {
    if |cs| > 0 {
      var n := |cs| - 1;
      FilterIdempotent(cs[..n]);
      var rest := FilterContents(cs[..n]);
      if IsUseful(cs[n]) {
        assert (rest + [cs[n]])[..|rest|] == rest;
      }
    }
  }

  // ----- the imperative content building of generateStream -----

  /** The callback that turns one history message into a content by pushing its parts. */
  method HistoryContent(msg: Message) returns (c: Content)
    ensures c == Content(msg.role, MessageParts(msg))
  {
    var parts: seq<Part> := [];
    if msg.attachment.Some? {
      var a := msg.attachment.value;
      if StartsWith(a.mimeType, "image/") {
        parts := parts + [InlineData(a.mimeType, a.data)];
      } else {
        var fileContext := "";
        if msg.role == User && a.data != "" {
          fileContext := "Contexto de um arquivo anterior chamado \"" + a.name + "\":\n\n--- CONTEÚDO ---\n" + a.data + "\n--- FIM ---";
        } else if msg.role == User {
          fileContext := "[O usuário tinha anexado o arquivo \"" + a.name + "\" mas o conteúdo não foi lido.]";
        }
        if fileContext != "" {
          parts := parts + [Text(fileContext)];
        }
      }
    }
    if msg.content != "" {
      parts := parts + [Text(msg.content)];
    }
    c := Content(msg.role, parts);
  }

  /** The parts of the new user turn, pushed one by one. */
  method NewTurn(newPrompt: string, attachment: Option<Attachment>) returns (userParts: seq<Part>)
    ensures userParts == NewTurnParts(newPrompt, attachment)
  {
    userParts := [];
    if attachment.Some? {
      var a := attachment.value;
      if StartsWith(a.mimeType, "image/") {
        userParts := userParts + [InlineData(a.mimeType, a.data)];
      } else {
        var fileContext := NewFileText(a);
        userParts := userParts + [Text(fileContext)];
      }
    }
    if Trim(newPrompt) != "" {
      userParts := userParts + [Text(newPrompt)];
    }
  }

  /** `generateStream` up to the provider call: build the contents by pushing parts and
      contents, filter them and pick the model. */
  method BuildStreamRequest(history: seq<Message>, newPrompt: string, attachment: Option<Attachment>)
    returns (request: StreamRequest)
    ensures request.contents == FilterContents(Contents(history, newPrompt, attachment))
    ensures request.model == ModelName(ChooseModel(attachment))
    ensures request.model == "gemini-2.5-flash"
    ensures request.systemInstruction == SystemInstruction
    ensures request.maxOutputTokens == MaxOutputTokens && request.thinkingBudget == ThinkingBudget
  {
    var contents: seq<Content> := [];
    var i := 0;
    while i < |history|
      invariant 0 <= i <= |history|
      invariant |contents| == i
      invariant forall k :: 0 <= k < i ==> contents[k] == Content(history[k].role, MessageParts(history[k]))
    {
      var c := HistoryContent(history[i]);
      contents := contents + [c];
      i := i + 1;
    }
    assert contents == seq(|history|, i requires 0 <= i < |history| => Content(history[i].role, MessageParts(history[i])));

    var userParts := NewTurn(newPrompt, attachment);
    if |userParts| > 0 {
      contents := contents + [Content(User, userParts)];
    }
    assert contents == Contents(history, newPrompt, attachment);

    var filtered := FilterContents(contents);
    var model := if attachment.Some? && StartsWith(attachment.value.mimeType, "image/") then VisionModel else ChatModel;
    request := StreamRequest(ModelName(model), filtered, SystemInstruction, MaxOutputTokens, ThinkingBudget);
  }
}
