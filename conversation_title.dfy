/**
 * `generateConversationTitle` (services/geminiService.ts:100-145) without the provider call:
 * the conversation context built from the first two messages, and the clean-up of the raw
 * title the provider returns.  The provider's answer is an input: its text, or an error.
 */
module ConversationTitle {
  import opened Wrappers
  import opened JsStrings
  import opened ChatTypes

  const DefaultTitle := "Nova Conversa"
  const ErrorTitle := "Conversa"

  datatype ProviderReply = Reply(text: string) | ProviderError

  // ----- the context sent to the provider -----

  function RoleLabel(r: Role): string {
    if r == User then "Usuário" else "Assistente"
  }

  /** The tag that names an attached file in the context. */
  function FileTag(name: string): string {
    "[ARQUIVO: " + name + "]"
  }

  /** The text of a message in the context: the file tag first when there is an attachment,
      the whole trimmed. */
  function EntryText(m: Message): string {
    match m.attachment
    case None => m.content
    case Some(a) => Trim(FileTag(a.name) + " " + m.content)
  }

  /** One line of the context: the role's label, a colon and the text. */
  function ContextEntry(m: Message): string {
    RoleLabel(m.role) + ": " + EntryText(m)
  }

  /** `messages.slice(0, 2).map(ContextEntry).join('\n\n')` */
  function TitleContext(messages: seq<Message>): string {
    var first := if |messages| < 2 then messages else messages[..2];
    Join(seq(|first|, i requires 0 <= i < |first| => ContextEntry(first[i])), "\n\n")
  }

  const PromptHead := "Analise a seguinte conversa e crie um título curto e descritivo em português, com no máximo 5 palavras. O título deve capturar a essência do assunto. Não adicione aspas nem pontuação final.\n\nConversa:\n---\n"
  const PromptTail := "\n---\n\nTítulo Sugerido:"

  /** The prompt sent to the provider: the instructions, then the context between two `---`
      lines, then the request for the title. */
  function TitlePrompt(messages: seq<Message>): string {
    PromptHead + TitleContext(messages) + PromptTail
  }

  // ----- clean-up of the raw title -----

  /** The upper-case form of a lower-case letter of the prefix pattern. */
  function UpperOf(c: char): char {
    if 'a' <= c <= 'z' then (c as int - 32) as char else if c == 'í' then 'Í' else c
  }

  /** `s` starts with `word` under the case-insensitive comparison of the `i` flag. */
  predicate StartsWithIgnoringCase(s: string, word: string) {
    |word| <= |s| && forall k :: 0 <= k < |word| ==> s[k] == word[k] || s[k] == UpperOf(word[k])
  }

  /** The length of the part of `s` matched by `(título|title)` at the start, or 0. */
  function TitleWordLength(s: string): (w: nat)
    ensures w == 0 || w == 5 || w == 6
    ensures w <= |s|
  {
    if StartsWithIgnoringCase(s, "título") then 6
    else if StartsWithIgnoringCase(s, "title") then 5
    else 0
  }

  /** Drop `:?\s*` after a matched prefix word of length `w`. */
  function AfterPrefix(s: string, w: nat): string
    requires w <= |s|
  {
    var rest := s[w..];
    var afterColon := if |rest| > 0 && rest[0] == ':' then rest[1..] else rest;
    afterColon[LeadingSpaces(afterColon)..]
  }

  /** `title.replace(/^(título|title):?\s*\/i, '')` exactly as written: the word is removed
      even when it is only the beginning of a longer word. */
  function StripTitlePrefixAsWritten(s: string): string {
    var w := TitleWordLength(s);
    if w == 0 then s else AfterPrefix(s, w)
  }

  /** The prefix removal as intended: the word goes only when it stands alone, followed by
      ':', white space or the end of the title. */
  function StripTitlePrefix(s: string): string {
    var w := TitleWordLength(s);
    if w == 0 || (w < |s| && s[w] != ':' && !IsSpace(s[w])) then s else AfterPrefix(s, w)
  }

  predicate IsTick(c: char) {
    c == '\'' || c == '`'
  }

  /** End of the match of `^"|"$|^\s*['`]|['`]\s*$` at position `p`, alternatives tried in
      order, or None. */
  function QuoteMatchAt(s: string, p: nat): (r: Option<nat>)
    requires p < |s|
    ensures r.Some? ==> p < r.value <= |s|
  {
    var w := LeadingSpaces(s);
    if p == 0 && s[0] == '"' then Some(1)
    else if p == |s| - 1 && s[p] == '"' then Some(|s|)
    else if p == 0 && w < |s| && IsTick(s[w]) then Some(w + 1)
    else if IsTick(s[p]) && SpaceBetween(s, p + 1, |s|) then Some(|s|)
    else None
  }

  /** The global replace with '' from position `p` on: every match is dropped, the scan
      resuming after it. */
  function RemoveQuoteMatches(s: string, p: nat): string
    requires p <= |s|
    decreases |s| - p
  {
    if p == |s| then ""
    else match QuoteMatchAt(s, p)
      case Some(e) => RemoveQuoteMatches(s, e)
      case None => [s[p]] + RemoveQuoteMatches(s, p + 1)
  }

  /** `.replace(/^"|"$|^\s*['`]|['`]\s*$/g, '')` */
  function StripEdgeQuotes(s: string): string {
    RemoveQuoteMatches(s, 0)
  }

  /** `.replace(/[.,!?;:]$/, '')` */
  function StripFinalPunctuation(s: string): string {
    if |s| > 0 && s[|s| - 1] in ".,!?;:" then s[..|s| - 1] else s
  }

  /** The chain of rewrites of services/geminiService.ts:134-139, with the prefix removal as
      intended. */
  function CleanTitle(raw: string): string {
    Trim(StripFinalPunctuation(StripEdgeQuotes(StripTitlePrefix(Trim(raw)))))
  }

  /** The cleaned title, or the default one when nothing is left (services/geminiService.ts:140). */
  function NormalizeTitle(raw: string): string {
    var t := CleanTitle(raw);
    if t == "" then DefaultTitle else t
  }

  /** The chain of rewrites of services/geminiService.ts:134-139 exactly as written. */
  function CleanTitleAsWritten(raw: string): string {
    Trim(StripFinalPunctuation(StripEdgeQuotes(StripTitlePrefixAsWritten(Trim(raw)))))
  }

  /** The same clean-up with the prefix removal exactly as written. */
  function NormalizeTitleAsWritten(raw: string): string {
    var t := CleanTitleAsWritten(raw);
    if t == "" then DefaultTitle else t
  }

  /** `generateConversationTitle`, with the prefix removal as intended; `provider` is the
      call to the model on the prompt. */
  function GenerateConversationTitle(messages: seq<Message>, provider: string -> ProviderReply): string {
    match provider(TitlePrompt(messages))
    case ProviderError => ErrorTitle
    case Reply(text) => NormalizeTitle(text)
  }

  /** `generateConversationTitle` exactly as written. */
  function GenerateConversationTitleAsWritten(messages: seq<Message>, provider: string -> ProviderReply): string {
    match provider(TitlePrompt(messages))
    case ProviderError => ErrorTitle
    case Reply(text) => NormalizeTitleAsWritten(text)
  }

  // ----- lemmas: the context -----

  /** The context is built from the first two messages only, one labelled entry each, joined
      by a blank line. */
  lemma TitleContextShape(messages: seq<Message>)
    ensures |messages| == 0 ==> TitleContext(messages) == ""
    ensures |messages| == 1 ==> TitleContext(messages) == ContextEntry(messages[0])
    ensures |messages| >= 2 ==>
      TitleContext(messages) == ContextEntry(messages[0]) + "\n\n" + ContextEntry(messages[1])
      && TitleContext(messages) == TitleContext(messages[..2])
  {
    if |messages| >= 2 {
      var first := messages[..2];
      assert first[..2] == first;
      var entries := seq(|first|, i requires 0 <= i < |first| => ContextEntry(first[i]));
      assert entries == [ContextEntry(messages[0]), ContextEntry(messages[1])];
      assert entries[1..] == [ContextEntry(messages[1])];
      assert Join(entries, "\n\n") == entries[0] + "\n\n" + Join(entries[1..], "\n\n");
    }
  }

  /** Trimming keeps a prefix that has no white space at its edges. */
  lemma TrimKeepsPrefix(raw: string, tag: string)
    requires StartsWith(raw, tag) && |tag| > 0
    requires !IsSpace(tag[0]) && !IsSpace(tag[|tag| - 1])
    ensures StartsWith(Trim(raw), tag)
  {
    assert raw[0] == tag[0] && raw[|tag| - 1] == tag[|tag| - 1];
    assert LeadingSpaces(raw) == 0;
    assert raw[0..] == raw;
    var k := TrailingSpaces(raw);
    assert k <= |raw| - |tag|;
    assert Trim(raw) == raw[..|raw| - k];
    assert Trim(raw)[..|tag|] == raw[..|tag|];
  }

  /** Each entry starts with the role's label; a message with an attachment shows the file
      name first. */
  lemma ContextEntryShape(m: Message)
    ensures StartsWith(ContextEntry(m), RoleLabel(m.role) + ": ")
    ensures m.attachment.None? ==> ContextEntry(m) == RoleLabel(m.role) + ": " + m.content
    ensures m.attachment.Some? ==>
      StartsWith(ContextEntry(m), RoleLabel(m.role) + ": " + FileTag(m.attachment.value.name))
    ensures m.attachment.Some? && |m.content| > 0 && !IsSpace(m.content[|m.content| - 1]) ==>
      ContextEntry(m) == RoleLabel(m.role) + ": " + FileTag(m.attachment.value.name) + " " + m.content
  {
    var head := RoleLabel(m.role) + ": ";
    var t := EntryText(m);
    StartsWithConcat(head, t, []);
    assert head + [] == head;
    if m.attachment.Some? {
      EntryTextTag(m.attachment.value, m.content);
      StartsWithConcat(head, t, FileTag(m.attachment.value.name));
      if |m.content| > 0 && !IsSpace(m.content[|m.content| - 1]) {
        ContextEntryWithFile(m);
      }
    }
  }

  /** An entry with an attachment and a content that does not end in white space is the
      label, the file tag, a space and the whole content. */
  lemma ContextEntryWithFile(m: Message)
    requires m.attachment.Some? && |m.content| > 0 && !IsSpace(m.content[|m.content| - 1])
    ensures ContextEntry(m) == RoleLabel(m.role) + ": " + FileTag(m.attachment.value.name) + " " + m.content
  {
    var head := RoleLabel(m.role) + ": ";
    var tag := FileTag(m.attachment.value.name);
    EntryTextKeepsContent(m.attachment.value, m.content);
    assert EntryText(m) == tag + " " + m.content;
    assert head + (tag + " " + m.content) == head + tag + " " + m.content;
  }

  /** Trimming keeps the whole content when it does not end in white space. */
  lemma EntryTextKeepsContent(a: Attachment, content: string)
    requires |content| > 0 && !IsSpace(content[|content| - 1])
    ensures Trim(FileTag(a.name) + " " + content) == FileTag(a.name) + " " + content
  {
    var s := FileTag(a.name) + " " + content;
    assert s[0] == '[' && s[|s| - 1] == content[|content| - 1];
    TrimNoEdge(s);
  }

  lemma EntryTextTag(a: Attachment, content: string)
    ensures StartsWith(Trim(FileTag(a.name) + " " + content), FileTag(a.name))
  {
    var tag := FileTag(a.name);
    assert tag[0] == '[' && tag[|tag| - 1] == ']';
    assert StartsWith(tag + " ", tag);
    StartsWithExtend(tag + " ", content, tag);
    TrimKeepsPrefix(tag + " " + content, tag);
  }

  // ----- lemmas: the clean-up -----

  lemma StripTitlePrefixIsInfix(s: string)
    ensures IsInfix(StripTitlePrefix(s), s)
  {
    var w := TitleWordLength(s);
    if !(w == 0 || (w < |s| && s[w] != ':' && !IsSpace(s[w]))) {
      var rest := s[w..];
      var rest' := if |rest| > 0 && rest[0] == ':' then rest[1..] else rest;
      var k := if |rest| > 0 && rest[0] == ':' then w + 1 else w;
      assert rest' == s[k..];
      assert AfterPrefix(s, w) == s[k + LeadingSpaces(rest')..|s|];
    } else {
      assert s == s[0..|s|];
    }
  }

  /** From a position past the start, the scan removes at most the tail of `s`. */
  lemma {:induction false} RemoveFromInner(s: string, p: nat)
    requires 0 < p <= |s|
    ensures exists q :: p <= q <= |s| && RemoveQuoteMatches(s, p) == s[p..q]
    decreases |s| - p
  {
    if p < |s| {
      match QuoteMatchAt(s, p)
      case Some(e) =>
        assert e == |s|;
        assert RemoveQuoteMatches(s, p) == s[p..p];
      case None =>
        RemoveFromInner(s, p + 1);
        var q :| p + 1 <= q <= |s| && RemoveQuoteMatches(s, p + 1) == s[p + 1..q];
        assert [s[p]] + s[p + 1..q] == s[p..q];
    } else {
      assert RemoveQuoteMatches(s, p) == s[p..p];
    }
  }

  lemma StripEdgeQuotesIsInfix(s: string)
    ensures IsInfix(StripEdgeQuotes(s), s)
  {
    if |s| > 0 {
      match QuoteMatchAt(s, 0)
      case Some(e) =>
        RemoveFromInner(s, e);
      case None =>
        RemoveFromInner(s, 1);
        var q :| 1 <= q <= |s| && RemoveQuoteMatches(s, 1) == s[1..q];
        assert [s[0]] + s[1..q] == s[0..q];
    } else {
      assert StripEdgeQuotes(s) == s[0..0];
    }
  }

  /** Past the start, no match begins before the final character when that character is a
      quote (it is not white space), so the scan copies up to it. */
  lemma {:induction false} RemoveUpToLastQuote(s: string, p: nat)
    requires 0 < p <= |s| - 1
    requires s[|s| - 1] == '"' || IsTick(s[|s| - 1])
    ensures RemoveQuoteMatches(s, p) == s[p..|s| - 1]
    decreases |s| - p
  {
    if p < |s| - 1 {
      assert !SpaceBetween(s, p + 1, |s|);
      RemoveUpToLastQuote(s, p + 1);
      assert [s[p]] + s[p + 1..|s| - 1] == s[p..|s| - 1];
    }
  }

  /** A title wrapped in quotes or backticks loses exactly the two wrapping characters. */
  lemma StripEdgeQuotesBoth(s: string)
    requires |s| >= 2
    requires s[0] == '"' || IsTick(s[0])
    requires s[|s| - 1] == '"' || IsTick(s[|s| - 1])
    ensures StripEdgeQuotes(s) == s[1..|s| - 1]
  {
    assert QuoteMatchAt(s, 0) == Some(1);
    RemoveUpToLastQuote(s, 1);
  }

  /** A title without white space or quotes at its edges passes unchanged. */
  lemma {:induction false} StripEdgeQuotesNone(s: string)
    requires NoEdgeSpace(s)
    requires |s| > 0 ==> s[0] != '"' && !IsTick(s[0]) && s[|s| - 1] != '"' && !IsTick(s[|s| - 1])
    ensures StripEdgeQuotes(s) == s
  {
    if |s| > 0 {
      assert LeadingSpaces(s) == 0;
      assert QuoteMatchAt(s, 0) == None;
      if |s| > 1 {
        RemoveKeepsTail(s, 1);
      }
    }
  }

  lemma {:induction false} RemoveKeepsTail(s: string, p: nat)
    requires 0 < p <= |s|
    requires |s| > 0 && !IsSpace(s[|s| - 1]) && s[|s| - 1] != '"' && !IsTick(s[|s| - 1])
    ensures RemoveQuoteMatches(s, p) == s[p..]
    decreases |s| - p
  {
    if p < |s| {
      assert p < |s| - 1 ==> !SpaceBetween(s, p + 1, |s|);
      assert QuoteMatchAt(s, p) == None;
      RemoveKeepsTail(s, p + 1);
      assert [s[p]] + s[p + 1..] == s[p..];
    }
  }

  lemma TrimmedPrefixIsInfix(raw: string)
    ensures IsInfix(StripTitlePrefix(Trim(raw)), raw)
  {
    TrimSpec(raw);
    StripTitlePrefixIsInfix(Trim(raw));
    InfixTransitive(StripTitlePrefix(Trim(raw)), Trim(raw), raw);
  }

  lemma FinalPunctuationIsInfix(s: string)
    ensures IsInfix(StripFinalPunctuation(s), s)
  {
    assert StripFinalPunctuation(s) == s[0..|StripFinalPunctuation(s)|];
  }

  /** Every rewrite keeps a contiguous piece of the provider's text, and the last trim leaves
      no white space at the edges. */
  lemma CleanTitleSpec(raw: string)
    ensures IsInfix(CleanTitle(raw), raw) && NoEdgeSpace(CleanTitle(raw))
  {
    var t1 := StripTitlePrefix(Trim(raw));
    var t2 := StripEdgeQuotes(t1);
    var t3 := StripFinalPunctuation(t2);
    TrimmedPrefixIsInfix(raw);
    StripEdgeQuotesIsInfix(t1);
    InfixTransitive(t2, t1, raw);
    FinalPunctuationIsInfix(t2);
    InfixTransitive(t3, t2, raw);
    TrimSpec(t3);
    InfixTransitive(Trim(t3), t3, raw);
  }

  /** A cleaned title is never empty and has no white space at its edges; it is the default
      title or a contiguous piece of the provider's text. */
  lemma NormalizeTitleSpec(raw: string)
    ensures var r := NormalizeTitle(raw);
      r != "" && NoEdgeSpace(r) && (r == DefaultTitle || IsInfix(r, raw))
  {
    CleanTitleSpec(raw);
    assert NoEdgeSpace(DefaultTitle);
  }

  /** The provider is asked with the prompt around the context of the first two messages; its
      error gives "Conversa", and its reply a non-empty title without white space at its edges
      that is the default title or a contiguous piece of the reply. */
  lemma GenerateConversationTitleSpec(messages: seq<Message>, provider: string -> ProviderReply)
    ensures var reply := provider(PromptHead + TitleContext(messages) + PromptTail);
      && (reply.ProviderError? ==> GenerateConversationTitle(messages, provider) == ErrorTitle)
      && (reply.Reply? ==> var r := GenerateConversationTitle(messages, provider);
            r != "" && NoEdgeSpace(r) && (r == DefaultTitle || IsInfix(r, reply.text)))
  {
    var reply := provider(TitlePrompt(messages));
    if reply.Reply? {
      NormalizeTitleSpec(reply.text);
    }
  }

  lemma StripTitlePrefixAsWrittenIsInfix(s: string)
    ensures IsInfix(StripTitlePrefixAsWritten(s), s)
  {
    var w := TitleWordLength(s);
    if w != 0 {
      var rest := s[w..];
      var rest' := if |rest| > 0 && rest[0] == ':' then rest[1..] else rest;
      var k := if |rest| > 0 && rest[0] == ':' then w + 1 else w;
      assert rest' == s[k..];
      assert AfterPrefix(s, w) == s[k + LeadingSpaces(rest')..|s|];
    } else {
      assert s == s[0..|s|];
    }
  }

  /** The as-written chain also keeps a contiguous piece of the provider's text without white
      space at its edges. */
  lemma CleanTitleAsWrittenSpec(raw: string)
    ensures IsInfix(CleanTitleAsWritten(raw), raw) && NoEdgeSpace(CleanTitleAsWritten(raw))
  {
    var t0 := Trim(raw);
    var t1 := StripTitlePrefixAsWritten(t0);
    var t2 := StripEdgeQuotes(t1);
    var t3 := StripFinalPunctuation(t2);
    TrimSpec(raw);
    StripTitlePrefixAsWrittenIsInfix(t0);
    InfixTransitive(t1, t0, raw);
    StripEdgeQuotesIsInfix(t1);
    InfixTransitive(t2, t1, raw);
    FinalPunctuationIsInfix(t2);
    InfixTransitive(t3, t2, raw);
    TrimSpec(t3);
    InfixTransitive(Trim(t3), t3, raw);
  }

  /** The as-written title is never empty either, has no white space at its edges, and is the
      default title or a contiguous piece of the provider's text. */
  lemma NormalizeTitleAsWrittenSpec(raw: string)
    ensures var r := NormalizeTitleAsWritten(raw);
      r != "" && NoEdgeSpace(r) && (r == DefaultTitle || IsInfix(r, raw))
  {
    CleanTitleAsWrittenSpec(raw);
    assert NoEdgeSpace(DefaultTitle);
  }

  /** What `generateConversationTitle` as written promises: "Conversa" on a provider error,
      otherwise a non-empty title from the reply. */
  lemma GenerateConversationTitleAsWrittenSpec(messages: seq<Message>, provider: string -> ProviderReply)
    ensures var reply := provider(PromptHead + TitleContext(messages) + PromptTail);
      && (reply.ProviderError? ==> GenerateConversationTitleAsWritten(messages, provider) == ErrorTitle)
      && (reply.Reply? ==> var r := GenerateConversationTitleAsWritten(messages, provider);
            r != "" && NoEdgeSpace(r) && (r == DefaultTitle || IsInfix(r, reply.text)))
  {
    var reply := provider(TitlePrompt(messages));
    if reply.Reply? {
      NormalizeTitleAsWrittenSpec(reply.text);
    }
  }

  /** The as-written prefix removal cuts the word "Títulos": "Títulos Públicos" becomes
      "s Públicos". */
  lemma PrefixAsWrittenCutsWord(s: string)
    requires s == "Títulos Públicos"
    ensures NormalizeTitleAsWritten(s) == "s Públicos"
  {
    var r := s[6..];
    assert r == "s Públicos";
    assert NoEdgeSpace(s);
    TrimNoEdge(s);
    CapitalTitulo(s);
    assert LeadingSpaces(r) == 0;
    assert StripTitlePrefixAsWritten(s) == r;
    assert NoEdgeSpace(r);
    StripEdgeQuotesNone(r);
    assert StripFinalPunctuation(r) == r;
    TrimNoEdge(r);
  }

  /** The intended prefix removal leaves a title that merely begins with the letters of the
      word untouched, and agrees with the as-written one whenever the word stands alone. */
  lemma PrefixOnlyWhenAlone(s: string)
    ensures var w := TitleWordLength(s);
      && (w > 0 && w < |s| && s[w] != ':' && !IsSpace(s[w]) ==> StripTitlePrefix(s) == s)
      && (!(w > 0 && w < |s| && s[w] != ':' && !IsSpace(s[w])) ==> StripTitlePrefix(s) == StripTitlePrefixAsWritten(s))
  {
  }

  /** A title that starts with the capitalised word "Título" matches the word, in six
      characters. */
  lemma CapitalTitulo(s: string)
    requires |s| >= 6 && s[..6] == "Título"
    ensures TitleWordLength(s) == 6
  {
    assert forall k :: 0 <= k < 6 ==> s[k] == "Título"[k];
    assert StartsWithIgnoringCase(s, "título") by {
      assert s[0] == UpperOf('t');
    }
  }

  /** A title the prefix removal keeps, without white space or quotes at its edges and
      without final punctuation, is its own cleaned form. */
  lemma NormalizeKeeps(s: string)
    requires |s| > 0 && StripTitlePrefix(s) == s
    requires NoEdgeSpace(s) && s[0] != '"' && !IsTick(s[0]) && s[|s| - 1] != '"' && !IsTick(s[|s| - 1])
    requires s[|s| - 1] !in ".,!?;:"
    ensures NormalizeTitle(s) == s
  {
    TrimNoEdge(s);
    StripEdgeQuotesNone(s);
  }

  /** With the intended prefix removal, "Títulos Públicos" is kept as it is. */
  lemma CorrectedKeepsWord(s: string)
    requires s == "Títulos Públicos"
    ensures NormalizeTitle(s) == s
  {
    assert StripTitlePrefix(s) == s by {
      CapitalTitulo(s);
      assert s[6] == 's';
    }
    assert |s| > 0 && NoEdgeSpace(s) && s[0] != '"' && !IsTick(s[0]) && s[|s| - 1] != '"' && !IsTick(s[|s| - 1])
        && s[|s| - 1] !in ".,!?;:" by {
      assert s[0] == 'T' && s[|s| - 1] == 's';
    }
    NormalizeKeeps(s);
  }

  /** "Título: X" and "Title: X" become X. */
  lemma LabelledTitle(s: string, x: string)
    requires TitleWordLength(s) > 0
    requires var w := TitleWordLength(s); w + 2 <= |s| && s[w] == ':' && s[w + 1] == ' ' && s[w + 2..] == x
    requires |x| > 0 ==> !IsSpace(x[0])
    ensures StripTitlePrefix(s) == x
  {
    var w := TitleWordLength(s);
    var afterColon := s[w..][1..];
    assert afterColon == s[w + 1..];
    assert afterColon[1..] == x;
    assert LeadingSpaces(afterColon) == 1;
  }

  /** When the first two rewrites give a title without white space at its edges and without
      final punctuation, that is the cleaned title. */
  lemma NormalizeSteps(raw: string, t1: string, t2: string)
    requires StripTitlePrefix(Trim(raw)) == t1 && StripEdgeQuotes(t1) == t2
    requires |t2| > 0 && !IsSpace(t2[0]) && !IsSpace(t2[|t2| - 1]) && t2[|t2| - 1] !in ".,!?;:"
    ensures NormalizeTitle(raw) == t2
  {
    TrimNoEdge(t2);
  }

  /** The shape of `Título: ` followed by a text `q`. */
  lemma LabelShape(q: string)
    requires |q| > 0
    ensures var s := "Título: " + q;
      && s[0] == 'T' && s[|s| - 1] == q[|q| - 1]
      && TitleWordLength(s) == 6 && s[6] == ':' && s[7] == ' ' && s[8..] == q
  {
    var h := "Título: ";
    var s := h + q;
    assert |h| == 8 && s[..8] == h && s[8..] == q;
    assert s[..6] == h[..6] == "Título";
    CapitalTitulo(s);
  }

  /** The steps of the clean-up for a label, a colon, a space and a quoted text `x`. */
  lemma LabelledQuotedSteps(s: string, q: string, x: string)
    requires TitleWordLength(s) > 0 && NoEdgeSpace(s)
    requires var w := TitleWordLength(s); w + 2 <= |s| && s[w] == ':' && s[w + 1] == ' ' && s[w + 2..] == q
    requires |q| >= 2 && IsTick(q[0]) && IsTick(q[|q| - 1]) && q[1..|q| - 1] == x
    requires |x| > 0 && !IsSpace(x[0]) && !IsSpace(x[|x| - 1]) && x[|x| - 1] !in ".,!?;:"
    ensures NormalizeTitle(s) == x
  {
    TrimNoEdge(s);
    LabelledTitle(s, q);
    StripEdgeQuotesBoth(q);
    NormalizeSteps(s, q, x);
  }

  /** A labelled, quoted title `Título: 'x'` is reduced to the title `x` itself. */
  lemma LabelledQuotedTitle(x: string)
    requires |x| > 0 && !IsSpace(x[0]) && !IsSpace(x[|x| - 1]) && x[|x| - 1] !in ".,!?;:"
    ensures NormalizeTitle("Título: '" + x + "'") == x
  {
    var q := "'" + x + "'";
    var s := "Título: " + q;
    assert "Título: '" + x + "'" == s;
    assert |q| >= 2 && IsTick(q[0]) && IsTick(q[|q| - 1]) && q[1..|q| - 1] == x;
    assert TitleWordLength(s) == 6 && NoEdgeSpace(s) && s[6] == ':' && s[7] == ' ' && s[8..] == q by {
      LabelShape(q);
    }
    LabelledQuotedSteps(s, q, x);
  }

  /** Quotes are removed before the final punctuation, so a quoted title followed by a full
      stop keeps its closing quote. */
  lemma QuoteBeforeFullStop(s: string)
    requires s == "'Receitas de Bolo'."
    ensures NormalizeTitle(s) == "Receitas de Bolo'"
  {
    var r := s[1..];
    var t := r[..|r| - 1];
    assert t == "Receitas de Bolo'";
    assert NoEdgeSpace(s);
    TrimNoEdge(s);
    assert TitleWordLength(s) == 0 by {
      assert s[0] != UpperOf('t') && s[0] != 't';
    }
    assert LeadingSpaces(s) == 0;
    assert QuoteMatchAt(s, 0) == Some(1);
    assert s[|s| - 1] == '.';
    RemoveKeepsTail(s, 1);
    assert StripFinalPunctuation(r) == t;
    assert NoEdgeSpace(t);
    TrimNoEdge(t);
  }
}
