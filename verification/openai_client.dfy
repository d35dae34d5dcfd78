/** The boundary the two OpenAI classes share: calls into the OpenAI SDK,
    the rule that turns an SDK reply into a result, and the prompt templates
    both classes wrap around their inputs. The SDK is abstract: a function
    from the call made to the reply it gives. */
module OpenAIClient {
  import opened Php
  import opened Optional
  import opened Http

  /** The SDK resource a call goes to: `completions()`, `chat()`,
      `classifications()` or `embeddings()`. */
  datatype Resource = Completions | Chat | Classifications | Embeddings

  /** `$client->resource()->create($params)` */
  datatype SdkCall = SdkCall(resource: Resource, params: Fields)

  /** What `create` does: returns a response whose `toArray()` is `fields`,
      raises an \Exception, or raises an \Error (a missing resource method,
      say), which the classes' `catch (Exception $e)` does not catch. */
  datatype SdkReply =
    | Created(fields: Fields)
    | Raised(message: string)
    | Broke(message: string)

  type Sdk = SdkCall -> SdkReply

  /** The result rule every call of both classes follows: one SDK call, and
      `try { return create(...)->toArray(); } catch (Exception $e) { return
      ['error' => $e->getMessage()]; }` around it, which an \Error passes. */
  predicate Handled(sdk: Sdk, x: Exchange<SdkCall>) {
    && |x.sent| == 1
    && match sdk(x.sent[0])
       case Created(fields) => x.outcome == Returned(JObj(fields))
       case Raised(message) => x.outcome == Returned(ErrorResult(message))
       case Broke(message) => x.outcome == Threw(EngineError(message))
  }

  /** An \Exception from the SDK becomes `['error' => message]`; an \Error
      escapes the call. */
  predicate WrapsErrors(sdk: Sdk, x: Exchange<SdkCall>)
    requires |x.sent| == 1
  {
    && (sdk(x.sent[0]).Raised? ==> x.outcome == Returned(ErrorResult(sdk(x.sent[0]).message)))
    && (sdk(x.sent[0]).Broke? ==> x.outcome.Threw?)
  }

  /** One call and its result. */
  function Invoke(sdk: Sdk, call: SdkCall): (x: Exchange<SdkCall>)
    ensures x.sent == [call] && Handled(sdk, x)
    ensures x.outcome.Returned? <==> !sdk(call).Broke?
    ensures sdk(call).Created? ==> x.outcome == Returned(JObj(sdk(call).fields))
    ensures sdk(call).Raised? ==> x.outcome == Returned(ErrorResult(sdk(call).message))
    ensures sdk(call).Broke? ==> x.outcome == Threw(EngineError(sdk(call).message))
  {
    var outcome :=
      match sdk(call)
      case Created(fields) => Returned(JObj(fields))
      case Raised(message) => Returned(ErrorResult(message))
      case Broke(message) => Threw(EngineError(message));
    Exchange([call], outcome)
  }

  /** `s` without `prefix`, when `s` starts with it. */
  function StripPrefix(prefix: string, s: string): (r: Option<string>)
    ensures r.Some? <==> |prefix| <= |s| && s[..|prefix|] == prefix
    ensures r.Some? ==> s == prefix + r.value
  {
    if |prefix| <= |s| && s[..|prefix|] == prefix then Some(s[|prefix|..]) else None
  }

  const SummarizePrefix := "Summarize the following text:\n\n"
  const TranslatePrefix := "Translate the following text to "
  const TranslateSeparator := ":\n\n"
  const AnswerPrefix := "Answer the question based on the context below:\n\nContext: "
  const AnswerSeparator := "\n\nQuestion: "

  /** `"Summarize the following text:\n\n" . $text` */
  function SummarizePrompt(text: string): string {
    SummarizePrefix + text
  }

  /** `"Translate the following text to {$targetLanguage}:\n\n" . $text` */
  function TranslatePrompt(language: string, text: string): string {
    TranslatePrefix + language + TranslateSeparator + text
  }

  /** `"Answer the question based on the context below:\n\nContext:
      {$context}\n\nQuestion: {$question}"` */
  function AnswerPrompt(context: string, question: string): string {
    AnswerPrefix + context + AnswerSeparator + question
  }

  /** The summary prompt loses nothing: the text is what follows the fixed
      prefix, and only prompts that start with the prefix are summaries. */
  lemma SummarizeRoundTrip(text: string, p: string)
    ensures StripPrefix(SummarizePrefix, SummarizePrompt(text)) == Some(text)
    ensures StripPrefix(SummarizePrefix, p).Some? ==> SummarizePrompt(StripPrefix(SummarizePrefix, p).value) == p
  {
    assert (SummarizePrefix + text)[..|SummarizePrefix|] == SummarizePrefix;
    assert (SummarizePrefix + text)[|SummarizePrefix|..] == text;
  }

  /** The index of the first `:` at or after `from`, or `|s|` when there is none. */
  function FindColon(s: string, from: nat): (r: nat)
    requires from <= |s|
    ensures from <= r <= |s|
    ensures r < |s| ==> s[r] == ':'
    ensures forall i :: from <= i < r ==> s[i] != ':'
    decreases |s| - from
  {
    if from == |s| then |s| else if s[from] == ':' then from else FindColon(s, from + 1)
  }

  /** Reading a translation prompt back: the language runs up to the first
      `:` after the prefix, and the text starts after the separator. */
  function ParseTranslate(p: string): (r: Option<(string, string)>)
    ensures r.Some? ==> TranslatePrompt(r.value.0, r.value.1) == p
  {
    match StripPrefix(TranslatePrefix, p)
    case None => None
    case Some(s) =>
      var i := FindColon(s, 0);
      if i + 3 <= |s| && s[i..i + 3] == TranslateSeparator then
        SplitAround(p, s, i);
        Some((s[..i], s[i + 3..]))
      else None
  }

  lemma SplitAround(p: string, s: string, i: nat)
    requires p == TranslatePrefix + s
    requires i + 3 <= |s| && s[i..i + 3] == TranslateSeparator
    ensures TranslatePrompt(s[..i], s[i + 3..]) == p
  {
    assert s == s[..i] + s[i..i + 3] + s[i + 3..];
  }

  /** The first `:` of `language + rest` is the first of `rest` when the
      language holds none. */
  lemma {:induction false} FindColonAfter(language: string, rest: string, from: nat)
    requires ':' !in language && |rest| > 0 && rest[0] == ':' && from <= |language|
    ensures FindColon(language + rest, from) == |language|
    decreases |language| - from
  {
    var s := language + rest;
    if from < |language| {
      assert s[from] == language[from];
      FindColonAfter(language, rest, from + 1);
    } else {
      assert s[from] == ':';
    }
  }

  /** A language without `:` can be read back, together with the text, from
      the translation prompt. */
  lemma TranslateRoundTrip(language: string, text: string)
    requires ':' !in language
    ensures ParseTranslate(TranslatePrompt(language, text)) == Some((language, text))
  {
    var p := TranslatePrompt(language, text);
    var s := language + TranslateSeparator + text;
    assert p == TranslatePrefix + s;
    assert p[..|TranslatePrefix|] == TranslatePrefix;
    assert p[|TranslatePrefix|..] == s;
    assert s == language + (TranslateSeparator + text);
    FindColonAfter(language, TranslateSeparator + text, 0);
    assert s[..|language|] == language;
    assert s[|language|..|language| + 3] == TranslateSeparator;
    assert s[|language| + 3..] == text;
  }

  /** A language that itself holds the separator makes the prompt ambiguous:
      two different (language, text) pairs give the same prompt. */
  lemma TranslateAmbiguous()
    ensures TranslatePrompt("a:\n\nb", "c") == TranslatePrompt("a", "b:\n\nc")
  {
  }

  /** For a fixed context the question can be read back from the answer
      prompt, so different questions give different prompts. */
  lemma AnswerQuestionRecoverable(context: string, q1: string, q2: string)
    ensures var n := |AnswerPrefix + context + AnswerSeparator|;
      AnswerPrompt(context, q1)[n..] == q1
    ensures AnswerPrompt(context, q1) == AnswerPrompt(context, q2) ==> q1 == q2
  {
    var head := AnswerPrefix + context + AnswerSeparator;
    assert AnswerPrompt(context, q1) == head + q1;
    assert AnswerPrompt(context, q2) == head + q2;
    assert (head + q1)[|head|..] == q1;
    assert (head + q2)[|head|..] == q2;
  }

  /** A context holding the question marker is ambiguous with a shorter one. */
  lemma AnswerAmbiguous()
    ensures AnswerPrompt("c\n\nQuestion: x", "y") == AnswerPrompt("c", "x\n\nQuestion: y")
  {
  }
}
