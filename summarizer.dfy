/** The summarizer: an empty-text guard, truncation of the article to a
    fixed number of characters, and a single call to the generative model
    whose failure becomes a fixed message. */
module Summarizer {

  /** Returned without any model call when no article text was extracted. */
  const NoTextMessage := "記事の本文を取得できませんでした。"

  /** Returned when configuring, calling or reading the model raises. */
  const ApiErrorMessage := "要約の生成中にエラーが発生しました。"

  /** At most this many characters of article text go into a prompt. */
  const MaxArticleChars: nat := 8000

  /** The instruction placed before the article text; "300" is the target
      summary length (MAX_SUMMARY_LENGTH, news_collector.py:21) as the format
      string renders it. */
  const Preamble := "以下のニュース記事を日本語で300字程度の箇条書きで要約してください。重要なポイントを3つに絞ってください。\n\n---\n"

  /** What one call to the model yields: the response text, or an
      exception raised anywhere in the call, including while configuring
      the client or building the model before any request is made. */
  datatype Reply = Generated(text: string) | Raised

  /** One run of the summarizer: the prompt the single model call is made
      with (none when the call is skipped), and the string handed back to
      the caller. */
  datatype Summary = Summary(prompts: seq<string>, text: string)

  /** Python's text[:8000]. */
  function Clip(text: string): (r: string)
    ensures |r| == if |text| <= MaxArticleChars then |text| else MaxArticleChars
    ensures r <= text
  {
    if |text| <= MaxArticleChars then text else text[..MaxArticleChars]
  }

  /** The prompt built for a piece of article text. */
  function Prompt(text: string): string
  {
    Preamble + Clip(text)
  }

  /** The prompt is the fixed preamble followed by at most 8000 characters,
      which form a prefix of the article text, and all of it when the text
      is short enough. */
  lemma PromptShape(text: string)
    ensures var p := Prompt(text);
            && |Preamble| <= |p| <= |Preamble| + MaxArticleChars
            && p[..|Preamble|] == Preamble
            && p[|Preamble|..] <= text
            && (|text| <= MaxArticleChars ==> p[|Preamble|..] == text)
  {
  }

  /** Summarizes article text with the model `gemini`. */
  function Summarize(text: string, gemini: string -> Reply): (s: Summary)
    ensures s.prompts == [] <==> text == []
    ensures text == [] ==> s.text == NoTextMessage
    ensures text != [] ==> s.prompts == [Prompt(text)]
    ensures text != [] && gemini(Prompt(text)).Raised? ==> s.text == ApiErrorMessage
    ensures text != [] && gemini(Prompt(text)).Generated? ==> s.text == gemini(Prompt(text)).text
  {
    if text == [] then
      Summary([], NoTextMessage)
    else
      var prompt := Prompt(text);
      match gemini(prompt)
      case Generated(response) => Summary([prompt], response)
      case Raised => Summary([prompt], ApiErrorMessage)
  }

  /** Two texts that agree on their first 8000 characters produce the same
      prompt, so the model never sees anything past that point. */
  lemma PromptIgnoresTail(a: string, b: string)
    requires |a| >= MaxArticleChars && |b| >= MaxArticleChars
    requires a[..MaxArticleChars] == b[..MaxArticleChars]
    ensures Prompt(a) == Prompt(b)
  {
  }
}
