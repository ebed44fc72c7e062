/**
 * The summary policy of the ingest pipeline: which text is summarised, when the
 * summarisation model is asked at all, what reaches it, and what replaces its
 * answer when it fails. The model itself is a parameter.
 */
module Summarizer {
  import opened Text
  import opened Types

  /** What one call of the summarisation pipeline gives: a summary, or an exception. */
  datatype ModelOutcome = Generated(summary: string) | Failed

  /** The model: `(input_text, max_length, min_length)` to an outcome. */
  type Model = (string, nat, nat) -> ModelOutcome

  const MAX_LENGTH: nat := 150
  const MIN_LENGTH: nat := 50
  /** Texts whose stripped length is below this are returned as they are. */
  const MIN_SUMMARIZABLE: nat := 100
  /** The model sees at most this many leading characters. */
  const MODEL_INPUT_LIMIT: nat := 1024
  /** Characters kept by the fallback and by the short-text branch. */
  const EXCERPT_LENGTH: nat := 200
  const ELLIPSIS: string := "..."
  const NO_SUMMARY: string := "No summary available."

  /** `text[:1024]`: what the model is given. */
  function ModelInput(text: string): (input: string)
    ensures |input| <= MODEL_INPUT_LIMIT && |input| <= |text|
    ensures input == text[..|input|]
    ensures |text| <= MODEL_INPUT_LIMIT ==> input == text
  {
    Take(text, MODEL_INPUT_LIMIT)
  }

  /** `text[:200] + "..."`: what replaces the summary when the model fails. */
  function Fallback(text: string): (r: string)
    ensures |r| == (if |text| < EXCERPT_LENGTH then |text| else EXCERPT_LENGTH) + |ELLIPSIS|
    ensures r[..|r| - |ELLIPSIS|] == text[..|r| - |ELLIPSIS|]
    ensures r[|r| - |ELLIPSIS|..] == ELLIPSIS
  {
    Take(text, EXCERPT_LENGTH) + ELLIPSIS
  }

  /** `not text or len(text.strip()) < 100`: too little to summarise. */
  predicate TooShort(text: string) {
    text == "" || |Strip(text)| < MIN_SUMMARIZABLE
  }

  /**
   * `generate_summary(text)`: short texts come back unchanged; otherwise the
   * model's summary of the first 1024 characters, or the fallback excerpt
   * when the model fails.
   */
  function GenerateSummary(text: string, model: Model): (summary: string)
    ensures TooShort(text) ==> summary == text
    ensures !TooShort(text) && model(ModelInput(text), MAX_LENGTH, MIN_LENGTH).Generated? ==>
      summary == model(ModelInput(text), MAX_LENGTH, MIN_LENGTH).summary
    ensures !TooShort(text) && model(ModelInput(text), MAX_LENGTH, MIN_LENGTH).Failed? ==>
      summary == Fallback(text)
  {
    if TooShort(text) then text
    else
      match model(ModelInput(text), MAX_LENGTH, MIN_LENGTH)
      case Generated(s) => s
      case Failed => Fallback(text)
  }

  /** A text of fewer than 100 characters is never sent to the model. */
  lemma ShortTextUnchanged(text: string, model: Model)
    requires |text| < MIN_SUMMARIZABLE
    ensures GenerateSummary(text, model) == text
  {
  }

  /**
   * Whatever the model does, a summarisable text yields either the model's
   * answer for a prefix of at most 1024 characters of it, or an excerpt of at
   * most 200 of its leading characters followed by "...".
   */
  lemma GenerateSummaryCases(text: string, model: Model)
    requires !TooShort(text)
    ensures var summary := GenerateSummary(text, model);
      || (exists n | 0 <= n <= MODEL_INPUT_LIMIT && n <= |text| ::
            model(text[..n], MAX_LENGTH, MIN_LENGTH) == Generated(summary))
      || (summary == text[..|summary| - |ELLIPSIS|] + ELLIPSIS && |summary| <= EXCERPT_LENGTH + |ELLIPSIS|)
  {
    var input := ModelInput(text);
    if model(input, MAX_LENGTH, MIN_LENGTH).Generated? {
      assert text[..|input|] == input;
    } else {
      var summary := GenerateSummary(text, model);
      assert summary[..|summary| - |ELLIPSIS|] == Take(text, EXCERPT_LENGTH);
    }
  }

  /** `article.get('full_text', '') or article.get('summary', '')`. */
  function TextToSummarize(a: FeedArticle): (text: string)
    ensures a.fullText != "" ==> text == a.fullText
    ensures a.fullText == "" ==> text == a.summary
  {
    if a.fullText != "" then a.fullText else a.summary
  }

  /**
   * `summarize_article(article)`: a text longer than 200 characters is
   * summarised; otherwise an empty summary becomes the text's first 200
   * characters, or "No summary available." when there is no text; every other
   * summary, and every other field, stays as it was.
   */
  function SummarizeArticle(a: FeedArticle, model: Model): (r: FeedArticle)
    ensures r == a.(summary := r.summary)
    ensures |TextToSummarize(a)| > EXCERPT_LENGTH ==> r.summary == GenerateSummary(TextToSummarize(a), model)
    ensures |TextToSummarize(a)| <= EXCERPT_LENGTH && a.summary == "" ==>
      r.summary == if TextToSummarize(a) == "" then NO_SUMMARY else TextToSummarize(a)
    ensures |TextToSummarize(a)| <= EXCERPT_LENGTH && a.summary != "" ==> r.summary == a.summary
  {
    var text := TextToSummarize(a);
    if text != "" && |text| > EXCERPT_LENGTH then a.(summary := GenerateSummary(text, model))
    else if a.summary == "" then a.(summary := if text != "" then Take(text, EXCERPT_LENGTH) else NO_SUMMARY)
    else a
  }

  /** Without a long text the article always ends up with a non-empty summary. */
  lemma ShortTextGetsSummary(a: FeedArticle, model: Model)
    requires |TextToSummarize(a)| <= EXCERPT_LENGTH
    ensures SummarizeArticle(a, model).summary != ""
  {
  }

  /** An article with no text at all gets the placeholder summary. */
  lemma NoTextPlaceholder(a: FeedArticle, model: Model)
    requires a.fullText == "" && a.summary == ""
    ensures SummarizeArticle(a, model).summary == NO_SUMMARY
  {
  }

  /**
   * Summarising twice changes nothing more when the first pass kept a short
   * text's summary: the policy is idempotent on articles without long text.
   */
  lemma SummarizeShortIdempotent(a: FeedArticle, model: Model)
    requires a.fullText != "" && |a.fullText| <= EXCERPT_LENGTH
    ensures SummarizeArticle(SummarizeArticle(a, model), model) == SummarizeArticle(a, model)
  {
  }
}
