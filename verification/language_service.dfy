/** The boundary to the hosted language model. The three calls the chat page makes (reply
    generation, translation, speech synthesis) are carried as function values, so that a turn can
    be stated for every possible backend behaviour. The two degraded backends below reproduce the
    values the client wrapper returns when no API key is configured and when a call fails. */
module LanguageService {
  import opened Prelude

  /** The speaker of one line of the transcript handed to reply generation. */
  datatype Role = UserRole | ModelRole

  datatype HistoryEntry = HistoryEntry(role: Role, text: string)

  datatype TranslationResult = TranslationResult(translatedText: string, culturalContext: Option<string>)

  /** `generateReply(history, counterpartName, counterpartLanguage, userLanguage)`,
      `translate(text, targetLanguage, sourceLanguage, includeCulturalContext)` and
      `synthesize(text)`; a synthesised clip is a `data:` URL. */
  datatype Oracles = Oracles(
    generateReply: (seq<HistoryEntry>, string, string, string) -> string,
    translate: (string, string, string, bool) -> TranslationResult,
    synthesize: string -> Option<string>)

  const ReplyPlaceholder := "..."
  const MissingKeyTranslation := "API Key Missing"
  const TranslationFailedNote := "Translation failed."

  /** The backend with no API key configured: a placeholder reply, a fixed notice instead of a
      translation, and no audio. */
  function Unconfigured(): (o: Oracles)
    ensures forall h, n, l, u :: o.generateReply(h, n, l, u) == ReplyPlaceholder
    ensures forall t, tl, sl, c :: o.translate(t, tl, sl, c) == TranslationResult(MissingKeyTranslation, None)
    ensures forall t :: o.synthesize(t) == None
  {
    Oracles(
      (h, n, l, u) => ReplyPlaceholder,
      (t, tl, sl, c) => TranslationResult(MissingKeyTranslation, None),
      t => None)
  }

  /** The backend whose every call raises: the wrapper catches and answers with a placeholder
      reply, the source text echoed back with a failure note, and no audio. */
  function Failing(): (o: Oracles)
    ensures forall h, n, l, u :: o.generateReply(h, n, l, u) == ReplyPlaceholder
    ensures forall t, tl, sl, c :: o.translate(t, tl, sl, c) == TranslationResult(t, Some(TranslationFailedNote))
    ensures forall t :: o.synthesize(t) == None
  {
    Oracles(
      (h, n, l, u) => ReplyPlaceholder,
      (t, tl, sl, c) => TranslationResult(t, Some(TranslationFailedNote)),
      t => None)
  }
}
