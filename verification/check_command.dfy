/**
 * The `!check` command and the configuration guard of the AI helper.
 *
 * `check_profile` is a straight sequence of `ctx.send` calls; here it is the
 * list of messages it sends, in order. What `fetch_instagram_preview`
 * gave back (a record, or an exception that escapes the `await`) and the
 * AI service's answer are inputs (the network and the service are not
 * modelled), as is the configuration read at start-up.
 */
module CheckCommand {
  import opened Wrappers
  import opened Text
  import opened Profile
  import opened LinkExtractor
  import opened LocalAnalysis
  import opened Decimal
  import opened Fetcher
  import opened ResultCache

  /** `openai` imported and `OPENAI_API_KEY` from the environment (`None` when unset). */
  datatype AiConfig = AiConfig(libraryLoaded: bool, apiKey: Option<string>)

  /** `OPENAI_API_KEY and openai`: a non-empty key and a loaded library. */
  predicate AiConfigured(config: AiConfig) {
    config.libraryLoaded && config.apiKey.Some? && config.apiKey.value != ""
  }

  /** What the completion service answered: the message content, or an error it raised. */
  datatype AiReply = Completion(content: string) | ServiceError(reason: string)

  const NotConfiguredError: string := "RuntimeError: OpenAI non configur\U{E9}"

  /**
   * `openai_analyze_text(prompt)`: raises when the service is not
   * configured, re-raises the service's error, and otherwise returns the
   * reply stripped of surrounding whitespace.
   */
  function OpenAiAnalyzeText(config: AiConfig, reply: AiReply): (r: Outcome)
    ensures r.Raised? <==> !AiConfigured(config) || reply.ServiceError?
    ensures !AiConfigured(config) ==> r == Raised(NotConfiguredError)
    ensures AiConfigured(config) && reply.Completion? ==> r == Returned(Strip(reply.content))
    ensures AiConfigured(config) && reply.ServiceError? ==> r == Raised(reply.reason)
    ensures r.Returned? ==> r.text == [] || (!IsSpace(r.text[0]) && !IsSpace(r.text[|r.text| - 1]))
    ensures r.Returned? ==> exists i, j :: 0 <= i <= j <= |reply.content| && r.text == reply.content[i..j]
  {
    if !AiConfigured(config) then Raised(NotConfiguredError)
    else match reply
      case Completion(content) => Returned(Strip(content))
      case ServiceError(reason) => Raised(reason)
  }

  const NoLinkMessage: string := "Je n'ai pas trouv\U{E9} de lien Instagram valide dans ton message."
  const AiWarning: string := "\U{26A0}\U{FE0F} Erreur OpenAI (quota ou autre). J'utilise le mode fallback local."
  const AiHeader: string := "**Analyse IA :**\n"

  function FetchingMessage(profileUrl: string): string {
    "R\U{E9}cup\U{E9}ration du profil : " + profileUrl + " ..."
  }

  /** The message a `ctx.send(fallback)` sends: none when `simple_local_analysis` raised, since the command stops there. */
  function SentLocal(local: Outcome): (sent: seq<string>)
    ensures |sent| <= 1
    ensures local.Returned? ==> sent == [local.text]
    ensures local.Raised? ==> sent == []
  {
    if local.Returned? then [local.text] else []
  }

  /**
   * The messages `check_profile` sends once it has found `profileUrl`: the
   * fetching notice, then nothing more when the fetch raised, or else the
   * AI summary, or the warning and the local analysis, or the local
   * analysis alone.
   */
  function RepliesForLink(profileUrl: string, config: AiConfig, fetched: Result<Record>, reply: AiReply): (sent: seq<string>)
    ensures 1 <= |sent| <= 3 && sent[0] == FetchingMessage(profileUrl)
    ensures fetched.Failure? ==> sent == [FetchingMessage(profileUrl)]
    ensures fetched.Success? && AiConfigured(config) && reply.Completion? ==>
              sent == [FetchingMessage(profileUrl), AiHeader + Strip(reply.content)]
    ensures fetched.Success? && AiConfigured(config) && reply.ServiceError? ==>
              |sent| >= 2 && sent[1] == AiWarning
              && sent[2..] == SentLocal(SimpleLocalAnalysis(Some(fetched.value), profileUrl))
    ensures fetched.Success? && !AiConfigured(config) ==>
              sent[1..] == SentLocal(SimpleLocalAnalysis(Some(fetched.value), profileUrl))
  {
    match fetched
    case Failure(_) => [FetchingMessage(profileUrl)]
    case Success(info) =>
      var local := SimpleLocalAnalysis(Some(info), profileUrl);
      if AiConfigured(config) then
        match OpenAiAnalyzeText(config, reply)
        case Returned(analysis) => [FetchingMessage(profileUrl), AiHeader + analysis]
        case Raised(_) => [FetchingMessage(profileUrl), AiWarning] + SentLocal(local)
      else
        [FetchingMessage(profileUrl)] + SentLocal(local)
  }

  /**
   * The messages `check_profile(ctx, text=text)` sends, in order. `fetched`
   * is what `fetch_instagram_preview` gave back for the extracted link and
   * `reply` what the AI service answered.
   */
  function CheckProfileReplies(text: string, config: AiConfig, fetched: Result<Record>, reply: AiReply): (sent: seq<string>)
    ensures ExtractProfileUrl(text).None? ==> sent == [NoLinkMessage]
    ensures ExtractProfileUrl(text).Some? ==>
              sent == RepliesForLink(ExtractProfileUrl(text).value, config, fetched, reply)
  {
    match ExtractProfileUrl(text)
    case None => [NoLinkMessage]
    case Some(profileUrl) => RepliesForLink(profileUrl, config, fetched, reply)
  }

  /** Without a configured service its answer plays no part: the replies are the same whatever it would have said. */
  lemma ReplyIgnoredWhenNotConfigured(profileUrl: string, config: AiConfig, fetched: Result<Record>, reply1: AiReply, reply2: AiReply)
    requires !AiConfigured(config)
    ensures RepliesForLink(profileUrl, config, fetched, reply1) == RepliesForLink(profileUrl, config, fetched, reply2)
  {
  }

  /** When the service answers, the fetched record plays no part: the local analysis is neither computed into a message nor sent. */
  lemma FetchedIgnoredOnAiAnswer(profileUrl: string, config: AiConfig, fetched1: Result<Record>, fetched2: Result<Record>, content: string)
    requires AiConfigured(config)
    requires fetched1.Success? && fetched2.Success?
    ensures RepliesForLink(profileUrl, config, fetched1, Completion(content))
         == RepliesForLink(profileUrl, config, fetched2, Completion(content))
  {
  }

  /** A page answered with a status other than 200 is reported as `HTTP <status>` by the local analysis. */
  lemma HttpErrorReported(status: int, link: string)
    ensures SimpleLocalAnalysis(Some(HttpErrorRecord(status)), link) == Returned(ErrorPrefix + "HTTP " + IntText(status))
  {
  }

  /** An exception on the page path is reported with its message by the local analysis. */
  lemma FetchErrorReported(reason: string, link: string)
    ensures SimpleLocalAnalysis(Some(FetchErrorRecord(reason)), link) == Returned(ErrorPrefix + "fetch error: " + reason)
  {
  }

  /** Whatever the page path returns, the local analysis of it returns a message: its bio is text or missing. */
  lemma PageResultNeverRaises(page: PageAttempt, storeAt: Clock, link: string)
    ensures SimpleLocalAnalysis(Some(PageResult(page, storeAt)), link).Returned?
  {
  }

  /** A JSON answer whose `biography` is a non-zero number makes the local analysis raise on `bio[:300]`. */
  lemma NumericBioRaises(user: JsonUser, link: string)
    requires user.biography.Int? && user.biography.i != 0
    ensures SimpleLocalAnalysis(Some(JsonRecord(user)), link) == Raised(SliceIntError)
  {
    var record := JsonRecord(user);
    assert DisplayName in record;
    assert Get(record, Error) == Null;
    assert ShownBio(record) == user.biography;
  }
}
