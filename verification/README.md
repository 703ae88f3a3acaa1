# Instagram profile-check bot — verified model of its core

`Bot.py` is a Discord bot. Its `!check` command finds an Instagram profile
link in a message and fetches what it can of the profile:

- first the `?__a=1` JSON endpoint, then the HTML page and its `og:` meta tags;
- a record without `error` is meant to go into a five-minute in-memory
  cache, but the clock read that stores it raises on the worker thread the
  command runs the fetch on, so as written nothing is cached (see
  "## Findings").

It then answers with an AI summary, or with a local heuristic analysis when
the AI service is not configured or fails. This project models the
deterministic part of that pipeline in Dafny:

- `LinkExtractor`: `extract_instagram_profile_url`, the regex
  `https?://(?:www\.)?instagram\.com/[^/?#\s]+` searched leftmost and greedy,
  then `rstrip("/")`.
  - The regex is modelled as one of four literal prefixes (module
    `UrlPrefix`) followed by a non-empty run of segment characters.
  - The search, the match at one position and the strip are proved against
    declarative definitions of "match", "leftmost" and "greedy".
- `ResultCache`: `FETCH_CACHE`, `cache_set` and `cache_get`, as a class that
  owns a `map` from link to `(record, timestamp)`.
  - The event-loop clock is a `Clock` parameter: a reading, or the
    `RuntimeError` that `asyncio.get_event_loop()` raises on a thread without
    an event loop.
  - An entry expires when `now - ts > 300`, and is deleted only when it is read.
  - `cache_get` on a missing key returns before it reads the clock; on a
    present key with no readable clock it raises.
- `FollowerPattern`: the regex `([\d,\.]+)\s+followers` used on the
  `og:description` text, searched leftmost.
- `Fetcher`: the decision and record-building logic of
  `fetch_instagram_preview`.
  - The outcome of each HTTP request and the three `og:` tags are inputs.
  - The method `FetchPreview` reads and writes the cache and builds the page
    record key by key, as the source does.
  - It is proved against the function `Scrape`, which states which record
    comes back, which URLs are requested and whether the record is cached.
  - A failed `cache_set` on the JSON path is swallowed by its
    `except Exception: pass` and the page is requested; on the page path it
    becomes a `fetch error` record.
- `LocalAnalysis`: `simple_local_analysis`, the fixed messages, the four
  labelled lines with their `or` defaults, the 300-character bio cut and the
  follower heuristic.
- `CheckCommand`:
  - the not-configured guard of `openai_analyze_text`, plus the `.strip()` of
    the reply;
  - the messages `check_profile` sends, in order, as a pure function of the
    text, the configuration, what the fetch gave back (a record or an
    exception) and the AI service's answer.
- `Profile`, `Text`, `Decimal`, `Wrappers`: the Python dictionary record
  (`map<Field, Value>` with `None`, integers and strings as values), Python
  truthiness, `str()`, character classes, `strip`, and decimal rendering and
  parsing.

Python exceptions are modelled explicitly, as
`Outcome = Returned(text) | Raised(reason)` and
`Result = Success(value) | Failure(error)`, including the one the event-loop
clock raises off the main thread.

`simple_local_analysis` does not raise on any record that the page path
builds (`CheckCommand.PageResultNeverRaises`). On a JSON answer whose
`biography` is a non-zero number, `bio[:300]` raises a `TypeError`
(`CheckCommand.NumericBioRaises`). The model follows the code here. It does
not assume the function is total.

Because a matched segment never contains `/`, the `rstrip("/")` of the link
extractor never removes anything. `LinkExtractor.ExtractProfileUrl` still
applies it, and `LinkExtractor.ExtractedUrlShape` proves that the result
never ends in `/`.

## Model

| member | source | states |
|---|---|---|
| Text.RunEnd | Bot.py:58 | the end of the longest run of characters of one class starting at `k`: every character before it is in the class, the one at it is not |
| Text.RunEndExact | Bot.py:58 | a maximal run of characters of one class that starts at `k` ends exactly where the scanner stops |
| Text.Strip | Bot.py:203 | the result is a slice of the input with only whitespace removed at either end, and neither starts nor ends with whitespace |
| Text.JoinLinesLength | Bot.py:176 | `"\n".join(lines)` is as long as the lines plus one newline between each two |
| Text.JoinLinesAt | Bot.py:176 | in `"\n".join(lines)`, line `k` appears at its offset, in order, and every line but the last is followed by a newline |
| Decimal.DigitsValue | Bot.py:165 | `int()` of a digit string: zero exactly when every digit is `0` |
| Decimal.LeadingZeroIgnored | Bot.py:165 | a leading `0` does not change the value `int()` reads |
| Decimal.NatText | Bot.py:99 | the decimal text of a natural number is non-empty, all digits, reads back as the number, and has no leading zero |
| Decimal.IntText | Bot.py:99 | `str()` of an integer: a minus sign for negatives, then the magnitude's digits with no leading zero |
| Decimal.KeepDigits | Bot.py:165 | `re.sub(r"[^\d]", "", s)`: only digits remain, it is empty exactly when `s` has no digit, a single character is kept exactly when it is a digit |
| Decimal.KeepDigitsAppend | Bot.py:165 | the digits of `a + b` are the digits of `a` followed by those of `b`, so the digits of `s` are kept in order |
| Decimal.ThousandsDigits | Bot.py:165 | `"1,234"` keeps `"1234"`, which reads as 1234 |
| Profile.Get | Bot.py:146-155 | `dict.get`: the stored value for a present key, None for a missing one |
| Profile.Truthy | Bot.py:146-155 | Python truthiness of a record value: false exactly for None, 0 and the empty string |
| Profile.Or | Bot.py:152-155 | `v or default`: `v` when it is truthy, the default otherwise |
| Profile.Show | Bot.py:150-160 | `str(v)` in an f-string: a string as itself, an integer as `str()` of it, None as `None` |
| UrlPrefix.UrlPrefixesFree | Bot.py:58 | no expansion of `https?://(?:www\.)?instagram\.com/` is a proper prefix of another, so at most one applies at any position |
| UrlPrefix.PrefixShape | Bot.py:58 | every expansion of the prefix starts with `https://` or `http://` and ends in `instagram.com/` |
| LinkExtractor.PrefixOf | Bot.py:58 | finds a prefix the remaining text starts with, or shows that none does |
| LinkExtractor.PrefixOfFinds | Bot.py:58 | among prefix-free alternatives, the one the text starts with is the one found |
| LinkExtractor.MatchAtSound | Bot.py:58 | a match `MatchAt` reports at position `i` is a pattern match that cannot be extended |
| LinkExtractor.MatchedPrefix | Bot.py:58 | any pattern match at `i` begins with the prefix found there, and the rest is a non-empty segment |
| LinkExtractor.RunReaches | Bot.py:58 | a segment run reaches at least as far as any segment-only stretch starting at the same place |
| LinkExtractor.MatchAtComplete | Bot.py:58 | whenever some match starts at `i`, `MatchAt` reports one at `i`, at least as long (greedy) |
| LinkExtractor.MatchAtUnique | Bot.py:58 | the greedy match at a position is unique, and it is the one reported |
| LinkExtractor.NoMatchAt | Bot.py:58 | when `MatchAt` reports nothing at `i`, no substring starting at `i` matches |
| LinkExtractor.Search | Bot.py:61 | `search` from `i` returns a greedy match with no match starting between `i` and it, or proves there is none |
| LinkExtractor.RStripSlash | Bot.py:62 | `rstrip("/")`: a prefix of the input that does not end in `/`, and only `/` was removed |
| LinkExtractor.ExtractWith | Bot.py:60-62 | None exactly when the text holds no match; otherwise the leftmost greedy match |
| LinkExtractor.ExtractProfileUrl | Bot.py:58-62 | None exactly when the text contains no profile URL; otherwise the leftmost, greedy match of the pattern |
| LinkExtractor.ShapeFromPrefix | Bot.py:58 | a prefix followed by a non-empty segment has the profile-link shape |
| LinkExtractor.ExtractedUrlShape | Bot.py:58-62 | an extracted link starts with `http://` or `https://`, contains `instagram.com/` followed by a non-empty segment free of `/ ? #` and whitespace, and never ends in `/` |
| FollowerPattern.CountMatchAtSound | Bot.py:119 | a count `CountMatchAt` reports at `i` is a `[\d,.]+` run followed by whitespace and `followers` |
| FollowerPattern.CountMatchAtComplete | Bot.py:119 | whenever the pattern matches at `i`, `CountMatchAt` reports that match |
| FollowerPattern.SearchCount | Bot.py:119 | `re.search` from `i`: the leftmost match, or proof that no match starts at or after `i` |
| FollowerPattern.FollowersText | Bot.py:119-123 | None exactly when the description has no match; otherwise group 1 of the leftmost match |
| ResultCache.Lookup | Bot.py:43-51 | `cache_get`: a missing key gives None, a present key raises the clock's error when the clock cannot be read, and otherwise gives the record exactly when it is at most 300 s old |
| ResultCache.AfterLookup | Bot.py:43-51 | a read removes at most the key read, leaves every other entry as it was, and removes that key exactly when it held an expired entry |
| ResultCache.FetchCache.constructor | Bot.py:37 | the cache starts empty |
| ResultCache.FetchCache.Set | Bot.py:40-41 | `cache_set` stores the record with the current time, replacing any entry for the key, and raises without changing the cache when the clock cannot be read |
| ResultCache.FetchCache.Get | Bot.py:43-51 | `cache_get` returns `Lookup` and leaves the cache as `AfterLookup` says |
| ResultCache.GetAfterSet | Bot.py:38-51 | after a set at `t`, a get at `t'` hits when `t' - t <= 300` and leaves the cache alone; otherwise it misses and removes the key |
| ResultCache.LookupKeepsOtherKeys | Bot.py:43-51 | a read of one key neither changes nor removes any other key's entry |
| ResultCache.LookupClockUse | Bot.py:43-48 | a missing key gives None and changes nothing whatever the clock; a read whose clock raises changes nothing |
| ResultCache.SetReplacesEntry | Bot.py:40-41 | a second set of a key replaces record and timestamp together; later reads see only the second one |
| Fetcher.JsonRecord | Bot.py:81-89 | the JSON record has the seven profile keys, `raw_html` None, and the name, bio and avatar of the JSON user |
| Fetcher.FollowersFrom | Bot.py:113-126 | the page's follower count is None without a description tag, otherwise group 1 of the regex match, or None without a match |
| Fetcher.HttpErrorRecord | Bot.py:98-99 | `{"error": "HTTP <status>"}` with `str()` of the status |
| Fetcher.FetchErrorRecord | Bot.py:137-138 | `{"error": "fetch error: <message>"}` |
| Fetcher.PageRecord | Bot.py:104-133 | the page record has the seven profile keys; the name is the `og:title` content, the avatar the `og:image` content, the bio the description or None, the followers the regex group; `posts` and `following` are None and `raw_html` is the page |
| Fetcher.PageResult | Bot.py:96-138 | an exception gives the fetch-error record, a status other than 200 the HTTP-error record, a 200 page the page record, or the fetch-error record of the clock when `cache_set` raises |
| Fetcher.Scrape | Bot.py:74-138 | after a cache miss: cached exactly when there is no `error`, and only with a readable clock; error records hold only `error`; the JSON URL is always requested first, and the page unless the JSON answer was usable and stored |
| Fetcher.CacheHit | Bot.py:70-71 | `if cached:` holds exactly when the key is present, the clock readable, the entry at most 300 s old and the record non-empty |
| Fetcher.FetchPreview | Bot.py:64-138 | a clock failure in `cache_get` escapes with no request; a truthy cache hit is returned with no request; otherwise the outcome is `Scrape`'s, and the cache gains the record exactly when it is cached |
| Fetcher.FetchPage | Bot.py:96-138 | the page path returns `PageResult` and writes the cache exactly when the record has no `error` |
| Fetcher.BuildPageRecord | Bot.py:104-133 | the record built key by key with `setdefault` equals `PageRecord` |
| Fetcher.SetDescription | Bot.py:113-126 | the description step sets `bio` to the description text and `followers` to the regex group, both None without the tag |
| Fetcher.JsonPath | Bot.py:75-91 | on status 200 with a JSON content type, a readable body and a readable clock, the JSON fields come back with `raw_html` None, the record is cached, and the page is not requested |
| Fetcher.JsonFallsThrough | Bot.py:77-93 | any other JSON outcome, an exception or a failed `cache_set` included, falls through to the page path |
| Fetcher.PageHttpError | Bot.py:98-99 | a page status other than 200 gives exactly `{"error": "HTTP <status>"}`, not cached |
| Fetcher.PageException | Bot.py:137-138 | an exception on the page path gives exactly `{"error": "fetch error: <message>"}`, not cached |
| Fetcher.PageOk | Bot.py:96-136 | with a readable clock, a 200 page gives the page record with no `error`, cached, after both URLs were requested |
| Fetcher.WorkerThreadNeverCaches | Bot.py:90-138 | with the clock raising, nothing is cached, both URLs are requested, and a 200 page gives the fetch-error record of the clock's message |
| Fetcher.PageFollowers | Bot.py:113-126 | followers are group 1 of the leftmost `([\d,\.]+)\s+followers` match in the description, or None when there is no match or no description (the bio is then None too) |
| Fetcher.FetchTwice | Bot.py:70-72 | with a readable clock, a second fetch within the TTL of a cached record returns that record and issues no request |
| Fetcher.FetchTwiceOnWorkerThread | Bot.py:40-72 | with the clock raising on both fetches, the first returns an error record, the second requests both URLs again, and the cache is unchanged |
| LocalAnalysis.Truncate | Bot.py:158 | `s[:n]`: a prefix of at most `n` characters, the whole string when it is short enough |
| LocalAnalysis.FollowerNumber | Bot.py:163-167 | a string gives a number exactly when it contains a digit, and that number is `int()` of its digits in order; an integer is taken as is; None gives nothing |
| LocalAnalysis.HeuristicLines | Bot.py:168-172 | one line exactly when a number was read: the warning below 50, the acceptable line at 50 or more |
| LocalAnalysis.ShownBio | Bot.py:153 | the record's `bio` when it is truthy, "Pas de bio publique" otherwise |
| LocalAnalysis.SummaryLines | Bot.py:152-172 | the name, the bio cut to its first 300 characters, the followers and the avatar, each after its label and with its `or` default, then the heuristic line if any |
| LocalAnalysis.SimpleLocalAnalysis | Bot.py:141-176 | fixed message for a missing or empty record; the error message when `error` is truthy; raises exactly when the shown bio is an integer; otherwise the summary lines joined by newlines |
| LocalAnalysis.TextCountReadsAsInteger | Bot.py:163-167 | a count given as decimal text reads as the same number as the integer itself |
| LocalAnalysis.LowSample | Bot.py:169-170 | `"30"` followers gives the low-follower warning |
| LocalAnalysis.EnoughSample | Bot.py:171-172 | `"500"` followers gives the acceptable line |
| LocalAnalysis.NoDigitsNoLine | Bot.py:165-168 | a count string without a digit, such as the default `"Inconnu"`, adds no heuristic line |
| LocalAnalysis.DecimalPointSample | Bot.py:165 | `"1.5"` reads as 15, since every non-digit is dropped |
| LocalAnalysis.ThousandsSample | Bot.py:165 | `"1,234"` reads as 1234 |
| LocalAnalysis.ZeroFollowers | Bot.py:154-172 | an integer 0 is replaced by "Inconnu" and adds no line, while the text `"0"` is truthy and adds the warning |
| LocalAnalysis.TextBioNeverRaises | Bot.py:153-158 | with a bio that is text or missing, the analysis returns a message |
| CheckCommand.OpenAiAnalyzeText | Bot.py:184-204 | raises "OpenAI non configuré" when the library or the key is missing; once configured, re-raises exactly the service's error, or returns exactly the stripped reply |
| CheckCommand.SentLocal | Bot.py:241-247 | the fallback is sent when the analysis returned, and nothing is sent once it raised |
| CheckCommand.RepliesForLink | Bot.py:223-247 | fetching notice first; nothing more when the fetch raised; then the AI summary alone, or the warning before the local analysis, or the local analysis alone when the service is not configured |
| CheckCommand.CheckProfileReplies | Bot.py:216-247 | without a link, only the "no link" message; with a link, exactly the replies for the link found |
| CheckCommand.ReplyIgnoredWhenNotConfigured | Bot.py:227-247 | without a configured service, the replies do not depend on its answer |
| CheckCommand.FetchedIgnoredOnAiAnswer | Bot.py:233-235 | when the service answers, the replies do not depend on the fetched record |
| CheckCommand.HttpErrorReported | Bot.py:149-150 | an HTTP error record is reported as "Erreur lors de la récupération : HTTP <status>" |
| CheckCommand.FetchErrorReported | Bot.py:149-150 | a fetch exception is reported with its message |
| CheckCommand.PageResultNeverRaises | Bot.py:96-176 | the local analysis of any page-path record returns a message |
| CheckCommand.NumericBioRaises | Bot.py:153-158 | a JSON record whose `biography` is a non-zero number makes the local analysis raise on `bio[:300]` |

## Findings

| source | as written | input that shows it | evidently intended | confidence | as-written member | corrected member |
|---|---|---|---|---|---|---|
| Bot.py:41 | `cache_set` reads `asyncio.get_event_loop().time()`, but `fetch_instagram_preview` runs through `run_in_executor` on a worker thread with no event loop, where that call raises `RuntimeError` | any `!check` whose JSON answer is usable or whose page answers 200: the JSON record is dropped and the page requested; a 200 page comes back as `{"error": "fetch error: There is no current event loop in thread ..."}`; nothing is ever cached | the profile record is returned and kept in the cache for five minutes | not executed | Fetcher.WorkerThreadNeverCaches | Fetcher.PageOk |

The as-written behaviour is the `NoEventLoop` clock, also shown by
`Fetcher.FetchTwiceOnWorkerThread`. The intended behaviour is the `At`
clock, a clock the fetching thread can read, and `Fetcher.JsonPath`,
`Fetcher.PageOk` and `Fetcher.FetchTwice` prove it. The model keeps both,
since the clock is an input of every member that reads it.

## Left out

- HTTP requests via `requests`. Each attempt is an input: a status, a content
  type, a body (readable with `graphql.user`, or not), or an exception.
  Headers and timeouts are not modelled.
- HTML parsing via BeautifulSoup. The `og:title`, `og:description` and
  `og:image` tags are inputs, each absent, present without `content`, or
  present with it.
- JSON values other than `null`, integers and strings, such as floats,
  booleans or nested objects in a field, are not modelled. A JSON body whose
  shape makes `.get` raise is the `Unreadable` body.
- The OpenAI request itself: the system prompt, the model name, the token
  limit and the prompt that `check_profile` builds from `repr(info)`. Only
  the configuration guard, a reply's `.strip()` and the failure path are
  modelled. Python's dict `repr` and key order are not modelled.
- Discord and asyncio plumbing:
  - the bot object, `trigger_typing`, `run_in_executor`, `on_ready`;
  - the `ping` command, a fixed reply;
  - the clock, which becomes the `Clock` parameters `now`, `lookupAt` and
    `storeAt`. Whether the thread has an event loop is part of that input,
    not derived from `run_in_executor`.
- Environment loading, logging, `print` and the start-up exit: I/O.
- Concurrency: two `!check` commands whose fetches interleave on the cache
  are not modelled; each fetch is one sequential call.
- Python's `\d`, `\s` and `str.strip()` are Unicode-aware. The model uses the
  ASCII classes instead: digits `0-9`, and space, tab, newline, carriage
  return, vertical tab and form feed.
- `int()` on a digit string longer than Python's integer-conversion limit
  raises. The heuristic then adds no line, whereas the model reads any
  length.
- Timestamps are `real` numbers. Float rounding of the event-loop clock is not
  modelled.
- The `link` parameter of `simple_local_analysis` is unused in the source and
  is ignored in the model.
- The JSON-path predicate `JsonUsable` and the configuration predicate
  `AiConfigured` have no contract of their own. `Fetcher.JsonPath`,
  `Fetcher.JsonFallsThrough` and `CheckCommand.OpenAiAnalyzeText` state
  what they decide.
