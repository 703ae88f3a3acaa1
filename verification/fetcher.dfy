/**
 * The tiered fetch of `fetch_instagram_preview`: cache first, then the JSON
 * endpoint `<url>/?__a=1`, then the profile page's `og:` meta tags.
 *
 * The network and the HTML parser are not modelled: what each request
 * produced (a response or an exception) and what the parser found are inputs.
 * `Scrape` states the outcome of the two requests as a function of those
 * inputs; the method `FetchPreview` is the imperative code, which reads and
 * writes the cache and builds the page record key by key.
 *
 * `cache_set` reads the event-loop clock, which raises on a thread without an
 * event loop (`storeAt` is then `NoEventLoop`). The JSON path swallows that
 * exception and falls through to the page; the page path turns it into a
 * `fetch error` record, so nothing is cached.
 */
module Fetcher {
  import opened Wrappers
  import opened Decimal
  import opened Profile
  import opened ResultCache
  import opened FollowerPattern

  /**
   * The fields `user.get(...)` yields from `data["graphql"]["user"]`; a missing
   * key (or a missing `graphql` or `user` object) reads as `Null`.
   */
  datatype JsonUser = JsonUser(
    fullName: Value, biography: Value, postCount: Value,
    followerCount: Value, followingCount: Value, profilePicUrl: Value)

  /**
   * The body as far as the JSON path reads it. `Unreadable` stands for every
   * case in which `res.json()` or the chain of `.get` calls raises.
   */
  datatype JsonBody = Unreadable | Graph(user: JsonUser)

  /**
   * The outcome of `requests.get(url + "/?__a=1", ...)`; `contentType` is the
   * `Content-Type` header, `""` when the header is absent.
   */
  datatype JsonAttempt = JsonRaised | JsonResponse(status: int, contentType: string, body: JsonBody)

  /** What `soup.find("meta", property=...)` found: no tag, or a tag and its `content` attribute. */
  datatype MetaTag = NoTag | Tag(content: Option<string>)

  /**
   * The outcome of `requests.get(url, ...)` and of parsing the page:
   * `PageRaised(reason)` is any exception (`str(e)` is `reason`).
   */
  datatype PageAttempt =
    | PageRaised(reason: string)
    | PageResponse(status: int, html: string, title: MetaTag, description: MetaTag, image: MetaTag)

  /** Which requests were issued, which record came back, and whether it was cached. */
  datatype FetchOutcome = FetchOutcome(record: Record, requested: seq<string>, cached: bool)

  function JsonUrl(profileUrl: string): string { profileUrl + "/?__a=1" }

  /** The JSON path is taken only on status 200 with a JSON content type and a readable body. */
  predicate JsonUsable(json: JsonAttempt) {
    && json.JsonResponse?
    && json.status == 200
    && "application/json" <= json.contentType
    && json.body.Graph?
  }

  /** The record the JSON path builds (`info` at Bot.py:81-89). */
  function JsonRecord(user: JsonUser): (r: Record)
    ensures r.Keys == ProfileFields && r[RawHtml] == Null
    ensures r[DisplayName] == user.fullName && r[Bio] == user.biography && r[AvatarUrl] == user.profilePicUrl
    ensures r[Posts] == user.postCount && r[Followers] == user.followerCount && r[Following] == user.followingCount
  {
    map[DisplayName := user.fullName, Bio := user.biography,
        Posts := user.postCount, Followers := user.followerCount,
        Following := user.followingCount, AvatarUrl := user.profilePicUrl,
        RawHtml := Null]
  }

  /** `tag.get("content")` when the tag is present, else `None`. */
  function ContentOrNull(tag: MetaTag): Value {
    if tag.Tag? && tag.content.Some? then Str(tag.content.value) else Null
  }

  /** `desc.get("content", "")`. */
  function DescriptionText(tag: MetaTag): string
    requires tag.Tag?
  {
    if tag.content.Some? then tag.content.value else ""
  }

  /** `info["bio"]`: the description text when the tag is present, else `None`. */
  function DescriptionOrNull(description: MetaTag): Value {
    if description.Tag? then Str(DescriptionText(description)) else Null
  }

  /** The follower count read from the description, or `Null` without a description or a match. */
  function FollowersFrom(description: MetaTag): (v: Value)
    ensures v.Null? || v.Str?
    ensures description.NoTag? ==> v.Null?
    ensures description.Tag? ==> (v.Null? <==> FollowersText(DescriptionText(description)).None?)
    ensures v.Str? ==> FollowersText(DescriptionText(description)) == Some(v.s)
  {
    if description.NoTag? then Null
    else match FollowersText(DescriptionText(description))
      case Some(g) => Str(g)
      case None => Null
  }

  /** The error record of a non-200 page: `{"error": "HTTP <status>"}`. */
  function HttpErrorRecord(status: int): (r: Record)
    ensures r.Keys == {Error} && r[Error].Str? && "HTTP " <= r[Error].s
    ensures r[Error].s[|"HTTP "|..] == IntText(status)
  {
    map[Error := Str("HTTP " + IntText(status))]
  }

  /** The error record of an exception on the page path: `{"error": "fetch error: <reason>"}`. */
  function FetchErrorRecord(reason: string): (r: Record)
    ensures r.Keys == {Error} && r[Error].Str? && "fetch error: " <= r[Error].s
    ensures r[Error].s[|"fetch error: "|..] == reason
  {
    map[Error := Str("fetch error: " + reason)]
  }

  /** The record built from a page answered with status 200. */
  function PageRecord(page: PageAttempt): (r: Record)
    requires page.PageResponse?
    ensures r.Keys == ProfileFields
    ensures r[Posts] == Null && r[Following] == Null
    ensures r[RawHtml] == Str(page.html)
    ensures page.description.NoTag? ==> r[Bio] == Null && r[Followers] == Null
    ensures page.description.Tag? ==> r[Bio] == Str(DescriptionText(page.description))
    ensures r[DisplayName] == ContentOrNull(page.title) && r[AvatarUrl] == ContentOrNull(page.image)
    ensures r[Followers] == FollowersFrom(page.description)
  {
    map[RawHtml := Str(page.html)]
      [DisplayName := ContentOrNull(page.title)]
      [Bio := DescriptionOrNull(page.description)]
      [Followers := FollowersFrom(page.description)]
      [AvatarUrl := ContentOrNull(page.image)]
      [Posts := Null][Following := Null]
  }

  /**
   * The record of the page path: an error record, or the record built from a
   * 200 page. Storing that record calls `cache_set`; when its clock read
   * raises, the `except` turns the exception into a `fetch error` record.
   */
  function PageResult(page: PageAttempt, storeAt: Clock): (r: Record)
    ensures Error in r ==> r.Keys == {Error} && r[Error].Str? && r[Error].s != ""
    ensures Error !in r ==> r.Keys == ProfileFields && storeAt.At?
    ensures page.PageRaised? ==> r == FetchErrorRecord(page.reason)
    ensures page.PageResponse? && page.status != 200 ==> r == HttpErrorRecord(page.status)
    ensures page.PageResponse? && page.status == 200 && storeAt.At? ==> r == PageRecord(page)
    ensures page.PageResponse? && page.status == 200 && storeAt.NoEventLoop? ==> r == FetchErrorRecord(storeAt.message)
  {
    match page
    case PageRaised(reason) => FetchErrorRecord(reason)
    case PageResponse(status, _, _, _, _) =>
      if status != 200 then HttpErrorRecord(status)
      else if storeAt.NoEventLoop? then FetchErrorRecord(storeAt.message)
      else PageRecord(page)
  }

  /**
   * The two network steps of `fetch_instagram_preview` after a cache miss,
   * with `storeAt` the clock that `cache_set` reads. Only records without
   * `error` are cached; error records hold `error` alone; the page is
   * requested exactly when the JSON path did not return.
   */
  function Scrape(profileUrl: string, json: JsonAttempt, page: PageAttempt, storeAt: Clock): (o: FetchOutcome)
    ensures o.cached <==> Error !in o.record
    ensures o.cached ==> storeAt.At?
    ensures Error in o.record ==> o.record.Keys == {Error} && o.record[Error].Str? && o.record[Error].s != ""
    ensures Error !in o.record ==> o.record.Keys == ProfileFields
    ensures |o.requested| >= 1 && o.requested[0] == JsonUrl(profileUrl)
    ensures o.requested == [JsonUrl(profileUrl)] <==> JsonUsable(json) && storeAt.At?
    ensures !(JsonUsable(json) && storeAt.At?) ==> o.requested == [JsonUrl(profileUrl), profileUrl]
  {
    if JsonUsable(json) && storeAt.At? then
      FetchOutcome(JsonRecord(json.body.user), [JsonUrl(profileUrl)], true)
    else
      var r := PageResult(page, storeAt);
      FetchOutcome(r, [JsonUrl(profileUrl), profileUrl], Error !in r)
  }

  /** `if cached:` — a record read from the cache is used when it is a non-empty dictionary. */
  predicate CacheHit(entries: map<string, Entry>, profileUrl: string, now: Clock)
    ensures CacheHit(entries, profileUrl, now) <==>
              && profileUrl in entries && now.At?
              && now.time - entries[profileUrl].storedAt <= TtlSeconds
              && |entries[profileUrl].value| > 0
  {
    var hit := Lookup(entries, profileUrl, now);
    hit.Success? && hit.value.Some? && |hit.value.value| > 0
  }

  /**
   * `fetch_instagram_preview(profile_url)`. `lookupAt` is the clock that
   * `cache_get` reads, `storeAt` the one `cache_set` reads. An exception of
   * `cache_get` is not caught: the call raises it.
   */
  method FetchPreview(cache: FetchCache, profileUrl: string, lookupAt: Clock, storeAt: Clock,
                      json: JsonAttempt, page: PageAttempt)
    returns (info: Result<Record>, requested: seq<string>)
    modifies cache
    ensures var read := Lookup(old(cache.entries), profileUrl, lookupAt);
      var afterGet := AfterLookup(old(cache.entries), profileUrl, lookupAt);
      if read.Failure? then
        && info == Failure(read.error)
        && requested == []
        && cache.entries == old(cache.entries)
      else if CacheHit(old(cache.entries), profileUrl, lookupAt) then
        && info == Success(read.value.value)
        && requested == []
        && cache.entries == afterGet
      else
        var o := Scrape(profileUrl, json, page, storeAt);
        && info == Success(o.record)
        && requested == o.requested
        && cache.entries == if o.cached then afterGet[profileUrl := Entry(o.record, storeAt.time)] else afterGet
  {
    var cached := cache.Get(profileUrl, lookupAt);
    if cached.Failure? {
      return Failure(cached.error), [];
    }
    if cached.value.Some? && |cached.value.value| > 0 {
      return Success(cached.value.value), [];
    }

    requested := [JsonUrl(profileUrl)];
    if JsonUsable(json) {
      var user := json.body.user;
      var record := map[DisplayName := user.fullName, Bio := user.biography,
                        Posts := user.postCount, Followers := user.followerCount,
                        Following := user.followingCount, AvatarUrl := user.profilePicUrl,
                        RawHtml := Null];
      var stored := cache.Set(profileUrl, record, storeAt);
      if stored.Success? {
        return Success(record), requested;
      }
      // `except Exception: pass` swallows the failed `cache_set`.
    }

    // Fallback to the page and its meta tags.
    requested := requested + [profileUrl];
    var record := FetchPage(cache, profileUrl, storeAt, page);
    info := Success(record);
  }

  /** The page path of `fetch_instagram_preview` (Bot.py:96-138). */
  method FetchPage(cache: FetchCache, profileUrl: string, storeAt: Clock, page: PageAttempt)
    returns (info: Record)
    modifies cache
    ensures info == PageResult(page, storeAt)
    ensures cache.entries == if Error in info then old(cache.entries)
                             else old(cache.entries)[profileUrl := Entry(info, storeAt.time)]
  {
    match page
    case PageRaised(reason) =>
      info := map[Error := Str("fetch error: " + reason)];
    case PageResponse(status, _, _, _, _) =>
      if status != 200 {
        info := map[Error := Str("HTTP " + IntText(status))];
        return;
      }
      info := BuildPageRecord(page);
      var stored := cache.Set(profileUrl, info, storeAt);
      if stored.Failure? {
        info := map[Error := Str("fetch error: " + stored.error)];
      }
  }

  /** The `info` dictionary of a 200 page, filled in key by key as Bot.py:104-133 does. */
  method BuildPageRecord(page: PageAttempt) returns (info: Record)
    requires page.PageResponse?
    ensures info == PageRecord(page)
  {
    info := map[RawHtml := Str(page.html)];
    var title := page.title;
    if title.Tag? {
      info := info[DisplayName := if title.content.Some? then Str(title.content.value) else Null];
    } else {
      info := info[DisplayName := Null];
    }
    ghost var named := info;
    assert named == map[RawHtml := Str(page.html)][DisplayName := ContentOrNull(page.title)];
    info := SetDescription(info, page.description);
    assert info == named[Bio := DescriptionOrNull(page.description)][Followers := FollowersFrom(page.description)];
    var image := page.image;
    info := info[AvatarUrl := if image.Tag? && image.content.Some? then Str(image.content.value) else Null];
    assert Posts !in info && Following !in info;
    if Posts !in info { info := info[Posts := Null]; }
    if Following !in info { info := info[Following := Null]; }
  }

  /** The `og:description` step of the page path: `bio`, then `followers` (Bot.py:113-126). */
  method SetDescription(info: Record, description: MetaTag) returns (r: Record)
    ensures r == info[Bio := DescriptionOrNull(description)][Followers := FollowersFrom(description)]
  {
    r := info;
    if description.Tag? {
      var descText := if description.content.Some? then description.content.value else "";
      r := r[Bio := Str(descText)];
      var numMatch := FollowersText(descText);
      if numMatch.Some? {
        r := r[Followers := Str(numMatch.value)];
      } else {
        r := r[Followers := Null];
      }
    } else {
      r := r[Bio := Null];
      r := r[Followers := Null];
    }
  }

  /**
   * The JSON path: taken exactly on a usable JSON response whose record
   * `cache_set` stores; the record holds the seven keys, missing nested
   * fields as `None`, `raw_html` as `None`, and the page is not requested.
   */
  lemma JsonPath(profileUrl: string, json: JsonAttempt, page: PageAttempt, storeAt: Clock)
    requires JsonUsable(json) && storeAt.At?
    ensures var o := Scrape(profileUrl, json, page, storeAt);
      && o.record == JsonRecord(json.body.user)
      && o.record.Keys == ProfileFields && o.record[RawHtml] == Null
      && o.cached && o.requested == [JsonUrl(profileUrl)]
  {
  }

  /**
   * A JSON response that is not 200, not JSON or not readable falls through
   * to the page, and so does a usable one whose `cache_set` raised.
   */
  lemma JsonFallsThrough(profileUrl: string, json: JsonAttempt, page: PageAttempt, storeAt: Clock)
    requires !JsonUsable(json) || storeAt.NoEventLoop?
    ensures var o := Scrape(profileUrl, json, page, storeAt);
      o.record == PageResult(page, storeAt) && o.requested == [JsonUrl(profileUrl), profileUrl]
  {
  }

  /** A page answered with a status other than 200 gives exactly `{"error": "HTTP <status>"}`, not cached. */
  lemma PageHttpError(profileUrl: string, json: JsonAttempt, status: int, html: string,
                      title: MetaTag, description: MetaTag, image: MetaTag, storeAt: Clock)
    requires (!JsonUsable(json) || storeAt.NoEventLoop?) && status != 200
    ensures var o := Scrape(profileUrl, json, PageResponse(status, html, title, description, image), storeAt);
      o.record == map[Error := Str("HTTP " + IntText(status))] && !o.cached
  {
  }

  /** An exception on the page path gives `{"error": "fetch error: <reason>"}`, not cached. */
  lemma PageException(profileUrl: string, json: JsonAttempt, reason: string, storeAt: Clock)
    requires !JsonUsable(json) || storeAt.NoEventLoop?
    ensures var o := Scrape(profileUrl, json, PageRaised(reason), storeAt);
      o.record == map[Error := Str("fetch error: " + reason)] && !o.cached
  {
  }

  /**
   * A page answered with 200, when the JSON path did not return and the
   * clock is readable, gives the record built from its meta tags, with no
   * `error`, and it is cached.
   */
  lemma PageOk(profileUrl: string, json: JsonAttempt, html: string,
               title: MetaTag, description: MetaTag, image: MetaTag, storeAt: Clock)
    requires !JsonUsable(json) && storeAt.At?
    ensures var page := PageResponse(200, html, title, description, image);
      var o := Scrape(profileUrl, json, page, storeAt);
      && o.record == PageRecord(page) && Error !in o.record
      && o.cached && o.requested == [JsonUrl(profileUrl), profileUrl]
  {
  }

  /**
   * On a thread without an event loop, `cache_set` always raises: nothing is
   * cached, both URLs are requested, and even a 200 page comes back as
   * `{"error": "fetch error: <message>"}`.
   */
  lemma WorkerThreadNeverCaches(profileUrl: string, json: JsonAttempt, page: PageAttempt, message: string)
    ensures var o := Scrape(profileUrl, json, page, NoEventLoop(message));
      && !o.cached && Error in o.record
      && o.requested == [JsonUrl(profileUrl), profileUrl]
      && (page.PageResponse? && page.status == 200 ==> o.record == FetchErrorRecord(message))
  {
  }

  /**
   * The follower count of a page record is the group of the leftmost
   * `([\d,\.]+)\s+followers` match in the description, or `None` when there
   * is no description or no match.
   */
  lemma PageFollowers(page: PageAttempt)
    requires page.PageResponse?
    ensures var r := PageRecord(page);
      && (page.description.NoTag? ==> r[Bio] == Null && r[Followers] == Null)
      && (page.description.Tag? ==>
            var desc := DescriptionText(page.description);
            && r[Bio] == Str(desc)
            && (r[Followers] == Null <==> forall i: nat, e: nat :: !IsCountMatchAt(desc, i, e))
            && (r[Followers].Str? ==> exists i: nat, e: nat :: IsFirstCountMatch(desc, i, e) && r[Followers].s == desc[i..e]))
  {
  }

  /**
   * Two fetches of one link with a readable clock: when the first missed the
   * cache and produced a record without `error`, a second fetch read no later
   * than `TtlSeconds` after the first one stored it returns the same record
   * and issues no request.
   */
  method FetchTwice(cache: FetchCache, profileUrl: string,
                    lookup1: Clock, store1: real, json1: JsonAttempt, page1: PageAttempt,
                    lookup2: real, store2: Clock, json2: JsonAttempt, page2: PageAttempt)
    returns (first: Result<Record>, second: Result<Record>, requested2: seq<string>)
    requires !CacheHit(cache.entries, profileUrl, lookup1)
    requires lookup2 - store1 <= TtlSeconds
    modifies cache
    ensures first.Success? && Error !in first.value ==> second == first && requested2 == []
  {
    var requested1;
    first, requested1 := FetchPreview(cache, profileUrl, lookup1, At(store1), json1, page1);
    second, requested2 := FetchPreview(cache, profileUrl, At(lookup2), store2, json2, page2);
  }

  /**
   * Two fetches of one link from a thread without an event loop, as
   * `run_in_executor` runs them: the second finds nothing in the cache and
   * requests both URLs again.
   */
  method FetchTwiceOnWorkerThread(cache: FetchCache, profileUrl: string, message: string,
                                  json1: JsonAttempt, page1: PageAttempt,
                                  json2: JsonAttempt, page2: PageAttempt)
    returns (first: Result<Record>, second: Result<Record>, requested2: seq<string>)
    requires profileUrl !in cache.entries
    modifies cache
    ensures first.Success? && Error in first.value
    ensures requested2 == [JsonUrl(profileUrl), profileUrl]
    ensures cache.entries == old(cache.entries)
  {
    var requested1;
    first, requested1 := FetchPreview(cache, profileUrl, NoEventLoop(message), NoEventLoop(message), json1, page1);
    second, requested2 := FetchPreview(cache, profileUrl, NoEventLoop(message), NoEventLoop(message), json2, page2);
  }
}
