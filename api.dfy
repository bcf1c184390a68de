/**
 * The Jikan REST client of the fan site: one rate-limited fetch helper with a
 * single, global "time of the last request", the classification of HTTP
 * failures into error messages, and the eight resource accessors that build a
 * URL, fetch it, unwrap the response envelope and re-raise failures with a
 * resource-specific prefix.
 *
 * Time, the network and JSON parsing are inputs: every call is told the two
 * clock readings it takes (before deciding to wait, and just before sending)
 * and what `fetch` produced.
 */
module Api {
  import opened Wrappers
  import opened Text

  const JikanApiBase: string := "https://api.jikan.moe/v4"

  /** The smallest gap, in milliseconds, between two requests issued one after the other. */
  const MinRequestInterval: int := 350

  /** A parsed JSON value, plus `undefined`, which is what reading an absent property gives. */
  datatype Value =
    | Undefined
    | Null
    | Bool(b: bool)
    | Num(n: int)
    | Str(s: string)
    | Arr(items: seq<Value>)
    | Obj(fields: map<string, Value>)

  /** What `response.json()` yields: the parsed body, or the rejection of a body that is not JSON. */
  datatype Body = Parsed(json: Value) | Unparsable(message: string)

  datatype Response = Response(status: nat, statusText: string, body: Body)

  /** What `fetch(url)` yields: a response, or a rejection (DNS, refused connection, ...). */
  datatype FetchOutcome = Received(response: Response) | NetworkFailure(message: string)

  /** Why `rateLimitedFetch` threw. */
  datatype FetchError =
    | RateLimited
    | HttpFailure(status: nat, statusText: string)
    | Network(message: string)
    | BadBody(message: string)

  /** `response.ok`: a status in the range 200-299. */
  predicate IsOk(status: nat) { 200 <= status <= 299 }

  const RateLimitMessage: string := "Rate limit exceeded. Please wait a moment and try again."

  /** The `message` of the error `rateLimitedFetch` throws. */
  function ErrorMessage(e: FetchError): string
  {
    match e
    case RateLimited => RateLimitMessage
    case HttpFailure(status, statusText) => "API request failed: " + Decimal(status) + " " + statusText
    case Network(message) => message
    case BadBody(message) => message
  }

  /**
   * Everything `rateLimitedFetch` does after sending: reject a failed
   * transport, reject a non-ok status (429 apart from the rest), or return
   * the parsed body. There is no second attempt.
   */
  function CheckResponse(outcome: FetchOutcome): (r: Result<Value, FetchError>)
    ensures r.Success? <==> outcome.Received? && IsOk(outcome.response.status) && outcome.response.body.Parsed?
    ensures r.Success? ==> r.value == outcome.response.body.json
    ensures r == Failure(RateLimited) <==> outcome.Received? && outcome.response.status == 429
    ensures (r.Failure? && r.error.HttpFailure?) <==>
      outcome.Received? && !IsOk(outcome.response.status) && outcome.response.status != 429
    ensures r.Failure? && r.error.HttpFailure? ==>
      r.error == HttpFailure(outcome.response.status, outcome.response.statusText)
    ensures (r.Failure? && r.error.Network?) <==> outcome.NetworkFailure?
  {
    match outcome
    case NetworkFailure(message) => Failure(Network(message))
    case Received(response) =>
      if !IsOk(response.status) then
        if response.status == 429 then Failure(RateLimited)
        else Failure(HttpFailure(response.status, response.statusText))
      else
        match response.body
        case Parsed(json) => Success(json)
        case Unparsable(message) => Failure(BadBody(message))
  }

  /** The delay `rateLimitedFetch` awaits before sending, given the clock reading and the last send time. */
  function Wait(now: int, lastRequestTime: int): int
  {
    var timeSinceLastRequest := now - lastRequestTime;
    if timeSinceLastRequest < MinRequestInterval then MinRequestInterval - timeSinceLastRequest else 0
  }

  /**
   * The delay is what is missing from the minimum interval, and never more
   * than the whole interval exactly when the clock has not gone backwards.
   */
  lemma WaitBounds(now: int, lastRequestTime: int)
    ensures Wait(now, lastRequestTime) >= 0
    ensures now - lastRequestTime < MinRequestInterval ==>
      now + Wait(now, lastRequestTime) == lastRequestTime + MinRequestInterval
    ensures now - lastRequestTime >= MinRequestInterval ==> Wait(now, lastRequestTime) == 0
    ensures Wait(now, lastRequestTime) <= MinRequestInterval <==> now >= lastRequestTime
  {
  }

  /** One request the client put on the network: when, and to which URL. */
  datatype Request = Request(sentAt: int, url: string)

  /** Consecutive requests are at least the minimum interval apart. */
  ghost predicate Spaced(requests: seq<Request>)
  {
    forall i :: 0 < i < |requests| ==> requests[i - 1].sentAt + MinRequestInterval <= requests[i].sentAt
  }

  /** Which of the eight accessors, with its arguments. */
  datatype Resource =
    | AnimeDetails(animeId: nat)
    | AnimeCharacters(animeId: nat)
    | AnimeEpisodes(animeId: nat, page: nat)
    | AnimeStaff(animeId: nat)
    | AnimeReviews(animeId: nat, page: nat)
    | AnimeRecommendations(animeId: nat)
    | AnimeNews(animeId: nat, page: nat)
    | CharacterDetails(characterId: nat)
  {
    /** Episodes, reviews and news come in pages and keep their whole envelope. */
    predicate Paginated() { AnimeEpisodes? || AnimeReviews? || AnimeNews? }

    /** The words in the accessor's error prefix. */
    function Label(): string
    {
      match this
      case AnimeDetails(_) => "anime details"
      case AnimeCharacters(_) => "characters"
      case AnimeEpisodes(_, _) => "episodes"
      case AnimeStaff(_) => "staff"
      case AnimeReviews(_, _) => "reviews"
      case AnimeRecommendations(_) => "recommendations"
      case AnimeNews(_, _) => "news"
      case CharacterDetails(_) => "character details"
    }
  }

  /** The URL each accessor requests. */
  function Url(r: Resource): (url: string)
    ensures |JikanApiBase| <= |url| && url[..|JikanApiBase|] == JikanApiBase
  {
    match r
    case AnimeDetails(id) => JikanApiBase + "/anime/" + Decimal(id)
    case AnimeCharacters(id) => JikanApiBase + "/anime/" + Decimal(id) + "/characters"
    case AnimeEpisodes(id, page) => JikanApiBase + "/anime/" + Decimal(id) + "/episodes?page=" + Decimal(page)
    case AnimeStaff(id) => JikanApiBase + "/anime/" + Decimal(id) + "/staff"
    case AnimeReviews(id, page) => JikanApiBase + "/anime/" + Decimal(id) + "/reviews?page=" + Decimal(page)
    case AnimeRecommendations(id) => JikanApiBase + "/anime/" + Decimal(id) + "/recommendations"
    case AnimeNews(id, page) => JikanApiBase + "/anime/" + Decimal(id) + "/news?page=" + Decimal(page)
    case CharacterDetails(id) => JikanApiBase + "/characters/" + Decimal(id) + "/full"
  }

  predicate StartsWith(s: string, prefix: string) { |prefix| <= |s| && s[..|prefix|] == prefix }

  /** A page number written after a fixed query prefix, as in `?page=N`. */
  function PageAfter(tail: string, prefix: string): Option<nat>
  {
    if StartsWith(tail, prefix) && |tail| > |prefix| && AllDigits(tail[|prefix|..])
    then Some(DigitsValue(tail[|prefix|..]))
    else None
  }

  /** What follows the id in an `/anime/{id}` URL, read back as the resource. */
  function AnimeResourceOf(id: nat, tail: string): Option<Resource>
  {
    if tail == "" then Some(AnimeDetails(id))
    else if tail == "/characters" then Some(AnimeCharacters(id))
    else if tail == "/staff" then Some(AnimeStaff(id))
    else if tail == "/recommendations" then Some(AnimeRecommendations(id))
    else if PageAfter(tail, "/episodes?page=").Some? then Some(AnimeEpisodes(id, PageAfter(tail, "/episodes?page=").value))
    else if PageAfter(tail, "/reviews?page=").Some? then Some(AnimeReviews(id, PageAfter(tail, "/reviews?page=").value))
    else if PageAfter(tail, "/news?page=").Some? then Some(AnimeNews(id, PageAfter(tail, "/news?page=").value))
    else None
  }

  /** The resource a request URL asks for, if it is one the accessors build. */
  function ResourceOf(url: string): Option<Resource>
  {
    if StartsWith(url, JikanApiBase) then PathResource(url[|JikanApiBase|..]) else None
  }

  /** The resource named by the path after the API base. */
  function PathResource(path: string): Option<Resource>
  {
    if StartsWith(path, "/anime/") then AnimePathResource(path[7..])
    else if StartsWith(path, "/characters/") then CharacterPathResource(path[12..])
    else None
  }

  /** What follows `/anime/`: an id, then the resource's tail. */
  function AnimePathResource(rest: string): Option<Resource>
  {
    var n := LeadingDigits(rest);
    if n == 0 then None else AnimeResourceOf(DigitsValue(rest[..n]), rest[n..])
  }

  /** What follows `/characters/`: an id, then `/full`. */
  function CharacterPathResource(rest: string): Option<Resource>
  {
    var n := LeadingDigits(rest);
    if n == 0 || rest[n..] != "/full" then None else Some(CharacterDetails(DigitsValue(rest[..n])))
  }

  /** A URL on the API base is read by its path. */
  lemma BaseStripped(path: string)
    ensures ResourceOf(JikanApiBase + path) == PathResource(path)
  {
    var url := JikanApiBase + path;
    assert url[..|JikanApiBase|] == JikanApiBase;
    assert url[|JikanApiBase|..] == path;
  }

  /** An id printed in decimal and followed by a non-digit reads back as the id and that tail. */
  lemma IdThenTail(id: nat, tail: string)
    requires tail == [] || !IsDigit(tail[0])
    ensures var rest := Decimal(id) + tail;
      var n := LeadingDigits(rest);
      && n == |Decimal(id)| && n > 0 && DigitsValue(rest[..n]) == id && rest[n..] == tail
  {
    var rest := Decimal(id) + tail;
    LeadingDigitsOf(Decimal(id), tail);
    assert rest[..|Decimal(id)|] == Decimal(id);
    assert rest[|Decimal(id)|..] == tail;
    DecimalRoundTrip(id);
  }

  /** A page number written after its query prefix reads back as itself. */
  lemma PageAfterDecimal(prefix: string, page: nat)
    ensures PageAfter(prefix + Decimal(page), prefix) == Some(page)
  {
    var tail := prefix + Decimal(page);
    assert tail[..|prefix|] == prefix;
    assert tail[|prefix|..] == Decimal(page);
    DecimalRoundTrip(page);
  }

  /** A tail whose second character differs from that of `prefix` carries no page after `prefix`. */
  lemma NoPageAfter(tail: string, prefix: string)
    requires |tail| > 1 && |prefix| > 1 && tail[1] != prefix[1]
    ensures PageAfter(tail, prefix) == None
  {
  }

  /** Concatenation regrouped to the right, stated on variables so no literal is unfolded. */
  lemma Regroup(a: string, b: string, c: string, d: string)
    ensures a + b + c + d == a + (b + (c + d))
  {
  }

  /** A path under `/anime/` is read by what follows that prefix. */
  lemma AnimePathRead(rest: string)
    ensures PathResource("/anime/" + rest) == AnimePathResource(rest)
  {
    var path := "/anime/" + rest;
    assert path[..7] == "/anime/";
    assert path[7..] == rest;
  }

  /** A path under `/characters/` is read by what follows that prefix. */
  lemma CharacterPathRead(rest: string)
    ensures PathResource("/characters/" + rest) == CharacterPathResource(rest)
  {
    var path := "/characters/" + rest;
    assert !StartsWith(path, "/anime/") by {
      assert path[1] == 'c' && "/anime/"[1] == 'a';
    }
    assert path[..12] == "/characters/";
    assert path[12..] == rest;
  }

  /** An `/anime/{id}` URL reads back as its id and the text after it. */
  lemma AnimeUrlParts(id: nat, tail: string)
    requires tail == [] || !IsDigit(tail[0])
    ensures ResourceOf(JikanApiBase + "/anime/" + Decimal(id) + tail) == AnimeResourceOf(id, tail)
  {
    var rest := Decimal(id) + tail;
    Regroup(JikanApiBase, "/anime/", Decimal(id), tail);
    BaseStripped("/anime/" + rest);
    AnimePathRead(rest);
    IdThenTail(id, tail);
  }

  /** A tail is none of the fixed tails when its second character differs from theirs. */
  lemma NotFixedTail(tail: string)
    requires |tail| > 1 && tail[1] != 'c' && tail[1] != 's' && tail[1] != 'r'
    ensures tail != "" && tail != "/characters" && tail != "/staff" && tail != "/recommendations"
  {
    assert tail != "/characters" by { assert "/characters"[1] == 'c'; }
    assert tail != "/staff" by { assert "/staff"[1] == 's'; }
    assert tail != "/recommendations" by { assert "/recommendations"[1] == 'r'; }
  }

  lemma EpisodesTail(id: nat, page: nat)
    ensures AnimeResourceOf(id, "/episodes?page=" + Decimal(page)) == Some(AnimeEpisodes(id, page))
  {
    var tail := "/episodes?page=" + Decimal(page);
    assert tail[1] == 'e';
    NotFixedTail(tail);
    PageAfterDecimal("/episodes?page=", page);
  }

  lemma ReviewsTail(id: nat, page: nat)
    ensures AnimeResourceOf(id, "/reviews?page=" + Decimal(page)) == Some(AnimeReviews(id, page))
  {
    var tail := "/reviews?page=" + Decimal(page);
    assert tail != "" && tail != "/characters" && tail != "/staff" by {
      assert tail[1] == 'r' && "/characters"[1] == 'c' && "/staff"[1] == 's';
    }
    assert tail != "/recommendations" by {
      assert tail[3] == 'v' && "/recommendations"[3] == 'c';
    }
    NoPageAfter(tail, "/episodes?page=");
    PageAfterDecimal("/reviews?page=", page);
  }

  lemma NewsTail(id: nat, page: nat)
    ensures AnimeResourceOf(id, "/news?page=" + Decimal(page)) == Some(AnimeNews(id, page))
  {
    var tail := "/news?page=" + Decimal(page);
    assert tail[1] == 'n';
    NotFixedTail(tail);
    NoPageAfter(tail, "/episodes?page=");
    NoPageAfter(tail, "/reviews?page=");
    PageAfterDecimal("/news?page=", page);
  }

  lemma CharacterPath(id: nat, url: string)
    requires url == JikanApiBase + "/characters/" + Decimal(id) + "/full"
    ensures ResourceOf(url) == Some(CharacterDetails(id))
  {
    var rest := Decimal(id) + "/full";
    Regroup(JikanApiBase, "/characters/", Decimal(id), "/full");
    BaseStripped("/characters/" + rest);
    CharacterPathRead(rest);
    IdThenTail(id, "/full");
  }

  lemma EpisodesUrlRoundTrip(id: nat, page: nat)
    ensures ResourceOf(Url(AnimeEpisodes(id, page))) == Some(AnimeEpisodes(id, page))
  {
    var tail := "/episodes?page=" + Decimal(page);
    assert Url(AnimeEpisodes(id, page)) == JikanApiBase + "/anime/" + Decimal(id) + tail;
    AnimeUrlParts(id, tail);
    EpisodesTail(id, page);
  }

  lemma ReviewsUrlRoundTrip(id: nat, page: nat)
    ensures ResourceOf(Url(AnimeReviews(id, page))) == Some(AnimeReviews(id, page))
  {
    var tail := "/reviews?page=" + Decimal(page);
    assert Url(AnimeReviews(id, page)) == JikanApiBase + "/anime/" + Decimal(id) + tail;
    AnimeUrlParts(id, tail);
    ReviewsTail(id, page);
  }

  lemma NewsUrlRoundTrip(id: nat, page: nat)
    ensures ResourceOf(Url(AnimeNews(id, page))) == Some(AnimeNews(id, page))
  {
    var tail := "/news?page=" + Decimal(page);
    assert Url(AnimeNews(id, page)) == JikanApiBase + "/anime/" + Decimal(id) + tail;
    AnimeUrlParts(id, tail);
    NewsTail(id, page);
  }

  lemma FixedUrlRoundTrip(r: Resource)
    requires !r.Paginated() && !r.CharacterDetails?
    ensures ResourceOf(Url(r)) == Some(r)
  {
    var tail := match r
      case AnimeDetails(_) => ""
      case AnimeCharacters(_) => "/characters"
      case AnimeStaff(_) => "/staff"
      case _ => "/recommendations";
    assert Url(r) == JikanApiBase + "/anime/" + Decimal(r.animeId) + tail;
    AnimeUrlParts(r.animeId, tail);
  }

  /**
   * Every URL an accessor builds names exactly one resource: reading the URL
   * back gives the accessor and its arguments, so no two calls share a URL.
   */
  lemma UrlRoundTrip(r: Resource)
    ensures ResourceOf(Url(r)) == Some(r)
  {
    if r.AnimeEpisodes? {
      EpisodesUrlRoundTrip(r.animeId, r.page);
    } else if r.AnimeReviews? {
      ReviewsUrlRoundTrip(r.animeId, r.page);
    } else if r.AnimeNews? {
      NewsUrlRoundTrip(r.animeId, r.page);
    } else if r.CharacterDetails? {
      CharacterPath(r.characterId, Url(r));
    } else {
      FixedUrlRoundTrip(r);
    }
  }

  /** Two accessor calls request the same URL only when they are the same call. */
  lemma UrlInjective(a: Resource, b: Resource)
    requires Url(a) == Url(b)
    ensures a == b
  {
    UrlRoundTrip(a);
    UrlRoundTrip(b);
  }

  predicate EndsWith(s: string, suffix: string) { |suffix| <= |s| && s[|s| - |suffix|..] == suffix }

  /** A string ends with the tail of its middle part followed by its last part. */
  lemma EndsWithTail(pre: string, mid: string, last: string, q: string)
    requires |q| <= |mid| && mid[|mid| - |q|..] == q
    ensures EndsWith(pre + mid + last, q + last)
  {
    var s := pre + mid + last;
    assert s[|s| - |q| - |last|..] == mid[|mid| - |q|..] + last;
  }

  /** A paginated URL ends in `?page=` and the page number. */
  lemma PagedQuery(r: Resource)
    requires r.Paginated()
    ensures EndsWith(Url(r), "?page=" + Decimal(r.page))
  {
    var pre := JikanApiBase + "/anime/" + Decimal(r.animeId);
    var mid := if r.AnimeEpisodes? then "/episodes?page=" else if r.AnimeReviews? then "/reviews?page=" else "/news?page=";
    assert Url(r) == pre + mid + Decimal(r.page);
    assert mid[|mid| - 6..] == "?page=";
    EndsWithTail(pre, mid, Decimal(r.page), "?page=");
  }

  /** A URL of a single-entity accessor has no query string. */
  lemma UnpagedQuery(r: Resource)
    requires !r.Paginated()
    ensures '?' !in Url(r)
  {
    var id := if r.CharacterDetails? then r.characterId else r.animeId;
    var d := Decimal(id);
    assert forall i :: 0 <= i < |d| ==> d[i] != '?';
    assert '?' !in JikanApiBase;
  }

  /**
   * Paginated URLs end in `?page=` and the page number; the other URLs carry
   * no query string at all.
   */
  lemma PageQuery(r: Resource)
    ensures r.Paginated() ==> EndsWith(Url(r), "?page=" + Decimal(r.page))
    ensures !r.Paginated() ==> '?' !in Url(r)
  {
    if r.Paginated() {
      PagedQuery(r);
    } else {
      UnpagedQuery(r);
    }
  }

  /** With the page left out, as a default of 1, a paginated accessor asks for `page=1`. */
  lemma DefaultPageIsOne(r: Resource)
    requires r.Paginated() && r.page == 1
    ensures EndsWith(Url(r), "?page=1")
  {
    PagedQuery(r);
    assert Decimal(1) == "1";
  }

  /** `envelope.data`: a property read, which throws only on `null` and `undefined`. */
  function ReadData(envelope: Value): Result<Value, string>
  {
    match envelope
    case Undefined => Failure("Cannot read properties of undefined (reading 'data')")
    case Null => Failure("Cannot read properties of null (reading 'data')")
    case Obj(fields) => Success(if "data" in fields then fields["data"] else Undefined)
    case _ => Success(Undefined)
  }

  /** What an accessor returns from the parsed body: `.data` for single entities, the whole envelope for pages. */
  function Unwrap(r: Resource, envelope: Value): Result<Value, string>
  {
    if r.Paginated() then Success(envelope) else ReadData(envelope)
  }

  /** The start of every error message an accessor throws. */
  function FailurePrefix(r: Resource): string
  {
    "Failed to fetch " + r.Label() + ": "
  }

  /** The outcome of an accessor: unwrap the body, or re-raise the failure behind the resource's prefix. */
  function AccessorResult(r: Resource, fetched: Result<Value, FetchError>): (result: Result<Value, string>)
    ensures result.Failure? ==> StartsWith(result.error, FailurePrefix(r))
    ensures fetched.Failure? ==> result == Failure(FailurePrefix(r) + ErrorMessage(fetched.error))
    ensures result.Success? <==> fetched.Success? && Unwrap(r, fetched.value).Success?
  {
    match fetched
    case Failure(e) => Failure(FailurePrefix(r) + ErrorMessage(e))
    case Success(envelope) =>
      match Unwrap(r, envelope)
      case Success(v) => Success(v)
      case Failure(message) => Failure(FailurePrefix(r) + message)
  }

  /**
   * The envelope `{ data: x, ... }` yields `x` from a single-entity accessor
   * and itself, unchanged, from a paginated one.
   */
  lemma EnvelopeUnwrapped(r: Resource, fields: map<string, Value>)
    requires "data" in fields
    ensures r.Paginated() ==> AccessorResult(r, Success(Obj(fields))) == Success(Obj(fields))
    ensures !r.Paginated() ==> AccessorResult(r, Success(Obj(fields))) == Success(fields["data"])
  {
  }

  /**
   * What reaches the caller of an accessor when the request fails: the
   * resource's prefix, then the rate-limit sentence for a 429, the status and
   * status text for any other failed status, or the transport's own message.
   */
  lemma FailureMessages(r: Resource, outcome: FetchOutcome)
    ensures outcome.Received? && outcome.response.status == 429 ==>
      AccessorResult(r, CheckResponse(outcome)) == Failure(FailurePrefix(r) + RateLimitMessage)
    ensures outcome.Received? && !IsOk(outcome.response.status) && outcome.response.status != 429 ==>
      AccessorResult(r, CheckResponse(outcome)) ==
        Failure(FailurePrefix(r) + ("API request failed: " + Decimal(outcome.response.status) + " " + outcome.response.statusText))
    ensures outcome.NetworkFailure? ==>
      AccessorResult(r, CheckResponse(outcome)) == Failure(FailurePrefix(r) + outcome.message)
  {
  }

  /**
   * The client's state: the module-level `lastRequestTime` (0 at load), and,
   * for the proofs, the requests it has sent. The throttle is global: every
   * accessor goes through the same `lastRequestTime`, whatever the resource.
   */
  class RateLimitedClient {
    var lastRequestTime: int
    /** Every request put on the network, oldest first. */
    ghost var requests: seq<Request>

    /** `lastRequestTime` is the send time of the latest request, and requests sent one after another are spaced. */
    ghost predicate Valid()
      reads this
    {
      && (requests == [] ==> lastRequestTime == 0)
      && (requests != [] ==> lastRequestTime == requests[|requests| - 1].sentAt)
      && (requests != [] ==> requests[0].sentAt >= MinRequestInterval)
      && Spaced(requests)
    }

    /**
     * What the clock must do during one call: the reading taken just before
     * sending (`sendTime`) is at least the first reading (`now`) plus the
     * delay awaited in between.
     */
    ghost predicate ClockAdvances(now: int, sendTime: int)
      reads this
    {
      sendTime >= now + Wait(now, lastRequestTime)
    }

    constructor ()
      ensures Valid() && lastRequestTime == 0 && requests == []
    {
      lastRequestTime := 0;
      requests := [];
    }

    /**
     * `rateLimitedFetch(url)`: wait out the rest of the minimum interval,
     * record the send time, send exactly once, then classify the response.
     * The send time is recorded even when the request then fails.
     */
    method RateLimitedFetch(url: string, now: int, sendTime: int, outcome: FetchOutcome)
      returns (waited: int, result: Result<Value, FetchError>)
      requires Valid() && ClockAdvances(now, sendTime)
      modifies this
      ensures Valid()
      ensures waited == Wait(now, old(lastRequestTime))
      ensures sendTime >= old(lastRequestTime) + MinRequestInterval
      ensures lastRequestTime == sendTime
      ensures requests == old(requests) + [Request(sendTime, url)]
      ensures result == CheckResponse(outcome)
    {
      var timeSinceLastRequest := now - lastRequestTime;
      waited := 0;
      if timeSinceLastRequest < MinRequestInterval {
        waited := MinRequestInterval - timeSinceLastRequest;
      }
      lastRequestTime := sendTime;
      requests := requests + [Request(sendTime, url)];
      result := CheckResponse(outcome);
    }

    /** The shared body of the eight accessors: build the URL, fetch it, unwrap or re-raise. */
    method Fetch(r: Resource, now: int, sendTime: int, outcome: FetchOutcome) returns (result: Result<Value, string>)
      requires Valid() && ClockAdvances(now, sendTime)
      modifies this
      ensures Valid()
      ensures sendTime >= old(lastRequestTime) + MinRequestInterval
      ensures lastRequestTime == sendTime
      ensures requests == old(requests) + [Request(sendTime, Url(r))]
      ensures result == AccessorResult(r, CheckResponse(outcome))
    {
      var _, fetched := RateLimitedFetch(Url(r), now, sendTime, outcome);
      result := AccessorResult(r, fetched);
    }

    /** `fetchAnimeDetails(animeId)`: `/anime/{id}`, returning `.data`. */
    method FetchAnimeDetails(animeId: nat, now: int, sendTime: int, outcome: FetchOutcome) returns (result: Result<Value, string>)
      requires Valid() && ClockAdvances(now, sendTime)
      modifies this
      ensures Valid() && lastRequestTime == sendTime
      ensures requests == old(requests) + [Request(sendTime, Url(AnimeDetails(animeId)))]
      ensures result == AccessorResult(AnimeDetails(animeId), CheckResponse(outcome))
    {
      result := Fetch(AnimeDetails(animeId), now, sendTime, outcome);
    }

    /** `fetchAnimeCharacters(animeId)`: `/anime/{id}/characters`, returning `.data`. */
    method FetchAnimeCharacters(animeId: nat, now: int, sendTime: int, outcome: FetchOutcome) returns (result: Result<Value, string>)
      requires Valid() && ClockAdvances(now, sendTime)
      modifies this
      ensures Valid() && lastRequestTime == sendTime
      ensures requests == old(requests) + [Request(sendTime, Url(AnimeCharacters(animeId)))]
      ensures result == AccessorResult(AnimeCharacters(animeId), CheckResponse(outcome))
    {
      result := Fetch(AnimeCharacters(animeId), now, sendTime, outcome);
    }

    /** `fetchAnimeEpisodes(animeId, page = 1)`: `/anime/{id}/episodes?page={page}`, returning the whole page. */
    method FetchAnimeEpisodes(animeId: nat, now: int, sendTime: int, outcome: FetchOutcome, page: nat := 1) returns (result: Result<Value, string>)
      requires Valid() && ClockAdvances(now, sendTime)
      modifies this
      ensures Valid() && lastRequestTime == sendTime
      ensures requests == old(requests) + [Request(sendTime, Url(AnimeEpisodes(animeId, page)))]
      ensures result == AccessorResult(AnimeEpisodes(animeId, page), CheckResponse(outcome))
    {
      result := Fetch(AnimeEpisodes(animeId, page), now, sendTime, outcome);
    }

    /** `fetchAnimeStaff(animeId)`: `/anime/{id}/staff`, returning `.data`. */
    method FetchAnimeStaff(animeId: nat, now: int, sendTime: int, outcome: FetchOutcome) returns (result: Result<Value, string>)
      requires Valid() && ClockAdvances(now, sendTime)
      modifies this
      ensures Valid() && lastRequestTime == sendTime
      ensures requests == old(requests) + [Request(sendTime, Url(AnimeStaff(animeId)))]
      ensures result == AccessorResult(AnimeStaff(animeId), CheckResponse(outcome))
    {
      result := Fetch(AnimeStaff(animeId), now, sendTime, outcome);
    }

    /** `fetchAnimeReviews(animeId, page = 1)`: `/anime/{id}/reviews?page={page}`, returning the whole page. */
    method FetchAnimeReviews(animeId: nat, now: int, sendTime: int, outcome: FetchOutcome, page: nat := 1) returns (result: Result<Value, string>)
      requires Valid() && ClockAdvances(now, sendTime)
      modifies this
      ensures Valid() && lastRequestTime == sendTime
      ensures requests == old(requests) + [Request(sendTime, Url(AnimeReviews(animeId, page)))]
      ensures result == AccessorResult(AnimeReviews(animeId, page), CheckResponse(outcome))
    {
      result := Fetch(AnimeReviews(animeId, page), now, sendTime, outcome);
    }

    /** `fetchAnimeRecommendations(animeId)`: `/anime/{id}/recommendations`, returning `.data`. */
    method FetchAnimeRecommendations(animeId: nat, now: int, sendTime: int, outcome: FetchOutcome) returns (result: Result<Value, string>)
      requires Valid() && ClockAdvances(now, sendTime)
      modifies this
      ensures Valid() && lastRequestTime == sendTime
      ensures requests == old(requests) + [Request(sendTime, Url(AnimeRecommendations(animeId)))]
      ensures result == AccessorResult(AnimeRecommendations(animeId), CheckResponse(outcome))
    {
      result := Fetch(AnimeRecommendations(animeId), now, sendTime, outcome);
    }

    /** `fetchAnimeNews(animeId, page = 1)`: `/anime/{id}/news?page={page}`, returning the whole page. */
    method FetchAnimeNews(animeId: nat, now: int, sendTime: int, outcome: FetchOutcome, page: nat := 1) returns (result: Result<Value, string>)
      requires Valid() && ClockAdvances(now, sendTime)
      modifies this
      ensures Valid() && lastRequestTime == sendTime
      ensures requests == old(requests) + [Request(sendTime, Url(AnimeNews(animeId, page)))]
      ensures result == AccessorResult(AnimeNews(animeId, page), CheckResponse(outcome))
    {
      result := Fetch(AnimeNews(animeId, page), now, sendTime, outcome);
    }

    /** `fetchCharacterDetails(characterId)`: `/characters/{id}/full`, returning `.data`. */
    method FetchCharacterDetails(characterId: nat, now: int, sendTime: int, outcome: FetchOutcome) returns (result: Result<Value, string>)
      requires Valid() && ClockAdvances(now, sendTime)
      modifies this
      ensures Valid() && lastRequestTime == sendTime
      ensures requests == old(requests) + [Request(sendTime, Url(CharacterDetails(characterId)))]
      ensures result == AccessorResult(CharacterDetails(characterId), CheckResponse(outcome))
    {
      result := Fetch(CharacterDetails(characterId), now, sendTime, outcome);
    }
  }
}
