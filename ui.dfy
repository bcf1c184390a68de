/**
 * The page-rendering helpers of the fan site. The DOM is abstracted away:
 * a render function produces either the placeholder message it writes into
 * an empty container, or the sequence of cards it appends, each card holding
 * the texts it shows. Dates are formatted by `localeDate`, a parameter that
 * stands for `new Date(s).toLocaleDateString()`.
 */
module Ui {
  import opened Wrappers
  import opened Text

  const NotAvailable: string := "N/A"

  // ---------------------------------------------------------------------------
  // formatNumber: `num.toString().replace(/\B(?=(\d{3})+(?!\d))/g, ',')`
  // ---------------------------------------------------------------------------

  /**
   * Where the regular expression matches in a string of digits: strictly
   * inside it (`\B` between two digits), with a positive multiple of three
   * digits up to the end (`(\d{3})+(?!\d)`).
   */
  predicate CommaBefore(digits: string, p: nat)
  {
    0 < p < |digits| && (|digits| - p) % 3 == 0
  }

  /** The global replacement, scanning the positions from `i` on: a comma at each match, then the digit. */
  function InsertCommas(digits: string, i: nat): string
    requires i <= |digits|
    decreases |digits| - i
  {
    if i == |digits| then ""
    else (if CommaBefore(digits, i) then "," else "") + [digits[i]] + InsertCommas(digits, i + 1)
  }

  /** `formatNumber(num)` for an integer. */
  function FormatNumber(num: int): string
  {
    if num < 0 then "-" + InsertCommas(Decimal(-num), 0) else InsertCommas(Decimal(num), 0)
  }

  /** Grouping by threes from the right, the reference the regular expression is meant to implement. */
  function Grouped(digits: string): string
  {
    if |digits| <= 3 then digits
    else Grouped(digits[..|digits| - 3]) + "," + digits[|digits| - 3..]
  }

  /** A string of at most three characters gets no comma. */
  lemma {:induction false} InsertCommasShort(digits: string, i: nat)
    requires i <= |digits| <= 3
    ensures InsertCommas(digits, i) == digits[i..]
    decreases |digits| - i
  {
    if i < |digits| {
      InsertCommasShort(digits, i + 1);
      assert digits[i..] == [digits[i]] + digits[i + 1..];
    }
  }

  /** Appending three digits adds one comma in front of them and changes nothing before. */
  lemma {:induction false} InsertCommasAppend(a: string, b: string, i: nat)
    requires |a| >= 1 && |b| == 3 && i <= |a|
    ensures InsertCommas(a + b, i) == InsertCommas(a, i) + "," + b
    decreases |a| - i
  {
    var d := a + b;
    if i == |a| {
      assert CommaBefore(d, i);
      assert !CommaBefore(d, i + 1) && !CommaBefore(d, i + 2);
      assert InsertCommas(d, i + 2) == [d[i + 2]];
      assert InsertCommas(d, i + 1) == [d[i + 1]] + [d[i + 2]];
      assert b == [d[i]] + [d[i + 1]] + [d[i + 2]];
    } else {
      assert CommaBefore(d, i) == CommaBefore(a, i);
      assert d[i] == a[i];
      InsertCommasAppend(a, b, i + 1);
    }
  }

  /** The regular-expression replacement groups the digits by threes from the right. */
  lemma {:induction false} InsertCommasIsGrouping(digits: string)
    ensures InsertCommas(digits, 0) == Grouped(digits)
    decreases |digits|
  {
    if |digits| <= 3 {
      InsertCommasShort(digits, 0);
    } else {
      var a, b := digits[..|digits| - 3], digits[|digits| - 3..];
      assert digits == a + b;
      InsertCommasIsGrouping(a);
      InsertCommasAppend(a, b, 0);
    }
  }

  /** `s` with every comma removed. */
  function RemoveCommas(s: string): string
  {
    if s == [] then [] else RemoveCommas(s[..|s| - 1]) + (if s[|s| - 1] == ',' then [] else [s[|s| - 1]])
  }

  lemma {:induction false} RemoveCommasConcat(x: string, y: string)
    ensures RemoveCommas(x + y) == RemoveCommas(x) + RemoveCommas(y)
    decreases |y|
  {
    if y == [] {
      assert x + y == x;
    } else {
      assert (x + y)[..|x + y| - 1] == x + y[..|y| - 1];
      RemoveCommasConcat(x, y[..|y| - 1]);
    }
  }

  lemma {:induction false} RemoveCommasOfDigits(digits: string)
    requires AllDigits(digits)
    ensures RemoveCommas(digits) == digits
    decreases |digits|
  {
    if digits != [] {
      RemoveCommasOfDigits(digits[..|digits| - 1]);
    }
  }

  /**
   * The layout of grouped digits: commas stand exactly at the positions a
   * multiple of four from the end, every other character is a digit, and the
   * length is not a multiple of four, so the first group is not empty. Hence
   * the first group has one to three digits and every later group three.
   */
  lemma {:induction false} GroupedCommas(digits: string)
    requires |digits| >= 1 && AllDigits(digits)
    ensures var r := Grouped(digits);
      && |r| % 4 != 0
      && (forall j :: 0 <= j < |r| ==> (r[j] == ',' <==> (|r| - j) % 4 == 0))
      && (forall j :: 0 <= j < |r| && r[j] != ',' ==> IsDigit(r[j]))
    decreases |digits|
  {
    if |digits| > 3 {
      var a, b := digits[..|digits| - 3], digits[|digits| - 3..];
      GroupedCommas(a);
      CommaLayoutStep(Grouped(a), b);
    }
  }

  /** Appending a comma and a group of three digits keeps the comma layout. */
  lemma CommaLayoutStep(g: string, b: string)
    requires |b| == 3 && AllDigits(b) && |g| % 4 != 0
    requires forall j :: 0 <= j < |g| ==> (g[j] == ',' <==> (|g| - j) % 4 == 0)
    requires forall j :: 0 <= j < |g| && g[j] != ',' ==> IsDigit(g[j])
    ensures var r := g + "," + b;
      && |r| % 4 != 0
      && (forall j :: 0 <= j < |r| ==> (r[j] == ',' <==> (|r| - j) % 4 == 0))
      && (forall j :: 0 <= j < |r| && r[j] != ',' ==> IsDigit(r[j]))
  {
    var r := g + "," + b;
    assert |r| == |g| + 4;
    forall j | 0 <= j < |r|
      ensures (r[j] == ',' <==> (|r| - j) % 4 == 0)
      ensures r[j] != ',' ==> IsDigit(r[j])
    {
      if j < |g| {
        assert r[j] == g[j];
        assert (|r| - j) % 4 == (|g| - j) % 4;
      } else if j > |g| {
        assert r[j] == b[j - |g| - 1];
        assert 1 <= |r| - j <= 3;
      }
    }
  }

  /** Removing the commas from grouped digits gives the digits back. */
  lemma {:induction false} GroupedRemoveCommas(digits: string)
    requires AllDigits(digits)
    ensures RemoveCommas(Grouped(digits)) == digits
    decreases |digits|
  {
    if |digits| <= 3 {
      RemoveCommasOfDigits(digits);
    } else {
      var a, b := digits[..|digits| - 3], digits[|digits| - 3..];
      assert digits == a + b;
      GroupedRemoveCommas(a);
      var g := Grouped(a);
      RemoveCommasConcat(g + ",", b);
      RemoveCommasConcat(g, ",");
      assert RemoveCommas(",") == RemoveCommas([]) + [];
      RemoveCommasOfDigits(b);
    }
  }

  /**
   * `formatNumber` on a non-negative integer: with the commas removed it is
   * the decimal string; the commas stand every three digits from the right;
   * no comma leads or trails.
   */
  lemma FormatNumberLayout(num: nat)
    ensures var r := FormatNumber(num);
      && RemoveCommas(r) == Decimal(num)
      && r[0] != ',' && r[|r| - 1] != ','
      && (forall j :: 0 <= j < |r| ==> (r[j] == ',' <==> (|r| - j) % 4 == 0))
      && (forall j :: 0 <= j < |r| && r[j] != ',' ==> IsDigit(r[j]))
  {
    var d := Decimal(num);
    InsertCommasIsGrouping(d);
    GroupedCommas(d);
    GroupedRemoveCommas(d);
    var r := Grouped(d);
    assert FormatNumber(num) == r;
    assert (|r| - 0) % 4 != 0;
    assert (|r| - (|r| - 1)) % 4 != 0;
  }

  /** A negative integer is its magnitude, formatted, after a minus sign. */
  lemma FormatNegative(num: int)
    requires num < 0
    ensures FormatNumber(num) == "-" + FormatNumber(-num)
  {
  }

  // ---------------------------------------------------------------------------
  // formatArray, formatAiredDate, formatBroadcast
  // ---------------------------------------------------------------------------

  /** An API object seen through its string-valued properties. */
  type Item = map<string, string>

  /** `item[property]` as `join` prints it: an absent property prints as nothing. */
  function PropertyText(item: Item, property: string): string
  {
    if property in item then item[property] else ""
  }

  /** The property of every item, in order. */
  function Properties(items: seq<Item>, property: string): (texts: seq<string>)
    ensures |texts| == |items|
    ensures forall k :: 0 <= k < |items| ==> texts[k] == PropertyText(items[k], property)
  {
    seq(|items|, k requires 0 <= k < |items| => PropertyText(items[k], property))
  }

  /** `formatArray(list, property)`. */
  function FormatArray(list: Option<seq<Item>>, property: string): string
  {
    if list.None? || |list.value| == 0 then NotAvailable
    else Join(Properties(list.value, property), ", ")
  }

  /**
   * A missing or empty list is `N/A`; otherwise every item's property
   * appears in order with one `", "` between neighbours, and nothing else.
   */
  lemma FormatArrayLayout(list: Option<seq<Item>>, property: string)
    ensures list.None? || list.value == [] ==> FormatArray(list, property) == NotAvailable
    ensures list.Some? && list.value != [] ==>
      LaidOut(FormatArray(list, property), Properties(list.value, property), ", ")
  {
    if list.Some? && list.value != [] {
      JoinLayout(Properties(list.value, property), ", ");
    }
  }

  /** The `aired` object of the API: a ready-made `string`, or the `from` and `to` dates. */
  datatype Aired = Aired(text: Option<string>, from: Option<string>, to: Option<string>)

  /** `formatAiredDate(aired)`. */
  function FormatAiredDate(aired: Option<Aired>, localeDate: string -> string): string
  {
    if aired.None? then NotAvailable
    else if Truthy(aired.value.text) then aired.value.text.value
    else
      var from := if Truthy(aired.value.from) then localeDate(aired.value.from.value) else "?";
      var to := if Truthy(aired.value.to) then localeDate(aired.value.to.value) else "?";
      from + " to " + to
  }

  /**
   * A missing `aired` is `N/A`; a non-empty `aired.string` is shown as it is;
   * otherwise the two dates (each `?` when absent) are joined by ` to `.
   */
  lemma AiredDateText(aired: Option<Aired>, localeDate: string -> string)
    ensures aired.None? ==> FormatAiredDate(aired, localeDate) == NotAvailable
    ensures aired.Some? && Truthy(aired.value.text) ==> FormatAiredDate(aired, localeDate) == aired.value.text.value
    ensures aired.Some? && !Truthy(aired.value.text) ==>
      var r := FormatAiredDate(aired, localeDate);
      var start := if Truthy(aired.value.from) then localeDate(aired.value.from.value) else "?";
      var end := if Truthy(aired.value.to) then localeDate(aired.value.to.value) else "?";
      && |start| + 4 <= |r| && r[..|start| + 4] == start + " to "
      && |end| + 4 <= |r| && r[|r| - |end| - 4..] == " to " + end
    ensures aired.Some? && !Truthy(aired.value.text) && !Truthy(aired.value.from) && !Truthy(aired.value.to) ==>
      FormatAiredDate(aired, localeDate) == "? to ?"
  {
    if aired.Some? && !Truthy(aired.value.text) {
      var start := if Truthy(aired.value.from) then localeDate(aired.value.from.value) else "?";
      var end := if Truthy(aired.value.to) then localeDate(aired.value.to.value) else "?";
      assert FormatAiredDate(aired, localeDate) == (start + " to ") + end == start + (" to " + end);
    }
  }

  /** The `broadcast` object of the API. */
  datatype Broadcast = Broadcast(text: Option<string>, day: Option<string>, time: Option<string>)

  /** `formatBroadcast(broadcast)`. */
  function FormatBroadcast(broadcast: Option<Broadcast>): string
  {
    if broadcast.None? then NotAvailable
    else if Truthy(broadcast.value.text) then broadcast.value.text.value
    else
      var s := Trim(Or(broadcast.value.day, "") + " at " + Or(broadcast.value.time, ""));
      if s != "" then s else NotAvailable
  }

  /**
   * Without a `broadcast.string`, the trimmed `day at time` text always keeps
   * the letters of `at`, so the `|| 'N/A'` fallback can never be taken; with
   * both day and time missing the result is just `at`.
   */
  lemma BroadcastFallbackUnreachable(day: Option<string>, time: Option<string>)
    ensures var s := Trim(Or(day, "") + " at " + Or(time, ""));
      s != "" && 'a' in s && 't' in s
    ensures !Truthy(day) && !Truthy(time) ==> Trim(Or(day, "") + " at " + Or(time, "")) == "at"
  {
    var d, t := Or(day, ""), Or(time, "");
    SpacedAtKept(d, t);
    if !Truthy(day) && !Truthy(time) {
      assert d + " at " + t == " at ";
      TrimSpacedAt();
    }
  }

  /** Whatever surrounds it, the ` at ` of `day at time` leaves its letters in the trimmed text. */
  lemma SpacedAtKept(d: string, t: string)
    ensures var s := Trim(d + " at " + t); s != "" && 'a' in s && 't' in s
  {
    var s := d + " at " + t;
    assert s[|d| + 1] == 'a' && s[|d| + 2] == 't';
    TrimKeepsAt(s, |d| + 1);
  }

  /** A text holding `a` then `t` keeps both letters when trimmed. */
  lemma TrimKeepsAt(s: string, p: nat)
    requires p + 1 < |s| && s[p] == 'a' && s[p + 1] == 't'
    ensures Trim(s) != "" && 'a' in Trim(s) && 't' in Trim(s)
  {
    TrimKeeps(s, p);
    TrimKeeps(s, p + 1);
  }

  /** Trimming the bare ` at ` leaves `at`. */
  lemma TrimSpacedAt()
    ensures Trim(" at ") == "at"
  {
    var spaced, leading, bare := " at ", "at ", "at";
    assert IsWhitespace(spaced[0]) && spaced[1..] == leading;
    assert !IsWhitespace(leading[0]);
    assert TrimStart(spaced) == leading;
    assert IsWhitespace(leading[2]) && leading[..2] == bare;
    assert !IsWhitespace(bare[1]);
    assert TrimEnd(leading) == bare;
  }

  /** `formatBroadcast` never yields an empty string, and shows a given `broadcast.string` verbatim. */
  lemma BroadcastText(broadcast: Option<Broadcast>)
    ensures FormatBroadcast(broadcast) != ""
    ensures broadcast.None? ==> FormatBroadcast(broadcast) == NotAvailable
    ensures broadcast.Some? && Truthy(broadcast.value.text) ==> FormatBroadcast(broadcast) == broadcast.value.text.value
    ensures broadcast.Some? && !Truthy(broadcast.value.text) ==>
      FormatBroadcast(broadcast) == Trim(Or(broadcast.value.day, "") + " at " + Or(broadcast.value.time, ""))
  {
    if broadcast.Some? && !Truthy(broadcast.value.text) {
      BroadcastFallbackUnreachable(broadcast.value.day, broadcast.value.time);
    }
  }

  // ---------------------------------------------------------------------------
  // Review text and episode numbers
  // ---------------------------------------------------------------------------

  const MaxReviewLength: nat := 500
  const NoReviewText: string := "No review text available."

  /** The text of a review card: the review (or the placeholder), cut to 500 characters plus `...`. */
  function ReviewText(review: Option<string>): string
  {
    var text := Or(review, NoReviewText);
    if |text| > MaxReviewLength then text[..MaxReviewLength] + "..." else text
  }

  /**
   * A long review keeps its first 500 characters and gains `...` (503 in
   * all); a review of at most 500 characters is shown whole; a missing or
   * empty one is the placeholder. Shortening an already shortened text
   * changes nothing.
   */
  lemma ReviewTextBounds(review: Option<string>)
    ensures var r := ReviewText(review);
      && |r| <= MaxReviewLength + 3
      && (Truthy(review) && |review.value| > MaxReviewLength ==>
            |r| == 503 && r[..MaxReviewLength] == review.value[..MaxReviewLength] && r[MaxReviewLength..] == "...")
      && (Truthy(review) && |review.value| <= MaxReviewLength ==> r == review.value)
      && (!Truthy(review) ==> r == NoReviewText)
      && ReviewText(Some(r)) == r
  {
    var r := ReviewText(review);
    if |r| > MaxReviewLength {
      assert r[..MaxReviewLength] + "..." == r;
    }
  }

  /** How many episodes the API returns per page. */
  const EpisodesPerPage: int := 50

  /** `episode.mal_id || (page - 1) * 50 + index + 1`. */
  function EpisodeNumber(malId: Option<int>, page: int, index: nat): int
  {
    if malId.Some? && malId.value != 0 then malId.value else (page - 1) * EpisodesPerPage + index + 1
  }

  /**
   * Without `mal_id`, the numbers on a page start at `(page - 1) * 50 + 1`
   * and rise by one per position; with at most 50 episodes per page, two
   * different (page, position) pairs never get the same number.
   */
  lemma FallbackNumbering(page: int, i: nat, j: nat)
    ensures EpisodeNumber(None, page, 0) == (page - 1) * EpisodesPerPage + 1
    ensures i < j ==> EpisodeNumber(None, page, i) < EpisodeNumber(None, page, j)
    ensures EpisodeNumber(None, page, j) - EpisodeNumber(None, page, i) == j - i
  {
  }

  /** Fallback numbers of positions 0 to 49 on different pages never collide. */
  lemma FallbackPagesDisjoint(page1: int, i: nat, page2: int, j: nat)
    requires i < EpisodesPerPage && j < EpisodesPerPage
    requires EpisodeNumber(None, page1, i) == EpisodeNumber(None, page2, j)
    ensures page1 == page2 && i == j
  {
  }

  // ---------------------------------------------------------------------------
  // Cards and views
  // ---------------------------------------------------------------------------

  /** What an info card shows as its value: text, or the genre tags. */
  datatype Shown = ShownText(text: string) | ShownTags(tags: seq<string>)

  /** One card appended to a container, with the texts it displays. */
  datatype Card =
    | InfoCard(caption: string, value: Shown)
    | StatCard(number: string, caption: string)
    | CharacterCard(name: string, role: string, voiceActor: Option<string>)
    | EpisodeCard(episodeNumber: string, title: string, date: string)
    | RecommendationCard(entryTitle: string, votes: string)
    | StaffCard(staffName: string, positions: string)
    | ReviewCard(username: string, score: string, reviewDate: string, content: string)

  /** A container after rendering: only the placeholder message, or the cards in order. */
  datatype View = Placeholder(message: string) | Cards(cards: seq<Card>)

  /** JavaScript truthiness of an optional number: present and not zero. */
  predicate TruthyNum(n: Option<int>) { n.Some? && n.value != 0 }

  /** `${x}` for a value that may be `undefined`. */
  function TemplateText(v: Option<string>): string
  {
    if v.Some? then v.value else "undefined"
  }

  /**
   * `Array.prototype.slice(0, end)`: how many leading elements of a list of
   * `len` it keeps. A negative `end` counts from the back.
   */
  function SliceEnd(len: nat, end: int): (n: nat)
    ensures n <= len
    ensures end >= 0 ==> n == if end < len then end else len
    ensures end < 0 ==> n == if len + end > 0 then len + end else 0
  {
    if end < 0 then (if len + end > 0 then len + end else 0)
    else if end < len then end else len
  }

  // ---------------------------------------------------------------------------
  // renderInfoCards and renderStatistics
  // ---------------------------------------------------------------------------

  /** The anime object of the API, restricted to the fields the pages read. */
  datatype Anime = Anime(
    kind: Option<string>,        // `type`
    episodes: Option<int>,
    status: Option<string>,
    aired: Option<Aired>,
    season: Option<string>,
    year: Option<int>,
    broadcast: Option<Broadcast>,
    producers: Option<seq<Item>>,
    studios: Option<seq<Item>>,
    source: Option<string>,
    genres: Option<seq<Option<string>>>,   // each genre's `name`, absent for a missing genre
    themes: Option<seq<Item>>,
    demographics: Option<seq<Item>>,
    duration: Option<string>,
    rating: Option<string>,
    score: Option<nat>,          // in hundredths, so that `toFixed(2)` is exact
    rank: Option<int>,
    popularity: Option<int>,
    members: Option<int>,
    favorites: Option<int>)

  /** The value of an info item: a string, a number, the genre element, or `null`. */
  datatype InfoValue = StrValue(s: string) | NumValue(n: int) | TagsElement(tags: seq<string>) | NullValue

  datatype InfoItem = InfoItem(caption: string, value: InfoValue)

  /** `score.toFixed(2)` for a score given in hundredths. */
  function FixedTwo(hundredths: nat): string
  {
    Decimal(hundredths / 100) + "." + [DigitChar(hundredths % 100 / 10), DigitChar(hundredths % 10)]
  }

  /** The names of the genres that have one, in order. */
  function GenreNames(genres: seq<Option<string>>): seq<string>
  {
    if genres == [] then []
    else GenreNames(genres[..|genres| - 1]) + (if Truthy(genres[|genres| - 1]) then [genres[|genres| - 1].value] else [])
  }

  /** The value `formatGenres` returns: the tags of the named genres, or `null` when there are none. */
  function GenresValue(genres: Option<seq<Option<string>>>): InfoValue
  {
    if genres.None? || GenreNames(genres.value) == [] then NullValue else TagsElement(GenreNames(genres.value))
  }

  /**
   * `formatGenres(genres)`: a tag for each genre with a name, appended one by
   * one; `null` when the list is missing or empty, or when no genre has a name.
   */
  method FormatGenres(genres: Option<seq<Option<string>>>) returns (v: InfoValue)
    ensures genres.None? || genres.value == [] || GenreNames(genres.value) == [] <==> v == NullValue
    ensures v != NullValue ==> v == TagsElement(GenreNames(genres.value))
    ensures v == GenresValue(genres)
  {
    if genres.None? || |genres.value| == 0 {
      return NullValue;
    }
    var tags: seq<string> := [];
    var i := 0;
    while i < |genres.value|
      invariant 0 <= i <= |genres.value|
      invariant tags == GenreNames(genres.value[..i])
    {
      assert genres.value[..i + 1][..i] == genres.value[..i];
      if Truthy(genres.value[i]) {
        tags := tags + [genres.value[i].value];
      }
      i := i + 1;
    }
    assert genres.value[..i] == genres.value;
    v := if |tags| > 0 then TagsElement(tags) else NullValue;
  }

  /** `value || 'N/A'` for a string field. */
  function StrOrNA(v: Option<string>): InfoValue { StrValue(Or(v, NotAvailable)) }

  /** `x ? `#${x}` : 'N/A'` and `x ? formatNumber(x) : 'N/A'`. */
  function Ranked(v: Option<int>): string { if TruthyNum(v) then "#" + IntText(v.value) else NotAvailable }
  function Counted(v: Option<int>): string { if TruthyNum(v) then FormatNumber(v.value) else NotAvailable }

  /** The nineteen items of `renderInfoCards`, in their fixed order. */
  function InfoItems(anime: Anime, genresValue: InfoValue, localeDate: string -> string): (items: seq<InfoItem>)
    ensures |items| == 19
  {
    [ InfoItem("Type", StrOrNA(anime.kind)),
      InfoItem("Episodes", if TruthyNum(anime.episodes) then NumValue(anime.episodes.value) else StrValue(NotAvailable)),
      InfoItem("Status", StrOrNA(anime.status)),
      InfoItem("Aired", StrValue(FormatAiredDate(anime.aired, localeDate))),
      InfoItem("Premiered", StrValue(
        if Truthy(anime.season)
        then Trim(anime.season.value + " " + (if TruthyNum(anime.year) then IntText(anime.year.value) else ""))
        else NotAvailable)),
      InfoItem("Broadcast", StrValue(FormatBroadcast(anime.broadcast))),
      InfoItem("Producers", StrValue(FormatArray(anime.producers, "name"))),
      InfoItem("Studios", StrValue(FormatArray(anime.studios, "name"))),
      InfoItem("Source", StrOrNA(anime.source)),
      InfoItem("Genres", genresValue),
      InfoItem("Themes", StrValue(FormatArray(anime.themes, "name"))),
      InfoItem("Demographics", StrValue(FormatArray(anime.demographics, "name"))),
      InfoItem("Duration", StrOrNA(anime.duration)),
      InfoItem("Rating", StrOrNA(anime.rating)),
      InfoItem("Score", StrValue(if anime.score.Some? && anime.score.value != 0 then FixedTwo(anime.score.value) + " / 10" else NotAvailable)),
      InfoItem("Ranked", StrValue(Ranked(anime.rank))),
      InfoItem("Popularity", StrValue(Ranked(anime.popularity))),
      InfoItem("Members", StrValue(Counted(anime.members))),
      InfoItem("Favorites", StrValue(Counted(anime.favorites))) ]
  }

  /** The filter of `renderInfoCards`: truthy, and neither `'N/A'`, `''` nor `null`. */
  predicate Shows(v: InfoValue)
  {
    match v
    case StrValue(s) => s != "" && s != NotAvailable
    case NumValue(n) => n != 0
    case TagsElement(_) => true
    case NullValue => false
  }

  /** The items that pass the filter, in their original order. */
  function ShownItems(items: seq<InfoItem>): seq<InfoItem>
  {
    if items == [] then []
    else ShownItems(items[..|items| - 1]) + (if Shows(items[|items| - 1].value) then [items[|items| - 1]] else [])
  }

  /** An item is shown exactly when it is in the list and its value passes the filter. */
  lemma {:induction false} ShownItemsMembers(items: seq<InfoItem>, x: InfoItem)
    ensures x in ShownItems(items) <==> x in items && Shows(x.value)
    decreases |items|
  {
    if items != [] {
      var init := items[..|items| - 1];
      ShownItemsMembers(init, x);
      assert items == init + [items[|items| - 1]];
    }
  }

  /** Filtering keeps the order: it distributes over concatenation. */
  lemma {:induction false} ShownItemsConcat(a: seq<InfoItem>, b: seq<InfoItem>)
    ensures ShownItems(a + b) == ShownItems(a) + ShownItems(b)
    decreases |b|
  {
    if b == [] {
      assert a + b == a;
    } else {
      var b' := b[..|b| - 1];
      assert (a + b)[..|a + b| - 1] == a + b';
      ShownItemsConcat(a, b');
    }
  }

  /**
   * `createInfoCard(label, value)` as written: a string is shown as text and
   * the genre element as tags, but any other value (a number included) as `N/A`.
   */
  function InfoCardAsWritten(item: InfoItem): (card: Card)
    ensures card.InfoCard? && card.caption == item.caption
  {
    match item.value
    case StrValue(s) => InfoCard(item.caption, ShownText(s))
    case TagsElement(tags) => InfoCard(item.caption, ShownTags(tags))
    case _ => InfoCard(item.caption, ShownText(NotAvailable))
  }

  /**
   * `createInfoCard(label, value)` as evidently intended: a number is shown
   * as its decimal text, like every other value that passed the filter.
   */
  function InfoCardFor(item: InfoItem): (card: Card)
    ensures card.InfoCard? && card.caption == item.caption
    ensures Shows(item.value) && !item.value.TagsElement? ==> card.value.ShownText? && card.value.text != NotAvailable
  {
    match item.value
    case StrValue(s) => InfoCard(item.caption, ShownText(s))
    case NumValue(n) =>
      assert IntText(n)[0] != NotAvailable[0];
      InfoCard(item.caption, ShownText(IntText(n)))
    case TagsElement(tags) => InfoCard(item.caption, ShownTags(tags))
    case NullValue => InfoCard(item.caption, ShownText(NotAvailable))
  }

  /** The card `card` makes for each of the given items, in order. */
  function InfoCards(items: seq<InfoItem>, card: InfoItem -> Card): (cards: seq<Card>)
    ensures |cards| == |items|
  {
    seq(|items|, k requires 0 <= k < |items| => card(items[k]))
  }

  /**
   * The `forEach` of `renderInfoCards`: walk the items and append the card
   * `card` makes for each one that passes the filter.
   */
  method AppendInfoCards(items: seq<InfoItem>, card: InfoItem -> Card) returns (cards: seq<Card>)
    ensures cards == InfoCards(ShownItems(items), card)
  {
    cards := [];
    var i := 0;
    while i < |items|
      invariant 0 <= i <= |items|
      invariant cards == InfoCards(ShownItems(items[..i]), card)
    {
      assert items[..i + 1] == items[..i] + [items[i]];
      ShownItemsConcat(items[..i], [items[i]]);
      assert ShownItems([items[i]]) == ShownItems([]) + (if Shows(items[i].value) then [items[i]] else []);
      if Shows(items[i].value) {
        cards := cards + [card(items[i])];
      }
      i := i + 1;
    }
    assert items[..i] == items;
  }

  /**
   * `renderInfoCards(anime)` as written: the `createInfoCard` cards of the
   * nineteen items that pass the filter, with the genres value built by
   * `formatGenres`.
   */
  method RenderInfoCards(anime: Anime, localeDate: string -> string) returns (cards: seq<Card>)
    ensures cards == InfoCards(ShownItems(InfoItems(anime, GenresValue(anime.genres), localeDate)), InfoCardAsWritten)
  {
    var genresValue := FormatGenres(anime.genres);
    cards := AppendInfoCards(InfoItems(anime, genresValue, localeDate), InfoCardAsWritten);
  }

  /**
   * `renderInfoCards(anime)` with the corrected `createInfoCard`, which shows
   * a number as its decimal text.
   */
  method RenderInfoCardsCorrected(anime: Anime, localeDate: string -> string) returns (cards: seq<Card>)
    ensures cards == InfoCards(ShownItems(InfoItems(anime, GenresValue(anime.genres), localeDate)), InfoCardFor)
  {
    var genresValue := FormatGenres(anime.genres);
    cards := AppendInfoCards(InfoItems(anime, genresValue, localeDate), InfoCardFor);
  }

  /** No two of the nineteen items share a label. */
  lemma InfoItemCaptionsDistinct(anime: Anime, genresValue: InfoValue, localeDate: string -> string)
    ensures var items := InfoItems(anime, genresValue, localeDate);
      forall i, j :: 0 <= i < j < |items| ==> items[i].caption != items[j].caption
  {
  }

  /**
   * Among items with distinct labels, an item gets its card exactly when its
   * value passes the filter; the cards follow the items' order.
   */
  lemma InfoCardsExactly(items: seq<InfoItem>, i: nat)
    requires forall a, b :: 0 <= a < b < |items| ==> items[a].caption != items[b].caption
    requires i < |items|
    ensures InfoCardFor(items[i]) in InfoCards(ShownItems(items), InfoCardFor) <==> Shows(items[i].value)
  {
    var shown := ShownItems(items);
    var cards := InfoCards(shown, InfoCardFor);
    ShownItemsMembers(items, items[i]);
    if Shows(items[i].value) {
      var k :| 0 <= k < |shown| && shown[k] == items[i];
      assert cards[k] == InfoCardFor(items[i]);
    }
    if InfoCardFor(items[i]) in cards {
      var m :| 0 <= m < |cards| && cards[m] == InfoCardFor(items[i]);
      assert shown[m].caption == items[i].caption by {
        assert cards[m] == InfoCardFor(shown[m]);
      }
      ShownItemsMembers(items, shown[m]);
      var j :| 0 <= j < |items| && items[j] == shown[m];
      assert items[j].caption == items[i].caption;
      assert j == i;
    }
  }

  /**
   * As written, the Episodes item of an anime with a (non-zero) episode count
   * passes the filter, the rendered cards include an Episodes card reading
   * `N/A`, and none of them shows the count.
   */
  lemma EpisodesCardAsWritten(anime: Anime, genresValue: InfoValue, localeDate: string -> string)
    requires TruthyNum(anime.episodes)
    ensures var items := InfoItems(anime, genresValue, localeDate);
      var cards := InfoCards(ShownItems(items), InfoCardAsWritten);
      && items[1].caption == "Episodes" && Shows(items[1].value)
      && InfoCard("Episodes", ShownText(NotAvailable)) in cards
      && InfoCard("Episodes", ShownText(IntText(anime.episodes.value))) !in cards
  {
    var items := InfoItems(anime, genresValue, localeDate);
    InfoItemCaptionsDistinct(anime, genresValue, localeDate);
    assert IntText(anime.episodes.value)[0] != NotAvailable[0];
    AsWrittenCardOfCaption(items, 1, InfoCard("Episodes", ShownText(IntText(anime.episodes.value))));
  }

  /**
   * Among items with distinct labels, the as-written cards hold the card of
   * every item that passes the filter, and no other card with its label.
   */
  lemma AsWrittenCardOfCaption(items: seq<InfoItem>, i: nat, c: Card)
    requires forall a, b :: 0 <= a < b < |items| ==> items[a].caption != items[b].caption
    requires i < |items| && c.InfoCard? && c.caption == items[i].caption
    ensures Shows(items[i].value) ==> InfoCardAsWritten(items[i]) in InfoCards(ShownItems(items), InfoCardAsWritten)
    ensures c in InfoCards(ShownItems(items), InfoCardAsWritten) ==> c == InfoCardAsWritten(items[i])
  {
    var shown := ShownItems(items);
    var cards := InfoCards(shown, InfoCardAsWritten);
    ShownItemsMembers(items, items[i]);
    if Shows(items[i].value) {
      var k :| 0 <= k < |shown| && shown[k] == items[i];
      assert cards[k] == InfoCardAsWritten(items[i]);
    }
    if c in cards {
      var m :| 0 <= m < |cards| && cards[m] == c;
      assert shown[m].caption == items[i].caption by {
        assert cards[m] == InfoCardAsWritten(shown[m]);
      }
      ShownItemsMembers(items, shown[m]);
      var j :| 0 <= j < |items| && items[j] == shown[m];
      assert items[j].caption == items[i].caption;
      assert j == i;
    }
  }

  /** With the correction, an anime's non-zero episode count appears on its Episodes card. */
  lemma EpisodesCardShowsCount(anime: Anime, genresValue: InfoValue, localeDate: string -> string)
    requires TruthyNum(anime.episodes)
    ensures InfoCard("Episodes", ShownText(IntText(anime.episodes.value)))
      in InfoCards(ShownItems(InfoItems(anime, genresValue, localeDate)), InfoCardFor)
  {
    var items := InfoItems(anime, genresValue, localeDate);
    InfoItemCaptionsDistinct(anime, genresValue, localeDate);
    InfoCardsExactly(items, 1);
  }

  /** The labels of the six statistics, in their fixed order. */
  const StatLabels: seq<string> := ["Score", "Ranked", "Popularity", "Members", "Favorites", "Episodes"]

  /** The six statistics, in their fixed order: label and value text. */
  function StatItems(anime: Anime): (stats: seq<(string, string)>)
    ensures |stats| == 6
    ensures forall k :: 0 <= k < 6 ==> stats[k].0 == StatLabels[k]
  {
    [ (StatLabels[0], if anime.score.Some? && anime.score.value != 0 then FixedTwo(anime.score.value) else NotAvailable),
      (StatLabels[1], Ranked(anime.rank)),
      (StatLabels[2], Ranked(anime.popularity)),
      (StatLabels[3], Counted(anime.members)),
      (StatLabels[4], Counted(anime.favorites)),
      (StatLabels[5], if TruthyNum(anime.episodes) then IntText(anime.episodes.value) else NotAvailable) ]
  }

  /**
   * `renderStatistics(anime)`: always exactly six cards, in the fixed label
   * order, whatever fields the anime lacks.
   */
  method RenderStatistics(anime: Anime) returns (cards: seq<Card>)
    ensures |cards| == 6
    ensures forall k :: 0 <= k < 6 ==> cards[k] == StatCard(StatItems(anime)[k].1, StatLabels[k])
  {
    var stats := StatItems(anime);
    cards := [];
    var i := 0;
    while i < |stats|
      invariant 0 <= i <= |stats|
      invariant |cards| == i
      invariant forall k :: 0 <= k < i ==> cards[k] == StatCard(stats[k].1, stats[k].0)
    {
      cards := cards + [StatCard(stats[i].1, stats[i].0)];
      i := i + 1;
    }
  }

  // ---------------------------------------------------------------------------
  // The list renderers
  // ---------------------------------------------------------------------------

  /** The first voice actor of a character: `va.person.name` and `va.language`. */
  datatype VoiceActor = VoiceActor(personName: Option<string>, language: Option<string>)

  /** One entry of the characters list: `character.name`, `role` and `voice_actors`. */
  datatype CharacterEntry = CharacterEntry(name: Option<string>, role: Option<string>, voiceActors: Option<seq<VoiceActor>>)

  const CharactersUnavailable: string := "Character information not available."
  const Unknown: string := "Unknown"

  /** The texts of one character card. */
  function CharacterCardOf(c: CharacterEntry): Card
  {
    CharacterCard(
      Or(c.name, Unknown),
      Or(c.role, Unknown),
      if c.voiceActors.Some? && |c.voiceActors.value| > 0
      then Some(TemplateText(c.voiceActors.value[0].personName) + " (" + TemplateText(c.voiceActors.value[0].language) + ")")
      else None)
  }

  /** The `forEach` of both character renderers: one card per entry, in order. */
  method AppendCharacterCards(display: seq<CharacterEntry>) returns (cards: seq<Card>)
    ensures |cards| == |display|
    ensures forall k :: 0 <= k < |display| ==> cards[k] == CharacterCardOf(display[k])
  {
    cards := [];
    var i := 0;
    while i < |display|
      invariant 0 <= i <= |display|
      invariant |cards| == i
      invariant forall k :: 0 <= k < i ==> cards[k] == CharacterCardOf(display[k])
    {
      cards := cards + [CharacterCardOf(display[i])];
      i := i + 1;
    }
  }

  /**
   * `renderCharacters(characters)`: the placeholder for a missing or empty
   * list, otherwise the cards of the first 20 characters, in order.
   */
  method RenderCharacters(characters: Option<seq<CharacterEntry>>) returns (view: View)
    ensures view.Placeholder? <==> characters.None? || characters.value == []
    ensures view.Placeholder? ==> view.message == CharactersUnavailable
    ensures view.Cards? ==>
      && |view.cards| == (if |characters.value| < 20 then |characters.value| else 20)
      && forall k :: 0 <= k < |view.cards| ==> view.cards[k] == CharacterCardOf(characters.value[k])
  {
    if characters.None? || |characters.value| == 0 {
      return Placeholder(CharactersUnavailable);
    }
    var display := characters.value[..SliceEnd(|characters.value|, 20)];
    var cards := AppendCharacterCards(display);
    view := Cards(cards);
  }

  /**
   * `renderCharactersPreview(characters, limit = 6)`: the same cards for
   * `characters.slice(0, limit)`.
   */
  method RenderCharactersPreview(characters: Option<seq<CharacterEntry>>, limit: int := 6) returns (view: View)
    ensures view.Placeholder? <==> characters.None? || characters.value == []
    ensures view.Placeholder? ==> view.message == CharactersUnavailable
    ensures view.Cards? ==>
      && |view.cards| == SliceEnd(|characters.value|, limit)
      && forall k :: 0 <= k < |view.cards| ==> view.cards[k] == CharacterCardOf(characters.value[k])
  {
    if characters.None? || |characters.value| == 0 {
      return Placeholder(CharactersUnavailable);
    }
    var display := characters.value[..SliceEnd(|characters.value|, limit)];
    var cards := AppendCharacterCards(display);
    view := Cards(cards);
  }

  /** One entry of the episodes list: `mal_id`, `title` and `aired`. */
  datatype Episode = Episode(malId: Option<int>, title: Option<string>, aired: Option<string>)

  const EpisodesUnavailable: string := "Episode information not available."

  /** The texts of the card of the episode at `index` on page `page`. */
  function EpisodeCardOf(e: Episode, page: int, index: nat, localeDate: string -> string): Card
  {
    var number := IntText(EpisodeNumber(e.malId, page, index));
    EpisodeCard(
      "#" + number,
      Or(e.title, "Episode " + number),
      if Truthy(e.aired) then localeDate(e.aired.value) else NotAvailable)
  }

  /**
   * An episode without `mal_id` is numbered from its page and position, and
   * an episode without a title is called `Episode` and that number.
   */
  lemma EpisodeCardFallback(e: Episode, page: int, index: nat, localeDate: string -> string)
    requires !TruthyNum(e.malId)
    ensures var card := EpisodeCardOf(e, page, index, localeDate);
      && card.episodeNumber == "#" + IntText((page - 1) * EpisodesPerPage + index + 1)
      && (!Truthy(e.title) ==> card.title == "Episode " + IntText((page - 1) * EpisodesPerPage + index + 1))
  {
  }

  /**
   * `renderEpisodes(episodes, page)`: the placeholder for a missing or empty
   * list, otherwise one card per episode, numbered by position.
   */
  method RenderEpisodes(episodes: Option<seq<Episode>>, page: int, localeDate: string -> string) returns (view: View)
    ensures view.Placeholder? <==> episodes.None? || episodes.value == []
    ensures view.Placeholder? ==> view.message == EpisodesUnavailable
    ensures view.Cards? ==>
      && |view.cards| == |episodes.value|
      && forall k :: 0 <= k < |view.cards| ==> view.cards[k] == EpisodeCardOf(episodes.value[k], page, k, localeDate)
  {
    if episodes.None? || |episodes.value| == 0 {
      return Placeholder(EpisodesUnavailable);
    }
    var list := episodes.value;
    var cards: seq<Card> := [];
    var i := 0;
    while i < |list|
      invariant 0 <= i <= |list|
      invariant |cards| == i
      invariant forall k :: 0 <= k < i ==> cards[k] == EpisodeCardOf(list[k], page, k, localeDate)
    {
      cards := cards + [EpisodeCardOf(list[i], page, i, localeDate)];
      i := i + 1;
    }
    view := Cards(cards);
  }

  /** One recommendation: `entry.title` and `votes`. */
  datatype Recommendation = Recommendation(entryTitle: Option<string>, votes: Option<int>)

  const NoRecommendations: string := "No recommendations available."

  function RecommendationCardOf(r: Recommendation): Card
  {
    RecommendationCard(
      Or(r.entryTitle, Unknown),
      (if TruthyNum(r.votes) then IntText(r.votes.value) else "0") + " recommendations")
  }

  /**
   * `renderRecommendations(recommendations)`: the placeholder for a missing
   * or empty list, otherwise the cards of the first six, in order.
   */
  method RenderRecommendations(recommendations: Option<seq<Recommendation>>) returns (view: View)
    ensures view.Placeholder? <==> recommendations.None? || recommendations.value == []
    ensures view.Placeholder? ==> view.message == NoRecommendations
    ensures view.Cards? ==>
      && |view.cards| == (if |recommendations.value| < 6 then |recommendations.value| else 6)
      && forall k :: 0 <= k < |view.cards| ==> view.cards[k] == RecommendationCardOf(recommendations.value[k])
  {
    if recommendations.None? || |recommendations.value| == 0 {
      return Placeholder(NoRecommendations);
    }
    var display := recommendations.value[..SliceEnd(|recommendations.value|, 6)];
    var cards: seq<Card> := [];
    var i := 0;
    while i < |display|
      invariant 0 <= i <= |display|
      invariant |cards| == i
      invariant forall k :: 0 <= k < i ==> cards[k] == RecommendationCardOf(display[k])
    {
      cards := cards + [RecommendationCardOf(display[i])];
      i := i + 1;
    }
    view := Cards(cards);
  }

  /** One staff member: `person.name` and `positions`. */
  datatype StaffMember = StaffMember(name: Option<string>, positions: Option<seq<string>>)

  const StaffUnavailable: string := "Staff information not available."

  function StaffCardOf(m: StaffMember): Card
  {
    var joined := if m.positions.Some? then Some(Join(m.positions.value, ", ")) else None;
    StaffCard(Or(m.name, Unknown), Or(joined, Unknown))
  }

  /**
   * `renderStaff(staff)`: the placeholder for a missing or empty list,
   * otherwise one card per member, in order.
   */
  method RenderStaff(staff: Option<seq<StaffMember>>) returns (view: View)
    ensures view.Placeholder? <==> staff.None? || staff.value == []
    ensures view.Placeholder? ==> view.message == StaffUnavailable
    ensures view.Cards? ==>
      && |view.cards| == |staff.value|
      && forall k :: 0 <= k < |view.cards| ==> view.cards[k] == StaffCardOf(staff.value[k])
  {
    if staff.None? || |staff.value| == 0 {
      return Placeholder(StaffUnavailable);
    }
    var list := staff.value;
    var cards: seq<Card> := [];
    var i := 0;
    while i < |list|
      invariant 0 <= i <= |list|
      invariant |cards| == i
      invariant forall k :: 0 <= k < i ==> cards[k] == StaffCardOf(list[k])
    {
      cards := cards + [StaffCardOf(list[i])];
      i := i + 1;
    }
    view := Cards(cards);
  }

  /** One review: `user.username`, `score`, `date` and `review`. */
  datatype Review = Review(username: Option<string>, score: Option<int>, date: Option<string>, text: Option<string>)

  const NoReviews: string := "No reviews available."

  function ReviewCardOf(r: Review, localeDate: string -> string): Card
  {
    ReviewCard(
      Or(r.username, "Anonymous"),
      "Score: " + (if TruthyNum(r.score) then IntText(r.score.value) else NotAvailable),
      if Truthy(r.date) then localeDate(r.date.value) else "",
      ReviewText(r.text))
  }

  /**
   * `renderReviews(reviews)`: the placeholder for a missing or empty list,
   * otherwise one card per review, in order, each text cut to 500 characters.
   */
  method RenderReviews(reviews: Option<seq<Review>>, localeDate: string -> string) returns (view: View)
    ensures view.Placeholder? <==> reviews.None? || reviews.value == []
    ensures view.Placeholder? ==> view.message == NoReviews
    ensures view.Cards? ==>
      && |view.cards| == |reviews.value|
      && forall k :: 0 <= k < |view.cards| ==>
           view.cards[k] == ReviewCardOf(reviews.value[k], localeDate) && |view.cards[k].content| <= 503
  {
    if reviews.None? || |reviews.value| == 0 {
      return Placeholder(NoReviews);
    }
    var list := reviews.value;
    var cards: seq<Card> := [];
    var i := 0;
    while i < |list|
      invariant 0 <= i <= |list|
      invariant |cards| == i
      invariant forall k :: 0 <= k < i ==> cards[k] == ReviewCardOf(list[k], localeDate) && |cards[k].content| <= 503
    {
      ReviewTextBounds(list[i].text);
      cards := cards + [ReviewCardOf(list[i], localeDate)];
      i := i + 1;
    }
    view := Cards(cards);
  }
}
