/**
 * The date-range bot: filters the dataset to one account's original tweets
 * in a date window, reduces them to a count and two averages, formats the
 * comparison of the two candidates, checks the `--dates` arguments, and
 * hands the result to the senders.
 */
module Bot {
  import opened Options
  import opened Numerals
  import opened Patterns
  import opened Calendar
  import opened Tweets
  import opened Export

  /** `MIN_DATE` ('4/17/16') and `MAX_DATE` ('9/29/16') as parsed: midnight at the start of each day. */
  const MinDate := Moment(2016, 4, 17, 0)
  const MaxDate := Moment(2016, 9, 29, 0)

  const Clinton := "HillaryClinton"
  const Trump := "realDonaldTrump"

  // ---------------------------------------------------------------------
  // Filtering and aggregation
  // ---------------------------------------------------------------------

  /** An original tweet by `handle` whose time lies in `[date1, date2]`, both ends included. */
  function InWindow(handle: string, date1: Moment, date2: Moment): (keep: Tweet -> bool)
  {
    (t: Tweet) => t.handle == handle && t.isRetweet == "False" && AtOrBefore(date1, t.time) && AtOrBefore(t.time, date2)
  }

  /** `filter_tweets`: the tweets in the window, in input order. */
  method FilterTweets(tweets: seq<Tweet>, handle: string, date1: Moment, date2: Moment) returns (results: seq<Tweet>)
    ensures results == Filter(tweets, InWindow(handle, date1, date2))
  {
    results := [];
    var i := 0;
    while i < |tweets|
      invariant 0 <= i <= |tweets|
      invariant results == Filter(tweets[..i], InWindow(handle, date1, date2))
    {
      var tweet := tweets[i];
      assert tweets[..i + 1][..i] == tweets[..i];
      if tweet.handle == handle && tweet.isRetweet == "False" {
        if AtOrBefore(date1, tweet.time) && AtOrBefore(tweet.time, date2) {
          results := results + [tweet];
        }
      }
      i := i + 1;
    }
    assert tweets[..i] == tweets;
  }

  /**
   * Both ends of the window count: a tweet exactly at either bound is kept,
   * one strictly before the start or after the end is not, and in particular
   * neither the real second just before the start nor the one just after the
   * end.
   */
  lemma WindowInclusive(t: Tweet, handle: string, date1: Moment, date2: Moment)
    requires t.handle == handle && t.isRetweet == "False" && AtOrBefore(date1, date2)
    ensures t.time == date1 ==> InWindow(handle, date1, date2)(t)
    ensures t.time == date2 ==> InWindow(handle, date1, date2)(t)
    ensures Before(t.time, date1) || Before(date2, t.time) ==> !InWindow(handle, date1, date2)(t)
  {
  }

  /** The window's edges are one real second wide: the neighbouring seconds of valid bounds are left out. */
  lemma WindowNeighboursExcluded(t: Tweet, handle: string, date1: Moment, date2: Moment)
    requires Valid(date1) && Valid(date2) && Valid(t.time)
    ensures t.time == Successor(date2) ==> !InWindow(handle, date1, date2)(t)
    ensures Successor(t.time) == date1 ==> !InWindow(handle, date1, date2)(t)
  {
  }

  /** Formatted statistics: the grouped count, then the two rendered averages. */
  datatype Stats = Stats(numTweets: string, retweetAvg: string, favoriteAvg: string)

  /**
   * What `get_tweet_stats` returns for a non-empty list. How an exact mean is
   * rounded and rendered (`"{:,.2f}".format(round(...))`) is the parameter
   * `avgText`.
   */
  function StatsOf(tweets: seq<Tweet>, avgText: Mean -> string): (stats: Stats)
    requires tweets != []
  {
    Stats(Grouped(|tweets|),
          avgText(Mean(Sum(tweets, RetweetCount), |tweets|)),
          avgText(Mean(Sum(tweets, FavoriteCount), |tweets|)))
  }

  /** `get_tweet_stats`: the sums are over every record and the count is the length; the source divides by it. */
  method GetTweetStats(tweets: seq<Tweet>, avgText: Mean -> string) returns (stats: Stats)
    requires tweets != []
    ensures stats == StatsOf(tweets, avgText)
  {
    var retweetSum, favoriteSum := 0, 0;
    var i := 0;
    while i < |tweets|
      invariant 0 <= i <= |tweets|
      invariant retweetSum == Sum(tweets[..i], RetweetCount)
      invariant favoriteSum == Sum(tweets[..i], FavoriteCount)
    {
      assert tweets[..i + 1][..i] == tweets[..i];
      retweetSum := retweetSum + tweets[i].retweets;
      favoriteSum := favoriteSum + tweets[i].favorites;
      i := i + 1;
    }
    assert tweets[..i] == tweets;
    var retweetAvg := avgText(Mean(retweetSum, |tweets|));
    var favoriteAvg := avgText(Mean(favoriteSum, |tweets|));
    var numTweets := Grouped(|tweets|);
    stats := Stats(numTweets, retweetAvg, favoriteAvg);
  }

  /**
   * The count in the statistics is the length of the list written with
   * comma grouping: without its commas it reads back as the length, and
   * every group after the first has three digits.
   */
  lemma CountReadsBack(tweets: seq<Tweet>, avgText: Mean -> string)
    requires tweets != []
    ensures StripCommas(StatsOf(tweets, avgText).numTweets) == Decimal(|tweets|)
    ensures DigitsValue(Decimal(|tweets|)) == |tweets|
    ensures ThousandsShape(StatsOf(tweets, avgText).numTweets)
  {
    GroupedReadsBack(|tweets|);
  }

  /** Both accounts have at least one tweet in the window, so neither average divides by zero. */
  predicate StatsDefined(tweets: seq<Tweet>, date1: Moment, date2: Moment) {
    Filter(tweets, InWindow(Clinton, date1, date2)) != [] &&
    Filter(tweets, InWindow(Trump, date1, date2)) != []
  }

  /**
   * `compare_tweets`: the statistics of both candidates over the one window
   * `[date1, date2]`. `tweets` stands for what `read_tweets()` returns.
   */
  method CompareTweets(tweets: seq<Tweet>, date1: Moment, date2: Moment, avgText: Mean -> string)
    returns (clinton: Stats, trump: Stats)
    requires StatsDefined(tweets, date1, date2)
    ensures clinton == StatsOf(Filter(tweets, InWindow(Clinton, date1, date2)), avgText)
    ensures trump == StatsOf(Filter(tweets, InWindow(Trump, date1, date2)), avgText)
  {
    var clintonTweets := FilterTweets(tweets, Clinton, date1, date2);
    var trumpTweets := FilterTweets(tweets, Trump, date1, date2);
    clinton := GetTweetStats(clintonTweets, avgText);
    trump := GetTweetStats(trumpTweets, avgText);
  }

  // ---------------------------------------------------------------------
  // Responses
  // ---------------------------------------------------------------------

  /** `create_response`: the whole comparison as one sentence. */
  function CreateResponse(date1: Moment, date2: Moment, clinton: Stats, trump: Stats): (response: string)
    requires Valid(date1) && Valid(date2)
  {
    "From " + RenderDate(date1) + " to " + RenderDate(date2) + ", Hillary Clinton's " + clinton.numTweets +
    " tweets averaged " + clinton.retweetAvg + " retweets and " + clinton.favoriteAvg +
    " favorites, while Donald Trump's " + trump.numTweets + " tweets averaged " + trump.retweetAvg +
    " retweets and " + trump.favoriteAvg + " favorites."
  }

  /** `create_twitter_response`: the same comparison in two posts. */
  function CreateTwitterResponse(date1: Moment, date2: Moment, clinton: Stats, trump: Stats): (parts: (string, string))
    requires Valid(date1) && Valid(date2)
  {
    var output1 := "From " + RenderDate(date1) + " to " + RenderDate(date2) + ", Hillary Clinton's " + clinton.numTweets +
      " tweets averaged " + clinton.retweetAvg + " retweets and " + clinton.favoriteAvg + " favorites, while...";
    var output2 := "Donald Trump's " + trump.numTweets + " tweets averaged " + trump.retweetAvg +
      " retweets and " + trump.favoriteAvg + " favorites.";
    (output1, output2)
  }

  /**
   * The two posts carry the one sentence: the first ends in "...", and that
   * first part without its "...", a space, and the second part make up the
   * sentence exactly.
   */
  lemma TwitterResponseSplitsResponse(date1: Moment, date2: Moment, clinton: Stats, trump: Stats)
    requires Valid(date1) && Valid(date2)
    ensures var (output1, output2) := CreateTwitterResponse(date1, date2, clinton, trump);
      |output1| >= 3 && output1[|output1| - 3..] == "..." &&
      CreateResponse(date1, date2, clinton, trump) == output1[..|output1| - 3] + " " + output2
  {
    var head := "From " + RenderDate(date1) + " to " + RenderDate(date2) + ", Hillary Clinton's " + clinton.numTweets +
      " tweets averaged " + clinton.retweetAvg + " retweets and " + clinton.favoriteAvg;
    var rest := trump.numTweets + " tweets averaged " + trump.retweetAvg + " retweets and " + trump.favoriteAvg + " favorites.";
    var (output1, output2) := CreateTwitterResponse(date1, date2, clinton, trump);
    assert output1 == head + " favorites, while" + "...";
    assert output2 == "Donald Trump's " + rest;
    assert CreateResponse(date1, date2, clinton, trump) == head + " favorites, while Donald Trump's " + rest;
    assert " favorites, while Donald Trump's " == " favorites, while" + " " + "Donald Trump's ";
    assert output1[..|output1| - 3] == head + " favorites, while";
  }

  // ---------------------------------------------------------------------
  // The --dates arguments
  // ---------------------------------------------------------------------

  const ShapeMessage := "If using dates, you must provide exactly two that follow the format 'm/dd/yy'."
  const ParseMessage := "Invalid date(s) provided. They must also follow the format m/dd/yy."
  const RangeMessage := "Your date range must fall between 4/17/16 and 9/29/16, inclusive"

  /** The body of `^[4-9]/\d{1,2}/16$`. */
  predicate DateShape(s: string) {
    (|s| == 6 || |s| == 7) && '4' <= s[0] <= '9' && s[1] == '/' &&
    AllDigits(s[2..|s| - 3]) && s[|s| - 3..] == "/16"
  }

  predicate IsDateArgument(s: string) {
    MatchesAnchored(s, DateShape)
  }

  /**
   * `dateparser.parse` of a date argument: month `m`, day `d`, year 2016, at
   * midnight; a day the month does not have fails to parse.
   */
  function ParseDate(s: string): (r: Option<Moment>)
    requires IsDateArgument(s)
    ensures r.Some? ==> Valid(r.value) && r.value.year == 2016 && 4 <= r.value.month <= 9 && r.value.second == 0
  {
    var b := MatchedPart(s, DateShape);
    var month := b[0] as int - '0' as int;
    var day := DigitsValue(b[2..|b| - 3]);
    if 1 <= day <= DaysInMonth(2016, month) then Some(Moment(2016, month, day, 0)) else None
  }

  /** The date argument that names day `day` of month `month`, as in "4/17/16". */
  function DateArgument(month: nat, day: nat): (s: string)
    requires 4 <= month <= 9 && 1 <= day <= 99
  {
    [DigitChar(month)] + "/" + Decimal(day) + "/16"
  }

  /** Writing a date of the supported months as an argument and parsing it gives that date back. */
  lemma DateArgumentParses(month: nat, day: nat)
    requires 4 <= month <= 9 && 1 <= day <= DaysInMonth(2016, month)
    ensures IsDateArgument(DateArgument(month, day))
    ensures ParseDate(DateArgument(month, day)) == Some(Moment(2016, month, day, 0))
  {
    var s := DateArgument(month, day);
    var digits := Decimal(day);
    if day >= 10 {
      assert digits == Decimal(day / 10) + [DigitChar(day % 10)];
    }
    assert |digits| == 1 || |digits| == 2;
    assert s[2..|s| - 3] == digits;
    assert s[|s| - 3..] == "/16";
    assert DateShape(s);
    assert MatchedPart(s, DateShape) == s;
    DecimalReadsBack(day);
  }

  /** What the date checks lead to: a window to compute over, or a message and exit. */
  datatype DateCheck = Window(date1: Moment, date2: Moment) | Exit(message: string)

  /**
   * The `--dates` handling of the main block. No dates means the whole
   * supported range; otherwise exactly two well-shaped dates that parse,
   * ordered earlier first, and inside `[MinDate, MaxDate]`.
   */
  function CheckDates(dates: seq<string>): (r: DateCheck)
    ensures dates == [] ==> r == Window(MinDate, MaxDate)
    ensures r.Window? ==>
      Valid(r.date1) && Valid(r.date2) &&
      AtOrBefore(MinDate, r.date1) && AtOrBefore(r.date1, r.date2) && AtOrBefore(r.date2, MaxDate)
    ensures r.Exit? ==> r.message == ShapeMessage || r.message == ParseMessage || r.message == RangeMessage
  {
    if dates == [] then Window(MinDate, MaxDate)
    else if |dates| == 2 && IsDateArgument(dates[0]) && IsDateArgument(dates[1]) then
      var parsed1, parsed2 := ParseDate(dates[0]), ParseDate(dates[1]);
      if parsed1.None? || parsed2.None? then Exit(ParseMessage)
      else
        var date1, date2 := Earlier(parsed1.value, parsed2.value), Later(parsed1.value, parsed2.value);
        if AtOrBefore(MinDate, date1) && AtOrBefore(date2, MaxDate) then Window(date1, date2)
        else Exit(RangeMessage)
    else Exit(ShapeMessage)
  }

  /** The order in which the two dates are given does not matter. */
  lemma CheckDatesSymmetric(first: string, second: string)
    ensures CheckDates([first, second]) == CheckDates([second, first])
  {
    if IsDateArgument(first) && IsDateArgument(second) {
      var p1, p2 := ParseDate(first), ParseDate(second);
      if p1.Some? && p2.Some? {
        EarlierLaterSymmetric(p1.value, p2.value);
      }
    }
  }

  /**
   * Statistics are computed exactly when no dates are given, or when two
   * well-shaped dates are given that both parse and both lie inside
   * `[MinDate, MaxDate]`; the window is then those two dates, earlier first.
   */
  lemma CheckDatesAccepts(dates: seq<string>)
    ensures CheckDates(dates).Window? <==>
      dates == [] ||
      (|dates| == 2 && IsDateArgument(dates[0]) && IsDateArgument(dates[1]) &&
       ParseDate(dates[0]).Some? && ParseDate(dates[1]).Some? &&
       AtOrBefore(MinDate, ParseDate(dates[0]).value) && AtOrBefore(ParseDate(dates[0]).value, MaxDate) &&
       AtOrBefore(MinDate, ParseDate(dates[1]).value) && AtOrBefore(ParseDate(dates[1]).value, MaxDate))
    ensures CheckDates(dates).Window? && dates != [] ==>
      {CheckDates(dates).date1, CheckDates(dates).date2} == {ParseDate(dates[0]).value, ParseDate(dates[1]).value}
  {
  }

  /**
   * Two date arguments that name real days: accepted, earlier first, when
   * both days lie inside `[MinDate, MaxDate]`, refused with the range message
   * otherwise.
   */
  lemma CheckDateArguments(month1: nat, day1: nat, month2: nat, day2: nat)
    requires 4 <= month1 <= 9 && 1 <= day1 <= DaysInMonth(2016, month1)
    requires 4 <= month2 <= 9 && 1 <= day2 <= DaysInMonth(2016, month2)
    ensures var t1, t2 := Moment(2016, month1, day1, 0), Moment(2016, month2, day2, 0);
      CheckDates([DateArgument(month1, day1), DateArgument(month2, day2)]) ==
        if AtOrBefore(MinDate, t1) && AtOrBefore(t1, MaxDate) && AtOrBefore(MinDate, t2) && AtOrBefore(t2, MaxDate)
        then Window(Earlier(t1, t2), Later(t1, t2))
        else Exit(RangeMessage)
  {
    DateArgumentParses(month1, day1);
    DateArgumentParses(month2, day2);
  }

  /** The supported bounds are themselves accepted, in either order, and a day just outside them is not. */
  lemma CheckDatesEdges()
    ensures CheckDates([DateArgument(9, 29), DateArgument(4, 17)]) == Window(MinDate, MaxDate)
    ensures CheckDates([DateArgument(4, 16), DateArgument(9, 29)]) == Exit(RangeMessage)
    ensures CheckDates([DateArgument(4, 17), DateArgument(9, 30)]) == Exit(RangeMessage)
  {
    CheckDateArguments(9, 29, 4, 17);
    CheckDateArguments(4, 16, 9, 29);
    CheckDateArguments(4, 17, 9, 30);
  }

  /**
   * The end date counts from its midnight only: asking for one day, such as
   * "5/1/16" twice, gives the window of that single midnight, so a tweet one
   * second later that day is not counted.
   */
  lemma SingleDayWindow(month: nat, day: nat, t: Tweet)
    requires 4 <= month <= 9 && 1 <= day <= DaysInMonth(2016, month)
    requires AtOrBefore(MinDate, Moment(2016, month, day, 0)) && AtOrBefore(Moment(2016, month, day, 0), MaxDate)
    requires t.time == Moment(2016, month, day, 1)
    ensures CheckDates([DateArgument(month, day), DateArgument(month, day)]) ==
      Window(Moment(2016, month, day, 0), Moment(2016, month, day, 0))
    ensures !InWindow(t.handle, Moment(2016, month, day, 0), Moment(2016, month, day, 0))(t)
  {
    CheckDateArguments(month, day, month, day);
  }

  /** A well-shaped date that names no day fails to parse, and one date alone is the wrong shape. */
  lemma CheckDatesMalformedRefused()
    ensures CheckDates(["4/31/16", "5/1/16"]) == Exit(ParseMessage)
    ensures CheckDates(["4/17/16"]) == Exit(ShapeMessage)
  {
    var s := "4/31/16";
    assert DateShape(s) && MatchedPart(s, DateShape) == s && s[2..4] == "31";
    assert DigitsValue("31") == 31 by {
      assert "31"[..1] == "3" && "3"[..0] == [];
    }
  }

  // ---------------------------------------------------------------------
  // The main block
  // ---------------------------------------------------------------------

  /** Whenever the dates are accepted, both candidates have tweets in the window. */
  predicate RunDefined(tweets: seq<Tweet>, dates: seq<string>) {
    CheckDates(dates).Window? ==> StatsDefined(tweets, CheckDates(dates).date1, CheckDates(dates).date2)
  }

  /**
   * What the main block does once it has a window and both statistics: the
   * response is written, then texted, then tweeted in two parts.
   */
  function Respond(date1: Moment, date2: Moment, clinton: Stats, trump: Stats,
                   phones: seq<string>, handles: seq<string>): (events: seq<Event>)
    requires Valid(date1) && Valid(date2)
  {
    var response := CreateResponse(date1, date2, clinton, trump);
    var parts := CreateTwitterResponse(date1, date2, clinton, trump);
    [Output(response)] + TextEvents(phones, response) + TweetEvents(handles, parts.0, parts.1)
  }

  /**
   * Everything the main block does, in order: on rejected dates one
   * message and nothing else; otherwise the statistics of both candidates
   * over the window and the response built from them.
   */
  function RunEvents(tweets: seq<Tweet>, dates: seq<string>, phones: seq<string>, handles: seq<string>,
                     avgText: Mean -> string): (events: seq<Event>)
    requires RunDefined(tweets, dates)
  {
    match CheckDates(dates)
    case Exit(message) => [Output(message)]
    case Window(date1, date2) =>
      Respond(date1, date2,
              StatsOf(Filter(tweets, InWindow(Clinton, date1, date2)), avgText),
              StatsOf(Filter(tweets, InWindow(Trump, date1, date2)), avgText),
              phones, handles)
  }

  /** Writes the response and sends it on; a malformed phone number does not stop the tweets. */
  method Answer(fx: Effects, date1: Moment, date2: Moment, clinton: Stats, trump: Stats,
                phones: seq<string>, handles: seq<string>)
    requires Valid(date1) && Valid(date2)
    modifies fx
    ensures fx.log == old(fx.log) + Respond(date1, date2, clinton, trump, phones, handles)
  {
    var response := CreateResponse(date1, date2, clinton, trump);
    fx.WriteLine(response);
    var parts := CreateTwitterResponse(date1, date2, clinton, trump);
    SendTexts(fx, phones, response);
    SendTweets(fx, handles, parts.0, parts.1);
  }

  /**
   * The main block of the date-range bot. `dates`, `phones` and `handles`
   * are the values of `--dates`, `--phone` and `--twitter` (empty when the
   * flag is absent); `tweets` is the dataset.
   */
  method Run(fx: Effects, tweets: seq<Tweet>, dates: seq<string>, phones: seq<string>, handles: seq<string>,
             avgText: Mean -> string)
    requires RunDefined(tweets, dates)
    modifies fx
    ensures fx.log == old(fx.log) + RunEvents(tweets, dates, phones, handles, avgText)
  {
    var check := CheckDates(dates);
    match check
    case Exit(message) =>
      fx.WriteLine(message);
    case Window(date1, date2) =>
      var clinton, trump := CompareTweets(tweets, date1, date2, avgText);
      Answer(fx, date1, date2, clinton, trump, phones, handles);
  }

  /** Rejected dates: one message, no statistics, and nothing is sent or opened. */
  lemma RejectedDatesSendNothing(tweets: seq<Tweet>, dates: seq<string>, phones: seq<string>, handles: seq<string>,
                                 avgText: Mean -> string)
    requires CheckDates(dates).Exit?
    ensures RunEvents(tweets, dates, phones, handles, avgText) == [Output(CheckDates(dates).message)]
  {
  }

  /**
   * A malformed phone number stops only the texts: the response is still
   * written and every well-formed handle still gets its two posts.
   */
  lemma BadPhoneStillTweets(date1: Moment, date2: Moment, clinton: Stats, trump: Stats,
                            phones: seq<string>, handles: seq<string>, bad: int)
    requires Valid(date1) && Valid(date2)
    requires 0 <= bad < |phones| && !IsPhoneNumber(phones[bad])
    requires handles != [] && AllTwitterHandles(handles)
    ensures var events := Respond(date1, date2, clinton, trump, phones, handles);
      |events| == 3 + 2 * |handles| &&
      events[0] == Output(CreateResponse(date1, date2, clinton, trump)) &&
      events[1] == Output(BadPhoneMessage) && events[2] == CredentialsOpened &&
      forall i :: 3 <= i < |events| ==> events[i].Status?
  {
    var parts := CreateTwitterResponse(date1, date2, clinton, trump);
    var response := CreateResponse(date1, date2, clinton, trump);
    TweetsTwoPerHandle(handles, parts.0, parts.1);
    var tweetEvents := TweetEvents(handles, parts.0, parts.1);
    assert TextEvents(phones, response) == [Output(BadPhoneMessage)];
    forall i | 1 <= i < |tweetEvents| ensures tweetEvents[i].Status? {
      var k := (i - 1) / 2;
      assert 0 <= k < |handles| && (i == 1 + 2 * k || i == 2 + 2 * k);
      assert tweetEvents[1 + 2 * k] == Status("@" + handles[k] + " " + parts.0);
      assert tweetEvents[2 + 2 * k] == Status("@" + handles[k] + " " + parts.1);
    }
  }

}
