/**
 * The earlier month-based variant of the bot: the window is a range of
 * calendar months, and the statistics are the exact means and the count.
 */
module Monthly {
  import opened Options
  import opened Calendar
  import opened Tweets
  import Bot

  const MinMonth := 4
  const MaxMonth := 9

  /** An original tweet by `handle` whose month lies in `[minMonth, maxMonth]`, both ends included. */
  function InMonths(handle: string, minMonth: int, maxMonth: int): (keep: Tweet -> bool)
  {
    (t: Tweet) => t.handle == handle && t.isRetweet == "False" && minMonth <= t.time.month <= maxMonth
  }

  /** `filter_tweets` of the month-based variant: the tweets in the month range, in input order. */
  method FilterTweets(tweets: seq<Tweet>, handle: string, minMonth: int, maxMonth: int) returns (results: seq<Tweet>)
    ensures results == Filter(tweets, InMonths(handle, minMonth, maxMonth))
  {
    results := [];
    var i := 0;
    while i < |tweets|
      invariant 0 <= i <= |tweets|
      invariant results == Filter(tweets[..i], InMonths(handle, minMonth, maxMonth))
    {
      var tweet := tweets[i];
      assert tweets[..i + 1][..i] == tweets[..i];
      if tweet.handle == handle && tweet.isRetweet == "False" {
        if tweet.time.month >= minMonth && tweet.time.month <= maxMonth {
          results := results + [tweet];
        }
      }
      i := i + 1;
    }
    assert tweets[..i] == tweets;
  }

  /** The statistics of the month-based variant: the two means, then the number of tweets. */
  datatype MonthStats = MonthStats(retweetAvg: Mean, favoriteAvg: Mean, numTweets: nat)

  /**
   * `get_tweet_stats` of the month-based variant: sums over every record,
   * each divided by the number of records, which is also the third
   * component. The source divides by the length, so the list must not be
   * empty.
   */
  method GetTweetStats(tweets: seq<Tweet>) returns (stats: MonthStats)
    requires tweets != []
    ensures stats.numTweets == |tweets|
    ensures stats.retweetAvg == Mean(Sum(tweets, RetweetCount), |tweets|)
    ensures stats.favoriteAvg == Mean(Sum(tweets, FavoriteCount), |tweets|)
  {
    var retweetSum, favoriteSum := 0, 0;
    var i := 0;
    while i < |tweets|
      invariant 0 <= i <= |tweets|
      invariant retweetSum == Sum(tweets[..i], RetweetCount)
      invariant favoriteSum == Sum(tweets[..i], FavoriteCount)
    {
      assert tweets[..i + 1][..i] == tweets[..i];
      retweetSum := retweetSum + tweets[i].retweets;
      favoriteSum := favoriteSum + tweets[i].favorites;
      i := i + 1;
    }
    assert tweets[..i] == tweets;
    stats := MonthStats(Mean(retweetSum, |tweets|), Mean(favoriteSum, |tweets|), |tweets|);
  }

  /** Both accounts have at least one tweet in the month range, so neither mean divides by zero. */
  predicate StatsDefined(tweets: seq<Tweet>, minMonth: int, maxMonth: int) {
    Filter(tweets, InMonths(Bot.Clinton, minMonth, maxMonth)) != [] &&
    Filter(tweets, InMonths(Bot.Trump, minMonth, maxMonth)) != []
  }

  /**
   * `compare_tweets` of the month-based variant: both candidates over the
   * one month range. `tweets` stands for what `read_tweets()` returns.
   */
  method CompareTweets(tweets: seq<Tweet>, minMonth: int, maxMonth: int) returns (clinton: MonthStats, trump: MonthStats)
    requires StatsDefined(tweets, minMonth, maxMonth)
    ensures var mine := Filter(tweets, InMonths(Bot.Clinton, minMonth, maxMonth));
      clinton == MonthStats(Mean(Sum(mine, RetweetCount), |mine|), Mean(Sum(mine, FavoriteCount), |mine|), |mine|)
    ensures var theirs := Filter(tweets, InMonths(Bot.Trump, minMonth, maxMonth));
      trump == MonthStats(Mean(Sum(theirs, RetweetCount), |theirs|), Mean(Sum(theirs, FavoriteCount), |theirs|), |theirs|)
  {
    var clintonTweets := FilterTweets(tweets, Bot.Clinton, minMonth, maxMonth);
    var trumpTweets := FilterTweets(tweets, Bot.Trump, minMonth, maxMonth);
    clinton := GetTweetStats(clintonTweets);
    trump := GetTweetStats(trumpTweets);
  }

  /** A window of months, first and last included. */
  datatype MonthRange = MonthRange(minMonth: int, maxMonth: int)

  /**
   * The `--month` handling of the main block: no months means April to
   * September; one month in that span is a window of its own; two months
   * are a window when the first is not before April, the second not after
   * September, and the first not after the second. Anything else is refused
   * (None), and the program stops.
   */
  function CheckMonths(months: seq<int>): (r: Option<MonthRange>)
    ensures months == [] ==> r == Some(MonthRange(MinMonth, MaxMonth))
    ensures r.Some? ==> MinMonth <= r.value.minMonth <= r.value.maxMonth <= MaxMonth
  {
    if months == [] then Some(MonthRange(MinMonth, MaxMonth))
    else if |months| == 1 && months[0] >= MinMonth && months[0] <= MaxMonth then Some(MonthRange(months[0], months[0]))
    else if |months| == 2 && months[0] >= MinMonth && months[1] <= MaxMonth && months[0] <= months[1] then
      Some(MonthRange(months[0], months[1]))
    else None
  }

  /** Which month arguments are accepted, and the window each gives. */
  lemma CheckMonthsAccepts(months: seq<int>)
    ensures |months| == 1 ==>
      (CheckMonths(months).Some? <==> MinMonth <= months[0] <= MaxMonth) &&
      (CheckMonths(months).Some? ==> CheckMonths(months).value == MonthRange(months[0], months[0]))
    ensures |months| == 2 ==>
      (CheckMonths(months).Some? <==> MinMonth <= months[0] <= months[1] <= MaxMonth) &&
      (CheckMonths(months).Some? ==> CheckMonths(months).value == MonthRange(months[0], months[1]))
    ensures |months| > 2 ==> CheckMonths(months) == None
  {
  }

  /** Filtering with two tests that agree on every record of `s` gives the same result. */
  lemma {:induction false} FilterAgrees(s: seq<Tweet>, keep1: Tweet -> bool, keep2: Tweet -> bool)
    requires forall i :: 0 <= i < |s| ==> keep1(s[i]) == keep2(s[i])
    ensures Filter(s, keep1) == Filter(s, keep2)
  {
    if s != [] {
      var init := s[..|s| - 1];
      assert forall i :: 0 <= i < |init| ==> init[i] == s[i];
      FilterAgrees(init, keep1, keep2);
    }
  }

  /**
   * On records with real 2016 times, a month range of the month-based
   * variant selects the same tweets as the date window of the date-range
   * bot from midnight on the first day of the first month to the last
   * second of the last month.
   */
  lemma MonthRangeIsDateWindow(tweets: seq<Tweet>, handle: string, minMonth: int, maxMonth: int)
    requires 1 <= minMonth <= maxMonth <= 12
    requires forall i :: 0 <= i < |tweets| ==> Valid(tweets[i].time) && tweets[i].time.year == 2016
    ensures Filter(tweets, InMonths(handle, minMonth, maxMonth)) ==
            Filter(tweets, Bot.InWindow(handle, Moment(2016, minMonth, 1, 0),
                                        Moment(2016, maxMonth, DaysInMonth(2016, maxMonth), 86399)))
  {
    var first := Moment(2016, minMonth, 1, 0);
    var last := Moment(2016, maxMonth, DaysInMonth(2016, maxMonth), 86399);
    FilterAgrees(tweets, InMonths(handle, minMonth, maxMonth), Bot.InWindow(handle, first, last));
  }

}
