# Campaign tweets bot, modelled in Dafny

The bot compares how two 2016 presidential candidates, `HillaryClinton` and
`realDonaldTrump`, did on Twitter over a window of dates. It keeps each
account's original tweets in the window and counts them. It averages their
retweets and favorites. It writes the comparison as one sentence, or as two
posts for Twitter. It can text the sentence to phone numbers and tweet the
two parts at Twitter handles. `main.py` is an earlier variant that uses a
window of calendar months instead of dates.

The model has one module per concern:

- `Tweets` (`tweets.dfy`): the tweet record, the stable filter both variants
  use, and the per-record sums.
- `Bot` (`bot.dfy`): `bot.py`. It covers filtering, statistics, the two
  response formats, the `--dates` checks and the main block.
- `Export` (`export.dfy`): `data_export.py`. The outside world is a class
  `Effects` whose only state is a log of events: console lines, text
  messages, the opening of the credentials file, and posted statuses.
  `SendTexts` and `SendTweets` are loops that append to that log. The
  functions `TextEvents` and `TweetEvents` state what they append.
- `Monthly` (`monthly.dfy`): the month-based filter, statistics,
  `compare_tweets` and `--month` check of `main.py`.
- `Numerals`, `Calendar`, `Patterns`, `Options`: decimal numerals and
  `format(n, ',d')`, date-times with their order and
  `strftime("%b %d, %Y")`, the regular-expression shapes, and an option type.

Times are `Calendar.Moment` values: year, month, day and second of the day.
They are compared field by field, as Python compares `datetime`s.
`MIN_DATE` and `MAX_DATE` are midnight on 4/17/16 and on 9/29/16. A tweet
at exactly 00:00:00 on 9/29 is therefore still counted.

Command-line flags are sequences of strings. An absent flag and an empty
one are both the empty sequence, because the source tests them with
`if args.x:`. The record sequence that `read_tweets()` returns is a
parameter.

Three behaviours of the code are worth knowing:

- Phone numbers are exactly ten digits, and `+1` is put in front when
  sending. A number given with its country code, such as `15551234567`, is
  refused.
- An account with no tweet in the window is not caught. Python divides by
  zero there, so the model makes a non-empty filtered list a precondition.
- Nothing checks the 140-character limit of the two Twitter parts.

## Model

| member | source | states |
|---|---|---|
| `Tweets.Filter` | bot.py:28-36 | every record kept passes the test, and the result is no longer than the input |
| `Tweets.FilterSelectsExactly` | bot.py:30-34 | the filter keeps exactly the records that pass the test, in their original order: the result is the input at a strictly increasing list of positions, and a position is listed iff its record passes |
| `Tweets.KeptIndicesAscending` | bot.py:30-34 | the kept positions are in range and strictly increasing, and a position is listed iff its record passes the test |
| `Tweets.FilterAtKeptIndices` | bot.py:30-34 | the i-th kept record is the input record at the i-th kept position |
| `Tweets.FilterAppend` | bot.py:30-34 | filtering a concatenation is filtering each part and concatenating, so the filter is stable |
| `Tweets.FilterIdempotent` | bot.py:31-33 | filtering the result again with the same test returns it unchanged |
| `Tweets.SumBetween` | bot.py:17-22 | when every count lies in `[lo, hi]`, the sum over n records lies in `[n * lo, n * hi]`, so the average lies between the smallest and the largest count |
| `Bot.FilterTweets` | bot.py:28-36 | the loop returns exactly `Filter` with the test "handle matches, `is_retweet` is `'False'`, `date1 <= time <= date2`" |
| `Bot.WindowInclusive` | bot.py:33 | a tweet exactly at either bound is kept; one strictly before the start or strictly after the end is not |
| `Bot.WindowNeighboursExcluded` | bot.py:33 | for real moments, the second just after the end and the second just before the start are not in the window |
| `Bot.GetTweetStats` | bot.py:14-26 | the loop's sums are the sums over every record; the count is the length with comma grouping; the averages come from those sums and the length; the list must be non-empty |
| `Bot.CountReadsBack` | bot.py:24 | the count string without its commas is the decimal numeral of the length and reads back as the length; every group after the first has three digits |
| `Bot.CompareTweets` | bot.py:38-47 | both candidates' statistics come from the filter with the same `(date1, date2)` window |
| `Bot.TwitterResponseSplitsResponse` | bot.py:52-86 | the first Twitter part ends in `...`; the part without `...`, a space, and the second part together make the long response exactly |
| `Bot.ParseDate` | bot.py:106-111 | a parsed date argument is a valid date of 2016, in April to September, at midnight |
| `Bot.DateArgumentParses` | bot.py:103-108 | every real day of April to September written as `m/d/16` matches the pattern and parses back to that day |
| `Bot.CheckDates` | bot.py:99-128 | no dates give `[MIN_DATE, MAX_DATE]`; an accepted window is ordered and inside `[MIN_DATE, MAX_DATE]`; a refusal carries one of the three messages |
| `Bot.CheckDatesSymmetric` | bot.py:113-114 | the result does not depend on the order of the two dates |
| `Bot.CheckDatesAccepts` | bot.py:102-128 | stats are computed iff no dates are given, or two well-shaped dates parse and both lie in `[MIN_DATE, MAX_DATE]`; the window is those two dates |
| `Bot.CheckDateArguments` | bot.py:113-121 | for two real days, the window is (earlier, later) when both are in range, otherwise the range message |
| `Bot.CheckDatesEdges` | bot.py:8-9 | 9/29/16 with 4/17/16 is accepted as the full window; 4/16/16 or 9/30/16 is refused |
| `Bot.SingleDayWindow` | bot.py:113-116 | the same day given twice is the window of its midnight alone, so a tweet one second later is not counted |
| `Bot.CheckDatesMalformedRefused` | bot.py:105-111 | a well-shaped day that does not exist (4/31/16) fails to parse; a single date has the wrong shape |
| `Bot.Answer` | bot.py:130-135 | the log gets the response line, then the texts, then the tweets of the two parts |
| `Bot.Run` | bot.py:92-135 | the log gets exactly `RunEvents`: one message on refused dates, otherwise the statistics of both candidates over the window, then the response |
| `Bot.RejectedDatesSendNothing` | bot.py:119-124 | refused dates give one console line and nothing sent or opened |
| `Bot.BadPhoneStillTweets` | data_export.py:13-15 | a malformed phone number stops only the texts: the response, the complaint, the credentials, then two posts per handle |
| `Export.Effects.WriteLine` | data_export.py:14 | a console line is appended to the log |
| `Export.Effects.Publish` | data_export.py:20 | one text message is appended to the log |
| `Export.Effects.OpenCredentials` | data_export.py:30 | opening the credentials file is appended to the log |
| `Export.Effects.UpdateStatus` | data_export.py:38-39 | one posted status is appended to the log |
| `Export.SendTexts` | data_export.py:9-20 | the log gets exactly `TextEvents`: nothing without numbers, one complaint if any number is malformed, else the texts |
| `Export.SendTweets` | data_export.py:22-39 | the log gets exactly `TweetEvents`: nothing without handles, one complaint if any handle is malformed, else the credentials, then the posts |
| `Export.PostStatuses` | data_export.py:35-39 | the posting loop appends exactly the batch: for each handle in turn, `"@h " + part1` then `"@h " + part2` |
| `Export.TextsAllOrNothing` | data_export.py:12-15 | if any number fails the ten-digit check, no text is sent at all, not even to the valid numbers |
| `Export.SmsBatchAt` | data_export.py:19-20 | the batch has one text per number, the i-th to `+1` and the i-th number |
| `Export.TextsOnePerNumber` | data_export.py:19-20 | when all numbers are valid: exactly one text per number, in list order, to `'+1' + number`, each with the same body |
| `Export.StatusBatchAt` | data_export.py:35-39 | the batch has two posts per handle, `@h ` and part 1, then `@h ` and part 2 |
| `Export.TweetsValidateFirst` | data_export.py:25-33 | the credentials are opened iff there are handles and all are well formed; they are opened once, as the first event, and every post comes after |
| `Export.TweetsTwoPerHandle` | data_export.py:35-39 | when all handles are valid: 1 + 2 × (number of handles) events, each handle getting `"@h " + part1` then `"@h " + part2`, in handle order |
| `Monthly.FilterTweets` | main.py:51-59 | the loop returns exactly the records with the handle, `is_retweet == 'False'` and `min_month <= month(time) <= max_month`, in input order |
| `Monthly.GetTweetStats` | main.py:34-45 | the means are the sums over every record divided by the length, and the third component is the length; the list must be non-empty |
| `Monthly.CompareTweets` | main.py:61-70 | both candidates' statistics use the same month window |
| `Monthly.CheckMonths` | main.py:124-139 | no months give `[MIN_MONTH, MAX_MONTH]`; any accepted window is ordered and inside `[4, 9]` |
| `Monthly.CheckMonthsAccepts` | main.py:125-135 | one month is accepted iff `4 <= m <= 9`, giving `[m, m]`; two iff `4 <= m0 <= m1 <= 9`, giving `[m0, m1]`; more are refused |
| `Monthly.MonthRangeIsDateWindow` | main.py:56 | on 2016 records, a month window selects the same tweets as the date window from its first midnight to its last second |
| `Numerals.GroupedReadsBack` | bot.py:24 | `format(n, ',d')` without commas is the numeral of `n` and reads back as `n`; the commas make a first group of 1–3 digits and later groups of exactly 3 |
| `Numerals.DecimalReadsBack` | bot.py:24 | the decimal numeral of `n` reads back as `n` |
| `Calendar.RenderDate` | bot.py:55-56 | `strftime("%b %d, %Y")` gives 12 characters: the month abbreviation, a space, the two-digit day that reads back as the day, `, `, and the year that reads back as the year |
| `Calendar.Earlier` | bot.py:113 | `min` returns one of its arguments, and no later than either |
| `Calendar.Later` | bot.py:114 | `max` returns one of its arguments, and no earlier than either |
| `Calendar.SuccessorIsNext` | bot.py:33 | for real moments, `t < x` holds iff the second after `t` is at or before `x`: no real moment lies between a moment and its successor |
| `Calendar.EarlierLaterSymmetric` | bot.py:113-114 | `min` and `max` of two moments do not depend on the order, and the minimum is no later than the maximum |

## Left out

- `data_import.py` and `fetch_tweets`/`read_tweets` (main.py:22-32) download, cache and read the CSV. This is I/O. The records are a parameter.
- Reading a CSV row is not modelled: `int(...)` of the count columns and `dateutil` parsing of the `time` column. Records arrive with integer counts and a `Moment` time. Sub-second precision of tweet times is not represented.
- `Bot.GetTweetStats`: the averages use floats (`"{:,.2f}".format(round(sum / len, 2))`). They are the parameter `avgText` applied to the exact `Mean(sum, count)`, so rounding and rendering are not modelled.
- `Monthly.GetTweetStats`: `round(sum / len, 2)` is a float. It is kept as the exact `Mean(sum, count)`.
- `Bot.ParseDate`: `dateutil.parse` is a foreign library. Only the strings that pass `^[4-9]/\d{1,2}/16$` are parsed. They are read as month/day/2016, and a day the month does not have fails to parse. Other leniencies of `dateutil` are not modelled.
- `\d` and `\w` are ASCII only here (`0-9`, `[A-Za-z0-9_]`); Python 3 matches Unicode digits and word characters. Python's `$` matching before one final newline is modelled.
- The boto3 session and SNS client (data_export.py:17-18) are not modelled. The Twython client (data_export.py:33) and the JSON content of `twitter-creds.json` are not modelled either. Failures of these calls are not modelled: a missing credentials file, network errors, exceptions. Each send is one event in the log.
- `exit()` after a refused date is modelled as the end of the event log. The process exit status is not modelled.
- The comment at bot.py:67-68 says the two Twitter parts fit in 140 characters. Nothing enforces it, and with long statistics and a 15-character handle a post can exceed it. It is not stated.
- In `main.py`, `get_month_stats`, `get_all_months_stats`, `print_error_message` and the phone/argv handling (main.py:75-177) are broken or do not parse (for example `return` outside a function, an empty `else:`). They are not modelled, and neither is the commented-out code (main.py:185-205). For the same reason `main.py` as a whole cannot run. `Monthly.CheckMonths` models the intended month check: a refusal is `None`, and the error text is not modelled.
