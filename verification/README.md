# NightTrainChecker watchdog — a Dafny model of its decision logic

NightTrainChecker watches the SJ booking API for the night train to Gällivare
and sends a Telegram message once tickets can be bought. This project models
the decision part of both versions of the watchdog. HTTP, the clock, ISO
parsing and Telegram delivery are left out. What remains is a pure function
from already-fetched API data to the messages that get sent.

- `Watchdog` (`watchdog.dfy`) models `run_watchdog` in `src/main.py`. It has
  the optional test message, the early returns without a search session or a
  results body, and the "schedule not released" heartbeat. It has the scan of
  the first travel's departures: the exclusive 07:30–09:00 arrival window, the
  warnings, one offers request per match and an alert per released match. It
  ends with the Monday weekly report. `RunWatchdog` and `ScanDepartures`
  follow the code step by step. `Expected` is the independent declarative
  reference for the same run. The lemmas state the properties of a run
  against `Expected`.
- `LegacyWatchdog` (`legacy_watchdog.dfy`) models `check_tickets` and the
  unconfigured branch of `send_telegram_alert` in `train_watchdog.py`. This
  covers the search status check, the night-train test over legs, the
  bookability test, the alert on the first qualifying journey and the `break`
  after it. Every `KeyError`/`TypeError` path ends in the `except` at the end
  of `check_tickets`.
- `Clock` (`clock.dfy`) holds the `strftime("%H:%M")` rendering of a time of
  day and Python's string `<`. It also holds the lemma that, on zero-padded
  "HH:MM" strings, the string order is the minutes-since-midnight order.
  That lemma is why the string comparison in the window test is correct.
- `Maybe` and `Text` hold `Option`, Python truthiness of optional strings,
  substring containment, concatenation of f-string parts and `str.join`.

How inputs are represented:
- A departure's arrival is the rendered "HH:MM" string (the subset type
  `HhMm`, exactly the strings `strftime("%H:%M")` produces, see
  `StrftimeRoundTrip`). It is `None` when `arrivalDateTime` is missing, null
  or empty.
- A falsy results body (`None` or `{}`) is `None`. A truthy body whose
  `travels` is missing, null or empty has no travels.
- `get_offers` is a function from the departure id to an optional `Offers`
  record. `None` means a failed request, a non-200 reply or an empty body.
  `Offers.available` is the truthiness of the `available` field.
- Messages are the `Message` datatype. `Render` gives the exact HTML text
  that is posted.
- The weekday is an input (Monday is 0).

## Model

| member | source | states |
|---|---|---|
| Watchdog.RunWatchdog | src/main.py:7-88 | The step-by-step run (test message, early returns, heartbeat, departure scan, weekly report with both status branches) sends exactly the messages and makes exactly the offer requests of the declarative reference `Expected`. |
| Watchdog.ScanDepartures | src/main.py:41-76 | The departure loop returns, in input order, the alerts for matched departures whose offers are released and the ids queried for matched departures. `found_target` holds iff some departure has an arrival strictly between "07:30" and "09:00". The kept warnings are empty whenever nothing matched. |
| Watchdog.NoSessionSendsOnlyTestMessage | src/main.py:11-28 | With a falsy search id or a falsy results body, nothing is sent except the optional test message, and no offers are requested. |
| Watchdog.EmptyScheduleHeartbeat | src/main.py:30-36 | With no travels, the only message after the test message is "Schedule not released yet", sent on Monday only. |
| Watchdog.LaterTravelsIgnored | src/main.py:38 | Only `travels[0]` is examined. Runs whose first travel agrees are identical, whatever follows it. |
| Watchdog.ArrivalLessDepartureSkipped | src/main.py:44-46 | Inserting a departure without an arrival anywhere leaves the matches, the offer queries and the alerts unchanged. |
| Watchdog.DepartureWithoutArrivalIgnored | src/main.py:45-46 | Such a departure changes nothing in the whole run, including whether the weekly report is sent. |
| Watchdog.WindowIsStrictlyBetween | src/main.py:48-51 | The string test "07:30" < t < "09:00" on a rendered arrival holds iff 450 < minutes since midnight < 540. Both bounds are exclusive, so 07:30 and 09:00 never match. |
| Watchdog.WindowOfTimeOfDay | src/main.py:48-51 | On the parsed arrival, seconds included, the test holds iff 07:31:00 <= arrival < 09:00:00. `%H:%M` drops the seconds, so an arrival at 07:30:30 renders as "07:30" and does not match. |
| Clock.LexLessIsClockOrder | src/main.py:51 | On zero-padded "HH:MM" strings, Python's lexicographic `<` agrees with comparing minutes since midnight, in both directions. |
| Clock.StrftimeOrder | src/main.py:48-51 | Rendered times compare as strings exactly as their whole minutes since midnight compare. A string `<` implies the times themselves are in order. Two times render the same iff they agree on hour and minute, so times within one minute are not told apart. |
| Clock.Strftime | src/main.py:48 | `%H:%M` yields a zero-padded "HH:MM" reading that denotes the same whole minutes since midnight; the seconds are dropped. |
| Clock.StrftimeRoundTrip | src/main.py:48 | Reading back a rendering gives the same hour and minute with the seconds dropped. Rendering a read-back "HH:MM" gives the string back, so `HhMm` is exactly the set of `strftime` outputs. |
| Watchdog.ScanDistributes | src/main.py:44-76 | The scan is a left-to-right pass: matches, offer queries and alerts of a concatenation are the concatenations. |
| Watchdog.AlertsInInputOrder | src/main.py:44-73 | Each departure contributes its own alert at its own position. There is no early break, no reordering and no dedup. |
| Watchdog.AlertDecision | src/main.py:63-73 | A departure produces exactly one alert iff it matches and its offers are non-null with a truthy `available`. The alert carries its arrival and its price, "Unknown" when `priceFrom.price` is absent. |
| Watchdog.RenderedAlertMentions | src/main.py:67-72 | The alert text contains the travel date, the arrival time, the price and the currency " SEK". |
| Watchdog.AlertsAreAlerts | src/main.py:63-73 | The departure scan emits only alerts, all for the configured date. |
| Watchdog.MatchesEmptyIffNoMatch | src/main.py:44-52 | The list of matched departures is empty iff no departure passes the window test, so `found_target` stays false exactly then. |
| Watchdog.WeeklyReportIffNothingMatched | src/main.py:52-88 | The "Night Train not in list yet" report is sent iff no departure of the first travel is in the arrival window and it is Monday. A match whose offers are unavailable still suppresses it. |
| Watchdog.BlockedReportNeverSent | src/main.py:52-86 | No run ever sends the "Train found but blocked" status. Warnings are kept only for a match, and a match suppresses the report. |
| Watchdog.ReleasedTrainAlertsOnce | src/main.py:44-73 | One departure arriving 08:24 whose offers are released at 1200 gives exactly one alert, for 08:24 at 1200, on any weekday. |
| Watchdog.UnreleasedTrainSendsNothing | src/main.py:63-88 | The same departure with offers not released sends nothing, not even on a Monday. |
| LegacyWatchdog.ScanLegs | train_watchdog.py:93-96 | The leg loop raises iff some leg lacks `type`, or has type 'TRAIN' without `trainNumber`. Otherwise it reports a night train iff some leg has type 'TRAIN' and train number '94' or '93'. |
| LegacyWatchdog.CheckTickets | train_watchdog.py:78-116 | A failed request or an unreadable body ends in the failure handler and a non-200 status in the API error; none of these sends an alert. Otherwise the run sends at most one alert. The alerted journey is the first one that is a bookable night train (a missing `isBookable` counts as false), with every earlier journey read and passed. The "still not available" ending happens iff every journey passes, i.e. iff no alert was sent and nothing raised. A 200 reply whose body has no `journeys` key ends "still not available" with no alert. |
| LegacyWatchdog.AlertTextMentions | train_watchdog.py:100-106 | The alert text contains the date, the origin and destination names, the price amount and the currency. |
| LegacyWatchdog.SendTelegramAlert | train_watchdog.py:24-36 | Without a bot token or chat id nothing is posted and the message is printed after a notice. Otherwise the message is posted, unchanged, to that chat at the bot's URL. |

## Left out

- `src/sj_api.py`, the SJ HTTP client (headers, API key, endpoints): its three calls are inputs. A failed or non-200 call is `None`.
- `src/notifier.py`, Telegram delivery: sending a message appends it to the run's output, whether or not a token is configured.
- `src/config.py`, environment and constant loading: date and test flag are parameters of `run_watchdog`. The trip of `train_watchdog.py` (2026-03-15, Stockholm Arlanda to Gällivare C) is a parameter.
- `time.sleep(1)` and `datetime.now().weekday()`: timing and the clock. The weekday is an input.
- `datetime.fromisoformat`: the arrival is given already rendered as "HH:MM". A malformed timestamp would raise `ValueError` and abort `run_watchdog`; that crash is not represented.
- Uncaught exceptions in `run_watchdog` are not represented, and the input types exclude them. A non-dict first travel (src/main.py:38) or a null `departures` (src/main.py:39) aborts the run before the scan. A non-dict departure (src/main.py:45), a null `unavailableReasons` or a non-dict reason on a matching departure (src/main.py:55-56), or a null `priceFrom` (src/main.py:66) aborts it mid-scan.
- `get_offers` is a pure function of the departure id, so two matching departures with the same id get the same reply. The source makes a separate request for each.
- A reason entry without `code` puts `None` into the warnings. Codes are strings here, because warnings only feed the status text that can never be sent.
- Non-boolean truthy values of `available` and `isBookable` are reduced to booleans.
- A null `journeys` value raises in the source and is not represented, and neither are legs that are not objects or `legs` values of other JSON types. A missing or null `legs` is represented, and so is a missing field anywhere in `priceQuote.price`.
- `get_location_id` in `train_watchdog.py`: a network lookup that exits the process on failure.
- Console output is left out, except that the run's `Ending` records which closing line `check_tickets` prints: the API error, "Script failed", or "still not available/sold out". The broad exception swallowing around network calls is left out too.
