/** The decision logic of `run_watchdog` (src/main.py): from the already
    fetched search session, timetable and per-departure offers, the ordered
    list of messages handed to the notifier.

    The network calls of the SJ client are inputs: `searchId` is what
    `search_departures` returned, `timetable` what `fetch_results` returned,
    and `offers` answers `get_offers` for a departure id. The clock is the
    `weekday` input. */
module Watchdog {
  import opened Maybe
  import opened Clock
  import opened Text

  /** `datetime.weekday()`: Monday is 0. */
  type Weekday = d: int | 0 <= d < 7

  /** One entry of a departure's `unavailableReasons`. */
  datatype Reason = Reason(code: string)

  /** A departure of the timetable. `arrival` is `arrivalDateTime`
      rendered by `strftime("%H:%M")`, `None` when that field is missing,
      null or empty; `id` is `departureId`. */
  datatype Departure = Departure(arrival: Option<HhMm>, id: Option<string>, reasons: seq<Reason>)

  datatype Travel = Travel(departures: seq<Departure>)

  /** A truthy results body. Its `travels` is empty when the key is
      missing, null or an empty list. A falsy body (None or `{}`) is the
      `None` of `Option<Timetable>`. */
  datatype Timetable = Timetable(travels: seq<Travel>)

  /** A truthy offers reply: `available` is the truthiness of its
      `available` field (false when missing), `price` the rendered
      `priceFrom.price`, `None` when either level is missing. A falsy or
      failed reply is the `None` of `Option<Offers>`. */
  datatype Offers = Offers(available: bool, price: Option<string>)

  /** The status line of a weekly report. */
  datatype Status = NotReleased | NotInList | Blocked(codes: seq<string>)

  /** A message handed to the notifier; `Render` gives its exact text. */
  datatype Message =
    | TestMessage
    | Alert(date: string, arrival: HhMm, price: string)
    | WeeklyReport(date: string, status: Status)

  /** What one run does: the messages sent, in order, and the departure
      ids whose offers were requested, in order. */
  datatype Run = Run(sent: seq<Message>, offerQueries: seq<Option<string>>)

  /** The arrival window, both bounds exclusive. */
  const WindowStart: string := "07:30"
  const WindowEnd: string := "09:00"

  const AlertHead: string :=
    "\U{1F6A8} <b>TICKETS RELEASED!</b>\n\U{1F682} <b>Night Train Found</b>\n\U{1F4C5} Date: "
  const ArriveLabel: string := "\n\U{1F3C1} Arrive: "
  const PriceLabel: string := "\n\U{1F4B0} Price: "
  const Currency: string := " SEK"
  const BuyLink: string := "\n\U{1F449} <a href='https://www.sj.se'>Buy Now</a>"

  function AlertPieces(date: string, arrival: HhMm, price: string): seq<string> {
    [AlertHead, date, ArriveLabel, arrival, PriceLabel, price, Currency, BuyLink]
  }

  /** The HTML text the notifier posts for a message. */
  function Render(m: Message): string {
    match m
    case TestMessage =>
      "\U{1F514} <b>Test Message:</b> The Watchdog is connected!"
    case Alert(date, arrival, price) =>
      Concat(AlertPieces(date, arrival, price))
    case WeeklyReport(date, status) =>
      "\U{1F5D3} <b>Weekly Report:</b>\nChecking " + date + ".\n"
      + match status
        case NotReleased => "Status: Schedule not released yet."
        case NotInList => "Status: Night Train not in list yet."
        case Blocked(codes) => "Status: Train found but blocked: " + Join(codes, ", ")
  }

  /** The window test as written: Python string comparison of the
      rendered "HH:MM". */
  predicate InWindow(arrival: string) {
    LexLess(WindowStart, arrival) && LexLess(arrival, WindowEnd)
  }

  predicate IsMatch(d: Departure) {
    d.arrival.Some? && InWindow(d.arrival.value)
  }

  /** An offers reply that releases tickets. */
  predicate Releases(o: Option<Offers>) {
    o.Some? && o.value.available
  }

  function PriceText(o: Offers): string {
    o.price.GetOr("Unknown")
  }

  /** The alert a single departure produces, if any. */
  function AlertOf(date: string, d: Departure, offers: Option<string> -> Option<Offers>): seq<Message> {
    if IsMatch(d) && Releases(offers(d.id)) then
      [Alert(date, d.arrival.value, PriceText(offers(d.id).value))]
    else []
  }

  /** The departures in the window, in input order. */
  function Matches(deps: seq<Departure>): seq<Departure>
    decreases |deps|
  {
    if deps == [] then []
    else Matches(deps[..|deps| - 1]) + (if IsMatch(deps[|deps| - 1]) then [deps[|deps| - 1]] else [])
  }

  /** The ids passed to `get_offers`, one per matched departure. */
  function Queries(deps: seq<Departure>): seq<Option<string>>
    decreases |deps|
  {
    if deps == [] then []
    else Queries(deps[..|deps| - 1]) + (if IsMatch(deps[|deps| - 1]) then [deps[|deps| - 1].id] else [])
  }

  /** The alerts for a departure list, in input order. */
  function Alerts(date: string, deps: seq<Departure>, offers: Option<string> -> Option<Offers>): seq<Message>
    decreases |deps|
  {
    if deps == [] then []
    else Alerts(date, deps[..|deps| - 1], offers) + AlertOf(date, deps[|deps| - 1], offers)
  }

  function TestPrefix(testTelegram: bool): seq<Message> {
    if testTelegram then [TestMessage] else []
  }

  /** The declarative outcome of a run: the optional test message; nothing
      more without a session or a timetable; the not-released heartbeat on
      Mondays when there are no travels; otherwise the alerts of the first
      travel's departures, then the weekly report on a Monday when none of
      them matched. */
  function Expected(date: string, testTelegram: bool, searchId: Option<string>, timetable: Option<Timetable>,
                    offers: Option<string> -> Option<Offers>, weekday: Weekday): Run
  {
    var prefix := TestPrefix(testTelegram);
    if !Truthy(searchId) || timetable.None? then Run(prefix, [])
    else if timetable.value.travels == [] then
      Run(prefix + (if weekday == 0 then [WeeklyReport(date, NotReleased)] else []), [])
    else
      var deps := timetable.value.travels[0].departures;
      var report := if Matches(deps) == [] && weekday == 0 then [WeeklyReport(date, NotInList)] else [];
      Run(prefix + Alerts(date, deps, offers) + report, Queries(deps))
  }

  function Codes(reasons: seq<Reason>): (codes: seq<string>)
    ensures |codes| == |reasons|
  {
    seq(|reasons|, k requires 0 <= k < |reasons| => reasons[k].code)
  }

  /** `run_watchdog` as written: one pass over the first travel's
      departures, tracking `found_target` and the warnings of the last
      matched departure, then the weekly report. */
  method RunWatchdog(date: string, testTelegram: bool, searchId: Option<string>, timetable: Option<Timetable>,
                     offers: Option<string> -> Option<Offers>, weekday: Weekday) returns (run: Run)
    ensures run == Expected(date, testTelegram, searchId, timetable, offers, weekday)
  {
    var sent: seq<Message> := [];
    var queries: seq<Option<string>> := [];
    if testTelegram {
      sent := sent + [TestMessage];
    }
    if !Truthy(searchId) {
      return Run(sent, queries);
    }
    if timetable.None? {
      return Run(sent, queries);
    }
    var travels := timetable.value.travels;
    if travels == [] {
      if weekday == 0 {
        sent := sent + [WeeklyReport(date, NotReleased)];
      }
      return Run(sent, queries);
    }
    var departures := travels[0].departures;
    var alerts, foundTarget, nightTrainWarnings;
    alerts, queries, foundTarget, nightTrainWarnings := ScanDepartures(date, departures, offers);
    assert sent == TestPrefix(testTelegram);
    sent := sent + alerts;
    if !foundTarget && weekday == 0 {
      var status := if nightTrainWarnings != [] then Blocked(nightTrainWarnings) else NotInList;
      assert status == NotInList;
      sent := sent + [WeeklyReport(date, status)];
    }
    return Run(sent, queries);
  }

  /** The `for dep in departures` loop of `run_watchdog`: skips departures
      without an arrival, and for each one in the window sets
      `found_target`, keeps its reason codes as the warnings when there are
      any, asks for its offers and alerts when they are released. */
  method ScanDepartures(date: string, departures: seq<Departure>, offers: Option<string> -> Option<Offers>)
    returns (alerts: seq<Message>, queries: seq<Option<string>>, foundTarget: bool, nightTrainWarnings: seq<string>)
    ensures alerts == Alerts(date, departures, offers)
    ensures queries == Queries(departures)
    ensures foundTarget <==> Matches(departures) != []
    ensures foundTarget <==> exists d <- departures :: IsMatch(d)
    ensures !foundTarget ==> nightTrainWarnings == []
  {
    alerts, queries, foundTarget, nightTrainWarnings := [], [], false, [];
    var i := 0;
    while i < |departures|
      invariant 0 <= i <= |departures|
      invariant foundTarget <==> Matches(departures[..i]) != []
      invariant !foundTarget ==> nightTrainWarnings == []
      invariant alerts == Alerts(date, departures[..i], offers)
      invariant queries == Queries(departures[..i])
    {
      var dep := departures[i];
      ghost var prefix := departures[..i + 1];
      assert prefix[..i] == departures[..i] && prefix[i] == dep;
      assert Matches(prefix) == Matches(departures[..i]) + (if IsMatch(dep) then [dep] else []);
      assert Queries(prefix) == Queries(departures[..i]) + (if IsMatch(dep) then [dep.id] else []);
      assert Alerts(date, prefix, offers) == Alerts(date, departures[..i], offers) + AlertOf(date, dep, offers);
      if dep.arrival.Some? {
        var arrivalTime := dep.arrival.value;
        if LexLess(WindowStart, arrivalTime) && LexLess(arrivalTime, WindowEnd) {
          foundTarget := true;
          var warnings := Codes(dep.reasons);
          if warnings != [] {
            nightTrainWarnings := warnings;
          }
          var reply := offers(dep.id);
          queries := queries + [dep.id];
          if reply.Some? && reply.value.available {
            alerts := alerts + [Alert(date, arrivalTime, reply.value.price.GetOr("Unknown"))];
          }
        }
      }
      i := i + 1;
    }
    assert departures[..i] == departures;
    MatchesEmptyIffNoMatch(departures);
  }

  /* ---------------------------------------------------------------------
     Properties of a run
     --------------------------------------------------------------------- */

  /** The string test `"07:30" < t < "09:00"` on a rendered arrival is the
      numeric time-of-day test with both bounds exclusive. */
  lemma WindowIsStrictlyBetween(t: HhMm)
    ensures InWindow(t) <==> 7 * 60 + 30 < ClockMinutes(t) < 9 * 60
  {
    assert IsClock(WindowStart) && ClockMinutes(WindowStart) == 450;
    assert IsClock(WindowEnd) && ClockMinutes(WindowEnd) == 540;
    LexLessIsClockOrder(WindowStart, t);
    LexLessIsClockOrder(t, WindowEnd);
  }

  /** The same window, stated for the parsed time of day before rendering.
      `%H:%M` drops the seconds, so 07:30:30 renders as "07:30" and does not
      match: the window on the clock is 07:31:00 up to, not including,
      09:00:00. */
  lemma WindowOfTimeOfDay(t: TimeOfDay)
    ensures InWindow(Strftime(t)) <==> (7 * 60 + 31) * 60 <= SecondsOf(t) < 9 * 60 * 60
    ensures t == TimeOfDay(7, 30, 30) ==> !InWindow(Strftime(t))
  {
    WindowIsStrictlyBetween(Strftime(t));
  }

  /** The scan is a left-to-right pass: splitting the departures splits
      the matches, the offer queries and the alerts alike. */
  lemma ScanDistributes(date: string, a: seq<Departure>, b: seq<Departure>,
                        offers: Option<string> -> Option<Offers>)
    ensures Matches(a + b) == Matches(a) + Matches(b)
    ensures Queries(a + b) == Queries(a) + Queries(b)
    ensures Alerts(date, a + b, offers) == Alerts(date, a, offers) + Alerts(date, b, offers)
  {
    MatchesDistribute(a, b);
    QueriesDistribute(a, b);
    AlertsDistribute(date, a, b, offers);
  }

  lemma {:induction false} MatchesDistribute(a: seq<Departure>, b: seq<Departure>)
    ensures Matches(a + b) == Matches(a) + Matches(b)
    decreases |b|
  {
    if b == [] {
      assert a + b == a;
    } else {
      var b' := b[..|b| - 1];
      MatchesDistribute(a, b');
      assert (a + b)[..|a + b| - 1] == a + b';
      assert (a + b)[|a + b| - 1] == b[|b| - 1];
    }
  }

  lemma {:induction false} QueriesDistribute(a: seq<Departure>, b: seq<Departure>)
    ensures Queries(a + b) == Queries(a) + Queries(b)
    decreases |b|
  {
    if b == [] {
      assert a + b == a;
    } else {
      var b' := b[..|b| - 1];
      QueriesDistribute(a, b');
      assert (a + b)[..|a + b| - 1] == a + b';
      assert (a + b)[|a + b| - 1] == b[|b| - 1];
    }
  }

  lemma {:induction false} AlertsDistribute(date: string, a: seq<Departure>, b: seq<Departure>,
                                            offers: Option<string> -> Option<Offers>)
    ensures Alerts(date, a + b, offers) == Alerts(date, a, offers) + Alerts(date, b, offers)
    decreases |b|
  {
    if b == [] {
      assert a + b == a;
    } else {
      var b' := b[..|b| - 1];
      AlertsDistribute(date, a, b', offers);
      assert (a + b)[..|a + b| - 1] == a + b';
      assert (a + b)[|a + b| - 1] == b[|b| - 1];
    }
  }

  /** Every departure contributes its own alert, if any, at its own
      position: alerts come out in input order, none is dropped or merged. */
  lemma AlertsInInputOrder(date: string, deps: seq<Departure>, k: int, offers: Option<string> -> Option<Offers>)
    requires 0 <= k < |deps|
    ensures Alerts(date, deps, offers)
         == Alerts(date, deps[..k], offers) + AlertOf(date, deps[k], offers) + Alerts(date, deps[k + 1..], offers)
  {
    assert deps == deps[..k] + [deps[k]] + deps[k + 1..];
    ScanDistributes(date, deps[..k] + [deps[k]], deps[k + 1..], offers);
    ScanDistributes(date, deps[..k], [deps[k]], offers);
    assert [deps[k]][..0] == [];
  }

  /** A departure alerts exactly once when it is in the window and its
      offers are released, and never otherwise; the alert carries the
      arrival and the price, "Unknown" when the reply has none. */
  lemma AlertDecision(date: string, d: Departure, offers: Option<string> -> Option<Offers>)
    ensures |AlertOf(date, d, offers)| == (if IsMatch(d) && Releases(offers(d.id)) then 1 else 0)
    ensures AlertOf(date, d, offers) != [] ==>
              && AlertOf(date, d, offers)[0].arrival == d.arrival.value
              && AlertOf(date, d, offers)[0].price
                 == (if offers(d.id).value.price.Some? then offers(d.id).value.price.value else "Unknown")
  {
  }

  /** The alert text names the travel date, the arrival, and the price in SEK. */
  lemma RenderedAlertMentions(date: string, arrival: HhMm, price: string)
    ensures Contains(Render(Alert(date, arrival, price)), date)
    ensures Contains(Render(Alert(date, arrival, price)), arrival)
    ensures Contains(Render(Alert(date, arrival, price)), price)
    ensures Contains(Render(Alert(date, arrival, price)), " SEK")
  {
    var pieces := AlertPieces(date, arrival, price);
    ConcatContainsPiece(pieces, 1);
    ConcatContainsPiece(pieces, 3);
    ConcatContainsPiece(pieces, 5);
    ConcatContainsPiece(pieces, 6);
  }

  /** The scan sends nothing but alerts for the configured date. */
  lemma {:induction false} AlertsAreAlerts(date: string, deps: seq<Departure>, offers: Option<string> -> Option<Offers>)
    ensures forall m <- Alerts(date, deps, offers) :: m.Alert? && m.date == date
    decreases |deps|
  {
    if deps != [] {
      AlertsAreAlerts(date, deps[..|deps| - 1], offers);
    }
  }

  /** Without a truthy search id, or without a truthy results body, the run
      sends nothing but the optional test message and asks for no offers. */
  lemma NoSessionSendsOnlyTestMessage(date: string, testTelegram: bool, searchId: Option<string>,
                                      timetable: Option<Timetable>, offers: Option<string> -> Option<Offers>,
                                      weekday: Weekday)
    requires !Truthy(searchId) || timetable.None?
    ensures Expected(date, testTelegram, searchId, timetable, offers, weekday).sent == TestPrefix(testTelegram)
    ensures Expected(date, testTelegram, searchId, timetable, offers, weekday).offerQueries == []
  {
  }

  /** With no travels, the only message after the test message is the
      not-released heartbeat, and only on a Monday. */
  lemma EmptyScheduleHeartbeat(date: string, testTelegram: bool, searchId: Option<string>,
                               offers: Option<string> -> Option<Offers>, weekday: Weekday)
    requires Truthy(searchId)
    ensures Expected(date, testTelegram, searchId, Some(Timetable([])), offers, weekday).sent
         == TestPrefix(testTelegram) + (if weekday == 0 then [WeeklyReport(date, NotReleased)] else [])
  {
  }

  /** Only the first travel is examined: travels after it never change the run. */
  lemma LaterTravelsIgnored(date: string, testTelegram: bool, searchId: Option<string>,
                            first: Travel, rest1: seq<Travel>, rest2: seq<Travel>,
                            offers: Option<string> -> Option<Offers>, weekday: Weekday)
    ensures Expected(date, testTelegram, searchId, Some(Timetable([first] + rest1)), offers, weekday)
         == Expected(date, testTelegram, searchId, Some(Timetable([first] + rest2)), offers, weekday)
  {
  }

  /** A departure without an arrival is skipped: inserting one anywhere
      in a departure list changes neither its matches, its offer queries
      nor its alerts. */
  lemma ArrivalLessDepartureSkipped(date: string, deps: seq<Departure>, k: int, d: Departure,
                                    offers: Option<string> -> Option<Offers>)
    requires d.arrival.None? && 0 <= k <= |deps|
    ensures Matches(deps[..k] + [d] + deps[k..]) == Matches(deps)
    ensures Queries(deps[..k] + [d] + deps[k..]) == Queries(deps)
    ensures Alerts(date, deps[..k] + [d] + deps[k..], offers) == Alerts(date, deps, offers)
  {
    MatchesSkip(deps, k, d);
    QueriesSkip(deps, k, d);
    AlertsSkip(date, deps, k, d, offers);
  }

  lemma MatchesSkip(deps: seq<Departure>, k: int, d: Departure)
    requires !IsMatch(d) && 0 <= k <= |deps|
    ensures Matches(deps[..k] + [d] + deps[k..]) == Matches(deps)
  {
    var pre, post := deps[..k], deps[k..];
    assert deps == pre + post;
    assert [d][..0] == [];
    assert Matches([d]) == [];
    MatchesDistribute(pre, [d]);
    assert Matches(pre + [d]) == Matches(pre);
    MatchesDistribute(pre + [d], post);
    MatchesDistribute(pre, post);
  }

  lemma QueriesSkip(deps: seq<Departure>, k: int, d: Departure)
    requires !IsMatch(d) && 0 <= k <= |deps|
    ensures Queries(deps[..k] + [d] + deps[k..]) == Queries(deps)
  {
    var pre, post := deps[..k], deps[k..];
    assert deps == pre + post;
    assert [d][..0] == [];
    assert Queries([d]) == [];
    QueriesDistribute(pre, [d]);
    assert Queries(pre + [d]) == Queries(pre);
    QueriesDistribute(pre + [d], post);
    QueriesDistribute(pre, post);
  }

  lemma AlertsSkip(date: string, deps: seq<Departure>, k: int, d: Departure, offers: Option<string> -> Option<Offers>)
    requires !IsMatch(d) && 0 <= k <= |deps|
    ensures Alerts(date, deps[..k] + [d] + deps[k..], offers) == Alerts(date, deps, offers)
  {
    var pre, post := deps[..k], deps[k..];
    assert deps == pre + post;
    assert [d][..0] == [];
    assert Alerts(date, [d], offers) == [];
    AlertsDistribute(date, pre, [d], offers);
    assert Alerts(date, pre + [d], offers) == Alerts(date, pre, offers);
    AlertsDistribute(date, pre + [d], post, offers);
    AlertsDistribute(date, pre, post, offers);
  }

  /** Hence such a departure changes nothing in the run. */
  lemma DepartureWithoutArrivalIgnored(date: string, testTelegram: bool, searchId: Option<string>,
                                       deps: seq<Departure>, k: int, d: Departure, rest: seq<Travel>,
                                       offers: Option<string> -> Option<Offers>, weekday: Weekday)
    requires d.arrival.None? && 0 <= k <= |deps|
    ensures Expected(date, testTelegram, searchId, Some(Timetable([Travel(deps[..k] + [d] + deps[k..])] + rest)), offers, weekday)
         == Expected(date, testTelegram, searchId, Some(Timetable([Travel(deps)] + rest)), offers, weekday)
  {
    ArrivalLessDepartureSkipped(date, deps, k, d, offers);
  }

  /** No departure is in the window exactly when the list of matches is
      empty: `found_target` stays false iff every departure fails the test. */
  lemma {:induction false} MatchesEmptyIffNoMatch(deps: seq<Departure>)
    ensures Matches(deps) == [] <==> forall d <- deps :: !IsMatch(d)
    decreases |deps|
  {
    if deps != [] {
      var pre := deps[..|deps| - 1];
      MatchesEmptyIffNoMatch(pre);
      assert deps == pre + [deps[|deps| - 1]];
    }
  }

  /** The end-of-run weekly report is sent exactly when no departure of the
      first travel matched and it is Monday; a match whose offers are not
      released still suppresses it. */
  lemma WeeklyReportIffNothingMatched(date: string, testTelegram: bool, searchId: Option<string>,
                                      timetable: Timetable, offers: Option<string> -> Option<Offers>,
                                      weekday: Weekday)
    requires Truthy(searchId) && timetable.travels != []
    ensures WeeklyReport(date, NotInList) in Expected(date, testTelegram, searchId, Some(timetable), offers, weekday).sent
        <==> (forall d <- timetable.travels[0].departures :: !IsMatch(d)) && weekday == 0
  {
    AlertsAreAlerts(date, timetable.travels[0].departures, offers);
    MatchesEmptyIffNoMatch(timetable.travels[0].departures);
  }

  /** The "Train found but blocked" status is never sent: warnings are only
      kept for a matched departure, and a match suppresses the report. */
  lemma BlockedReportNeverSent(date: string, testTelegram: bool, searchId: Option<string>,
                               timetable: Option<Timetable>, offers: Option<string> -> Option<Offers>,
                               weekday: Weekday)
    ensures forall m <- Expected(date, testTelegram, searchId, timetable, offers, weekday).sent ::
              !(m.WeeklyReport? && m.status.Blocked?)
  {
    if timetable.Some? && timetable.value.travels != [] {
      AlertsAreAlerts(date, timetable.value.travels[0].departures, offers);
    }
  }

  /** End to end: one departure arriving 08:24 whose offers are released
      at 1200 sends exactly one alert, for 08:24 at 1200. */
  lemma ReleasedTrainAlertsOnce(date: string, id: string, offers: Option<string> -> Option<Offers>, weekday: Weekday)
    requires offers(Some(id)) == Some(Offers(true, Some("1200")))
    ensures var run := Expected(date, false, Some("s"), Some(Timetable([Travel([Departure(Some("08:24"), Some(id), [])])])),
                                offers, weekday);
            run.sent == [Alert(date, "08:24", "1200")]
  {
    var dep := Departure(Some("08:24"), Some(id), []);
    assert [dep][..0] == [];
    assert InWindow("08:24");
    assert Matches([dep]) == [dep];
    assert Alerts(date, [dep], offers) == [Alert(date, "08:24", "1200")];
  }

  /** End to end: the same departure with offers not released sends
      nothing, not even the Monday report. */
  lemma UnreleasedTrainSendsNothing(date: string, id: string, offers: Option<string> -> Option<Offers>)
    requires !Releases(offers(Some(id)))
    ensures Expected(date, false, Some("s"), Some(Timetable([Travel([Departure(Some("08:24"), Some(id), [])])])),
                     offers, 0).sent == []
  {
    var dep := Departure(Some("08:24"), Some(id), []);
    assert [dep][..0] == [];
    assert InWindow("08:24");
    assert Matches([dep]) == [dep];
    assert Alerts(date, [dep], offers) == [];
  }
}
