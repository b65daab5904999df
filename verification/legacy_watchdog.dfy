/** The older single-script watchdog, `check_tickets` in train_watchdog.py:
    after a successful search it looks for the first journey that is a
    night train (train 93 or 94 on some TRAIN leg) and bookable, and sends
    one alert for it.

    The station-id lookup and the HTTP calls are inputs: `reply` is the
    outcome of the search POST. A `KeyError`, a `TypeError` or a JSON
    error inside the `try` block ends the run through the `except` at the
    end of `check_tickets`, modelled as the `ScriptFailed` ending. */
module LegacyWatchdog {
  import opened Maybe
  import opened Text

  /** A JSON value as far as an equality test with a string literal can
      tell: a string, or anything else (a number such as 94 never equals '94'). */
  datatype Scalar = Str(s: string) | NonString

  /** A leg of a journey; a `None` field is a missing key. */
  datatype Leg = Leg(kind: Option<Scalar>, trainNumber: Option<Scalar>)

  /** `priceQuote.price`, its amount and currency rendered as text. */
  datatype Price = Price(amount: string, currency: string)

  /** A journey. `legs` is `None` when the key is missing or null (either raises);
      `isBookable` is `None` when missing or null; `price` is `None` when
      any level of `priceQuote.price.amount/currency` is missing. */
  datatype Journey = Journey(legs: Option<seq<Leg>>, isBookable: Option<bool>, price: Option<Price>)

  /** A JSON object body; `journeys` is `None` when the key is missing. */
  datatype SearchBody = SearchBody(journeys: Option<seq<Journey>>)

  /** The search POST: the request itself failed, or a status code and a
      body that is a JSON object (`None` when it is not). */
  datatype SearchReply = RequestFailed | Reply(status: int, body: Option<SearchBody>)

  /** The trip configuration: travel date and the two station names. */
  datatype Trip = Trip(date: string, origin: string, destination: string)

  /** How a run ends. `StillUnavailable` is the run that prints
      "Night train still not available/sold out."; `ScriptFailed` the one
      that prints "Script failed". */
  datatype Ending = ApiError(status: int) | ScriptFailed | StillUnavailable | Alerted

  datatype TicketRun = TicketRun(alerts: seq<string>, ending: Ending)

  /* ---------------------------------------------------------------------
     The night-train test
     --------------------------------------------------------------------- */

  /** A leg the test can read without a `KeyError`: it has a type, and a
      train number when the type is 'TRAIN'. */
  predicate Readable(leg: Leg) {
    leg.kind.Some? && (leg.kind.value == Str("TRAIN") ==> leg.trainNumber.Some?)
  }

  /** A leg of the night train: type 'TRAIN' and train number '94' or '93'. */
  predicate NightLeg(leg: Leg) {
    leg.kind == Some(Str("TRAIN")) && (leg.trainNumber == Some(Str("94")) || leg.trainNumber == Some(Str("93")))
  }

  predicate AllReadable(legs: seq<Leg>) {
    forall i :: 0 <= i < |legs| ==> Readable(legs[i])
  }

  predicate HasNightLeg(legs: seq<Leg>) {
    exists i :: 0 <= i < |legs| && NightLeg(legs[i])
  }

  /** The inner loop of `check_tickets` as written: every leg is read (no
      early exit), so an unreadable leg anywhere raises, and otherwise the
      journey is a night train when some leg is a night-train leg.
      `None` stands for the raised `KeyError`. */
  method ScanLegs(legs: seq<Leg>) returns (isNightTrain: Option<bool>)
    ensures isNightTrain.None? <==> !AllReadable(legs)
    ensures isNightTrain.Some? ==> (isNightTrain.value <==> HasNightLeg(legs))
  {
    var night := false;
    var l := 0;
    while l < |legs|
      invariant 0 <= l <= |legs|
      invariant AllReadable(legs[..l])
      invariant night <==> HasNightLeg(legs[..l])
    {
      var leg := legs[l];
      assert legs[..l + 1] == legs[..l] + [leg];
      if leg.kind.None? {
        return None;
      }
      if leg.kind.value == Str("TRAIN") {
        if leg.trainNumber.None? {
          return None;
        }
        if leg.trainNumber.value == Str("94") || leg.trainNumber.value == Str("93") {
          night := true;
          assert NightLeg(legs[..l + 1][l]);
        }
      }
      if night && !NightLeg(leg) {
        ghost var w :| 0 <= w < l && NightLeg(legs[..l][w]);
        assert NightLeg(legs[..l + 1][w]);
      }
      l := l + 1;
    }
    assert legs[..l] == legs;
    return Some(night);
  }

  /* ---------------------------------------------------------------------
     The journey scan
     --------------------------------------------------------------------- */

  /** A journey that alerts, or raises trying to: readable legs, a night
      train, and `isBookable` true (a missing flag counts as false). */
  predicate Qualifies(j: Journey) {
    j.legs.Some? && AllReadable(j.legs.value) && HasNightLeg(j.legs.value) && j.isBookable == Some(true)
  }

  /** A journey the loop reads and moves past without alerting. */
  predicate Passes(j: Journey) {
    j.legs.Some? && AllReadable(j.legs.value) && !Qualifies(j)
  }

  /** A journey whose reading raises: missing or unreadable legs, or a
      qualifying journey without a price. */
  predicate Raises(j: Journey) {
    !(j.legs.Some? && AllReadable(j.legs.value)) || (Qualifies(j) && j.price.None?)
  }

  const AlertOpening: string := "\U{1F682} ALERT! Night Train tickets available on "
  const RouteLabel: string := "!\nRoute: "
  const Arrow: string := " -> "
  const PriceLabel: string := "\nPrice: "
  const Space: string := " "
  const LinkLine: string := "\nLink: https://www.sj.se"

  /** The parts of the alert text for a bookable night train. */
  function AlertPieces(trip: Trip, price: Price): seq<string> {
    [AlertOpening, trip.date, RouteLabel, trip.origin, Arrow, trip.destination,
     PriceLabel, price.amount, Space, price.currency, LinkLine]
  }

  function AlertText(trip: Trip, price: Price): string {
    Concat(AlertPieces(trip, price))
  }

  /** The journeys of a body; a missing key gives none. */
  function Journeys(body: SearchBody): seq<Journey>
  {
    body.journeys.GetOr([])
  }

  /** `check_tickets` after the station lookup: the search status check,
      then one pass over the journeys that alerts on the first bookable
      night train and stops there. */
  method CheckTickets(trip: Trip, reply: SearchReply) returns (run: TicketRun)
    ensures reply.RequestFailed? ==> run == TicketRun([], ScriptFailed)
    ensures reply.Reply? && reply.status != 200 ==> run == TicketRun([], ApiError(reply.status))
    ensures reply.Reply? && reply.status == 200 && reply.body.None? ==> run == TicketRun([], ScriptFailed)
    ensures reply == Reply(200, Some(SearchBody(None))) ==> run == TicketRun([], StillUnavailable)
    ensures reply.Reply? && reply.status == 200 && reply.body.Some? ==>
              var js := Journeys(reply.body.value);
              && !run.ending.ApiError?
              && (run.alerts != [] <==> run.ending.Alerted?)
              && (run.ending.StillUnavailable? <==> forall k :: 0 <= k < |js| ==> Passes(js[k]))
              && (run.ending.Alerted? ==>
                    exists k :: 0 <= k < |js| && Qualifies(js[k]) && js[k].price.Some?
                                && (forall i :: 0 <= i < k ==> Passes(js[i]))
                                && run.alerts == [AlertText(trip, js[k].price.value)])
              && (run.ending.ScriptFailed? ==>
                    exists k :: 0 <= k < |js| && Raises(js[k]) && forall i :: 0 <= i < k ==> Passes(js[i]))
  {
    if reply.RequestFailed? {
      return TicketRun([], ScriptFailed);
    }
    if reply.status != 200 {
      return TicketRun([], ApiError(reply.status));
    }
    if reply.body.None? {
      return TicketRun([], ScriptFailed);
    }
    var journeys := Journeys(reply.body.value);
    var foundAvailable := false;
    var alerts: seq<string> := [];
    var i := 0;
    while i < |journeys|
      invariant 0 <= i <= |journeys|
      invariant forall k :: 0 <= k < i ==> Passes(journeys[k])
    {
      var journey := journeys[i];
      if journey.legs.None? {
        return TicketRun([], ScriptFailed);
      }
      var isNightTrain := ScanLegs(journey.legs.value);
      if isNightTrain.None? {
        return TicketRun([], ScriptFailed);
      }
      if isNightTrain.value && journey.isBookable.GetOr(false) {
        if journey.price.None? {
          return TicketRun([], ScriptFailed);
        }
        alerts := alerts + [AlertText(trip, journey.price.value)];
        foundAvailable := true;
        break;
      }
      i := i + 1;
    }
    if !foundAvailable {
      return TicketRun(alerts, StillUnavailable);
    }
    return TicketRun(alerts, Alerted);
  }

  /* ---------------------------------------------------------------------
     Messages and delivery
     --------------------------------------------------------------------- */

  /** The alert names the date, both stations, the amount and the currency. */
  lemma AlertTextMentions(trip: Trip, price: Price)
    ensures Contains(AlertText(trip, price), trip.date)
    ensures Contains(AlertText(trip, price), trip.origin)
    ensures Contains(AlertText(trip, price), trip.destination)
    ensures Contains(AlertText(trip, price), price.amount)
    ensures Contains(AlertText(trip, price), price.currency)
  {
    var pieces := AlertPieces(trip, price);
    ConcatContainsPiece(pieces, 1);
    ConcatContainsPiece(pieces, 3);
    ConcatContainsPiece(pieces, 5);
    ConcatContainsPiece(pieces, 7);
    ConcatContainsPiece(pieces, 9);
  }

  /** What `send_telegram_alert` does with a message. */
  datatype Delivery = Console(lines: seq<string>) | Post(url: string, chatId: string, text: string)

  const NoConfigLine: string := ">> No Telegram config found. Printing to console instead:"

  /** `send_telegram_alert`: without a bot token or a chat id it posts
      nothing and prints the message after a notice; otherwise it posts
      the message to the bot's sendMessage endpoint for that chat. */
  function SendTelegramAlert(token: Option<string>, chatId: Option<string>, message: string): (d: Delivery)
    ensures d.Console? <==> !Truthy(token) || !Truthy(chatId)
    ensures d.Console? ==> |d.lines| == 2 && d.lines[1] == message
    ensures d.Post? ==> d.text == message && d.chatId == chatId.value && Contains(d.url, token.value)
  {
    if !Truthy(token) || !Truthy(chatId) then Console([NoConfigLine, message])
    else
      var url := "https://api.telegram.org/bot" + token.value + "/sendMessage";
      ContainsSelf(token.value);
      ContainsExtend(token.value, token.value, "https://api.telegram.org/bot");
      ContainsExtend("https://api.telegram.org/bot" + token.value, token.value, "/sendMessage");
      Post(url, chatId.value, message)
  }
}
