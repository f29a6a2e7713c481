/**
 * Session records (src/session/session_data.py): the record of one played hand, the
 * metadata of a saved session and the session itself, each with its conversion to a
 * dictionary and back. A dictionary, and every value put in one, is a `Json` value;
 * a `datetime` is its ISO text, so `isoformat` and `fromisoformat` are the identity
 * on it. The clock (`datetime.now()`) is the parameter `now`.
 */
module SessionRecords {
  import opened Wrappers
  import opened Errors
  import opened Cards
  import opened Actions
  import opened Results
  import opened Rules
  import Stats
  import Validation

  /** Python's None, bool, int, float, str, list and str-keyed dict, as the conversions use them. */
  datatype Json =
    | JNull
    | JBool(b: bool)
    | JInt(i: int)
    | JReal(r: real)
    | JStr(s: string)
    | JList(items: seq<Json>)
    | JObject(fields: map<string, Json>)

  /** A `datetime`, as the text `isoformat` gives; that text is never empty. */
  type DateTime = s: string | s != [] witness "1970-01-01T00:00:00"

  // ---------------------------------------------------------------------------
  // Reading a dictionary

  /** `data[key]`: a `KeyError` when the key is missing, a `TypeError` when `data` is not a dict. */
  function Field(data: Json, key: string): (r: Result<Json, ErrorKind>)
    ensures r.Success? <==> data.JObject? && key in data.fields
    ensures r.Success? ==> r.value == data.fields[key]
  {
    if !data.JObject? then Failure(ValueError(WrongType(key)))
    else if key !in data.fields then Failure(ValueError(MissingKey(key)))
    else Success(data.fields[key])
  }

  /** `data.get(key, default)`, on a value already known to be a dict. */
  function FieldOr(data: Json, key: string, default: Json): (v: Json)
    requires data.JObject?
    ensures key in data.fields ==> v == data.fields[key]
    ensures key !in data.fields ==> v == default
  {
    if key in data.fields then data.fields[key] else default
  }

  /** Python truthiness: None, False, 0, 0.0 and empty strings, lists and dicts are false. */
  predicate Truthy(j: Json) {
    match j
    case JNull => false
    case JBool(b) => b
    case JInt(i) => i != 0
    case JReal(r) => r != 0.0
    case JStr(s) => s != []
    case JList(items) => items != []
    case JObject(fields) => fields != map[]
  }

  function AsInt(key: string, j: Json): (r: Result<int, ErrorKind>)
    ensures r.Success? <==> j.JInt?
  {
    if j.JInt? then Success(j.i) else Failure(ValueError(WrongType(key)))
  }

  /** A float field; an int is accepted where a float is expected, as in Python. */
  function AsReal(key: string, j: Json): (r: Result<real, ErrorKind>)
    ensures r.Success? <==> j.JReal? || j.JInt?
  {
    match j
    case JReal(x) => Success(x)
    case JInt(i) => Success(i as real)
    case _ => Failure(ValueError(WrongType(key)))
  }

  function AsBool(key: string, j: Json): (r: Result<bool, ErrorKind>)
    ensures r.Success? <==> j.JBool?
  {
    if j.JBool? then Success(j.b) else Failure(ValueError(WrongType(key)))
  }

  function AsStr(key: string, j: Json): (r: Result<string, ErrorKind>)
    ensures r.Success? <==> j.JStr?
  {
    if j.JStr? then Success(j.s) else Failure(ValueError(WrongType(key)))
  }

  function AsList(key: string, j: Json): (r: Result<seq<Json>, ErrorKind>)
    ensures r.Success? <==> j.JList?
  {
    if j.JList? then Success(j.items) else Failure(ValueError(WrongType(key)))
  }

  /** An `Optional[int]` field. */
  function AsOptInt(key: string, j: Json): (r: Result<Option<int>, ErrorKind>)
    ensures r.Success? <==> j.JNull? || j.JInt?
  {
    match j
    case JNull => Success(None)
    case JInt(i) => Success(Some(i))
    case _ => Failure(ValueError(WrongType(key)))
  }

  /** An `Optional[float]` field. */
  function AsOptReal(key: string, j: Json): (r: Result<Option<real>, ErrorKind>)
    ensures r.Success? <==> j.JNull? || j.JReal? || j.JInt?
  {
    if j.JNull? then Success(None)
    else var x :- AsReal(key, j); Success(Some(x))
  }

  /** An `Optional[str]` field. */
  function AsOptStr(key: string, j: Json): (r: Result<Option<string>, ErrorKind>)
    ensures r.Success? <==> j.JNull? || j.JStr?
  {
    match j
    case JNull => Success(None)
    case JStr(s) => Success(Some(s))
    case _ => Failure(ValueError(WrongType(key)))
  }

  /** `datetime.fromisoformat(v) if v else None`: a false value is no time, a non-empty text is that time. */
  function AsTime(key: string, j: Json): (r: Result<Option<DateTime>, ErrorKind>)
    ensures r.Success? <==> !Truthy(j) || j.JStr?
    ensures r == Success(None) <==> !Truthy(j)
    ensures j.JStr? && j.s != [] ==> r == Success(Some(j.s))
  {
    if !Truthy(j) then Success(None)
    else if j.JStr? then Success(Some(j.s))
    else Failure(ValueError(WrongType(key)))
  }

  /** An `Enum(value)` lookup: a `ValueError` for a value no member carries. */
  function Member<T>(text: string, found: Option<T>): (r: Result<T, ErrorKind>)
    ensures r.Success? <==> found.Some?
  {
    if found.Some? then Success(found.value) else Failure(ValueError(UnknownEnumValue(text)))
  }

  function OptIntJson(x: Option<int>): Json {
    if x.Some? then JInt(x.value) else JNull
  }

  function OptRealJson(x: Option<real>): Json {
    if x.Some? then JReal(x.value) else JNull
  }

  function OptStrJson(x: Option<string>): Json {
    if x.Some? then JStr(x.value) else JNull
  }

  function OptTimeJson(x: Option<DateTime>): Json {
    if x.Some? then JStr(x.value) else JNull
  }

  /** `data[key]` as an int. */
  function IntField(data: Json, key: string): (r: Result<int, ErrorKind>)
    ensures r.Success? <==> data.JObject? && key in data.fields && data.fields[key].JInt?
    ensures r.Success? ==> r.value == data.fields[key].i
  {
    var v :- Field(data, key);
    AsInt(key, v)
  }

  /** `data[key]` as a float. */
  function RealField(data: Json, key: string): (r: Result<real, ErrorKind>)
    ensures r.Success? <==> data.JObject? && key in data.fields && (data.fields[key].JReal? || data.fields[key].JInt?)
    ensures r.Success? && data.fields[key].JReal? ==> r.value == data.fields[key].r
  {
    var v :- Field(data, key);
    AsReal(key, v)
  }

  /** `data[key]` as a bool. */
  function BoolField(data: Json, key: string): (r: Result<bool, ErrorKind>)
    ensures r.Success? <==> data.JObject? && key in data.fields && data.fields[key].JBool?
    ensures r.Success? ==> r.value == data.fields[key].b
  {
    var v :- Field(data, key);
    AsBool(key, v)
  }

  /** `data[key]` as a str. */
  function StrField(data: Json, key: string): (r: Result<string, ErrorKind>)
    ensures r.Success? <==> data.JObject? && key in data.fields && data.fields[key].JStr?
    ensures r.Success? ==> r.value == data.fields[key].s
  {
    var v :- Field(data, key);
    AsStr(key, v)
  }

  /** `data[key]` as an `Optional[int]`. */
  function OptIntField(data: Json, key: string): (r: Result<Option<int>, ErrorKind>)
    ensures r.Success? <==> data.JObject? && key in data.fields && (data.fields[key].JNull? || data.fields[key].JInt?)
  {
    var v :- Field(data, key);
    AsOptInt(key, v)
  }

  /** `datetime.fromisoformat(data[key]) if data[key] else None`. */
  function TimeField(data: Json, key: string): (r: Result<Option<DateTime>, ErrorKind>)
    ensures r.Success? ==> data.JObject? && key in data.fields
    ensures r.Success? ==> (r.value.None? <==> !Truthy(data.fields[key]))
  {
    var v :- Field(data, key);
    AsTime(key, v)
  }

  // ---------------------------------------------------------------------------
  // Lists

  /** A list comprehension `[enc(x) for x in xs]`. */
  function EncodeItems<T>(enc: T -> Json, xs: seq<T>): (items: seq<Json>)
    ensures |items| == |xs|
  {
    if xs == [] then [] else [enc(xs[0])] + EncodeItems(enc, xs[1..])
  }

  /** A list comprehension `[dec(x) for x in items]`: the first element that raises stops it. */
  function DecodeItems<T>(dec: Json -> Result<T, ErrorKind>, items: seq<Json>): (r: Result<seq<T>, ErrorKind>)
    ensures r.Success? ==> |r.value| == |items|
    ensures r.Success? ==> forall i :: 0 <= i < |items| ==> dec(items[i]) == Success(r.value[i])
  {
    if items == [] then Success([])
    else
      var x :- dec(items[0]);
      var rest :- DecodeItems(dec, items[1..]);
      Success([x] + rest)
  }

  /** Decoding the encoded list gives the list back when each element does. */
  lemma {:induction false} ItemsRoundTrip<T>(enc: T -> Json, dec: Json -> Result<T, ErrorKind>, xs: seq<T>)
    requires forall i :: 0 <= i < |xs| ==> dec(enc(xs[i])) == Success(xs[i])
    ensures DecodeItems(dec, EncodeItems(enc, xs)) == Success(xs)
  {
    if xs != [] {
      assert dec(enc(xs[0])) == Success(xs[0]);
      forall i | 0 <= i < |xs[1..]|
        ensures dec(enc(xs[1..][i])) == Success(xs[1..][i])
      {
        assert xs[1..][i] == xs[i + 1];
      }
      ItemsRoundTrip(enc, dec, xs[1..]);
      assert EncodeItems(enc, xs)[1..] == EncodeItems(enc, xs[1..]);
      assert [xs[0]] + xs[1..] == xs;
    }
  }

  /** `[dec(x) for x in data[key]]`. */
  function ListField<T>(data: Json, key: string, dec: Json -> Result<T, ErrorKind>): (r: Result<seq<T>, ErrorKind>)
    ensures r.Success? ==> data.JObject? && key in data.fields && data.fields[key].JList?
    ensures r.Success? ==> |r.value| == |data.fields[key].items|
    ensures r.Success? ==> forall i :: 0 <= i < |r.value| ==> dec(data.fields[key].items[i]) == Success(r.value[i])
  {
    var v :- Field(data, key);
    var items :- AsList(key, v);
    DecodeItems(dec, items)
  }

  /** A list entry written by `EncodeItems` reads back as the list when each element does. */
  lemma ListFieldRoundTrip<T>(data: Json, key: string, enc: T -> Json, dec: Json -> Result<T, ErrorKind>, xs: seq<T>)
    requires data.JObject? && key in data.fields && data.fields[key] == JList(EncodeItems(enc, xs))
    requires forall i :: 0 <= i < |xs| ==> dec(enc(xs[i])) == Success(xs[i])
    ensures ListField(data, key, dec) == Success(xs)
  {
    ItemsRoundTrip(enc, dec, xs);
  }

  // ---------------------------------------------------------------------------
  // Cards, actions and results

  /** `{"suit": card.suit.value, "rank": card.rank.value}`. */
  function CardJson(c: Card): Json {
    JObject(map["suit" := JStr(SuitSymbol(c.suit)), "rank" := JStr(RankSymbol(c.rank))])
  }

  /** `Card(Suit(card["suit"]), Rank(card["rank"]))`: each text must be the value of an enum member. */
  function CardFromJson(j: Json): (r: Result<Card, ErrorKind>)
    ensures r.Success? ==> j.JObject? && "suit" in j.fields && j.fields["suit"] == JStr(SuitSymbol(r.value.suit))
    ensures r.Success? ==> "rank" in j.fields && j.fields["rank"] == JStr(RankSymbol(r.value.rank))
  {
    var suitText :- StrField(j, "suit");
    var suit :- Member(suitText, SuitFromSymbol(suitText));
    var rankText :- StrField(j, "rank");
    var rank :- Member(rankText, RankFromSymbol(rankText));
    Success(Card(suit, rank))
  }

  lemma CardRoundTrip(c: Card)
    ensures CardFromJson(CardJson(c)) == Success(c)
  {
    SuitSymbolRoundTrip(c.suit);
    RankSymbolRoundTrip(c.rank);
  }

  /** A list of cards written into a dictionary reads back as the same cards in the same order. */
  lemma CardListRoundTrip(data: Json, key: string, cs: seq<Card>)
    requires data.JObject? && key in data.fields && data.fields[key] == JList(EncodeItems(CardJson, cs))
    ensures ListField(data, key, CardFromJson) == Success(cs)
  {
    forall i | 0 <= i < |cs|
      ensures CardFromJson(CardJson(cs[i])) == Success(cs[i])
    {
      CardRoundTrip(cs[i]);
    }
    ListFieldRoundTrip(data, key, CardJson, CardFromJson, cs);
  }

  /** `action.value`. */
  function ActionJson(a: Action): Json {
    JStr(ActionText(a))
  }

  /** `Action(action)`. */
  function ActionFromJson(j: Json): (r: Result<Action, ErrorKind>)
    ensures r.Success? ==> j == ActionJson(r.value)
  {
    var text :- AsStr("action", j);
    Member(text, ActionFromText(text))
  }

  /** A list of actions written into a dictionary reads back as the same actions in the same order. */
  lemma ActionListRoundTrip(data: Json, key: string, actions: seq<Action>)
    requires data.JObject? && key in data.fields && data.fields[key] == JList(EncodeItems(ActionJson, actions))
    ensures ListField(data, key, ActionFromJson) == Success(actions)
  {
    forall i | 0 <= i < |actions|
      ensures ActionFromJson(ActionJson(actions[i])) == Success(actions[i])
    {
      ActionTextRoundTrip(actions[i]);
    }
    ListFieldRoundTrip(data, key, ActionJson, ActionFromJson, actions);
  }

  /** The `"result"` dictionary of a hand record, and each entry of `"results_history"`. */
  function ResultJson(r: GameResult): Json {
    JObject(map[
      "outcome" := JStr(OutcomeText(r.outcome)),
      "player_total" := JInt(r.playerTotal),
      "dealer_total" := OptIntJson(r.dealerTotal),
      "payout" := JReal(r.payout),
      "player_busted" := JBool(r.playerBusted),
      "dealer_busted" := JBool(r.dealerBusted),
      "player_blackjack" := JBool(r.playerBlackjack),
      "dealer_blackjack" := JBool(r.dealerBlackjack)])
  }

  /** `GameResult(outcome=Outcome(...), ...)`: the rebuilt result goes through the normalising constructor again. */
  function ResultFromJson(j: Json): (r: Result<GameResult, ErrorKind>)
    ensures r.Success? ==> Normalized(r.value)
    ensures r.Success? ==> j.JObject? && "outcome" in j.fields && j.fields["outcome"] == JStr(OutcomeText(r.value.outcome))
  {
    var outcomeText :- StrField(j, "outcome");
    var outcome :- Member(outcomeText, OutcomeFromText(outcomeText));
    var playerTotal :- IntField(j, "player_total");
    var dealerTotal :- OptIntField(j, "dealer_total");
    var payout :- RealField(j, "payout");
    var playerBusted :- BoolField(j, "player_busted");
    var dealerBusted :- BoolField(j, "dealer_busted");
    var playerBlackjack :- BoolField(j, "player_blackjack");
    var dealerBlackjack :- BoolField(j, "dealer_blackjack");
    Success(MakeResult(outcome, playerTotal, dealerTotal, payout, playerBusted, dealerBusted, playerBlackjack, dealerBlackjack))
  }

  /** A result the normalising constructor built survives the trip through a dictionary unchanged. */
  lemma ResultRoundTrip(r: GameResult)
    requires Normalized(r)
    ensures ResultFromJson(ResultJson(r)) == Success(r)
  {
    OutcomeTextRoundTrip(r.outcome);
    ResultTotalsRoundTrip(r);
    ResultFlagsRoundTrip(r);
    ResultFromFields(ResultJson(r), r);
  }

  /** The outcome, totals and payout entries of a result's dictionary, read back. */
  lemma ResultTotalsRoundTrip(r: GameResult)
    ensures var j := ResultJson(r);
      StrField(j, "outcome") == Success(OutcomeText(r.outcome))
      && IntField(j, "player_total") == Success(r.playerTotal)
      && OptIntField(j, "dealer_total") == Success(r.dealerTotal)
      && RealField(j, "payout") == Success(r.payout)
  {
  }

  /** The four flag entries of a result's dictionary, read back. */
  lemma ResultFlagsRoundTrip(r: GameResult)
    ensures var j := ResultJson(r);
      BoolField(j, "player_busted") == Success(r.playerBusted)
      && BoolField(j, "dealer_busted") == Success(r.dealerBusted)
      && BoolField(j, "player_blackjack") == Success(r.playerBlackjack)
      && BoolField(j, "dealer_blackjack") == Success(r.dealerBlackjack)
  {
  }

  /** `ResultFromJson` rebuilds a normalised result from entries that read back as its fields. */
  lemma ResultFromFields(j: Json, r: GameResult)
    requires Normalized(r)
    requires StrField(j, "outcome") == Success(OutcomeText(r.outcome))
    requires OutcomeFromText(OutcomeText(r.outcome)) == Some(r.outcome)
    requires IntField(j, "player_total") == Success(r.playerTotal)
    requires OptIntField(j, "dealer_total") == Success(r.dealerTotal)
    requires RealField(j, "payout") == Success(r.payout)
    requires BoolField(j, "player_busted") == Success(r.playerBusted)
    requires BoolField(j, "dealer_busted") == Success(r.dealerBusted)
    requires BoolField(j, "player_blackjack") == Success(r.playerBlackjack)
    requires BoolField(j, "dealer_blackjack") == Success(r.dealerBlackjack)
    ensures ResultFromJson(j) == Success(r)
  {
    NormalizeIdempotent(r);
  }

  /** A result whose payout disagrees with its outcome comes back with the normalised payout instead. */
  lemma UnnormalizedResultChanges(r: GameResult)
    requires !PayoutMatches(r.outcome, r.payout)
    ensures ResultFromJson(ResultJson(r)).Success?
    ensures ResultFromJson(ResultJson(r)).value.payout == DefaultPayout(r.outcome) != r.payout
  {
    OutcomeTextRoundTrip(r.outcome);
  }

  /** A list of normalised results written into a dictionary reads back unchanged. */
  lemma ResultListRoundTrip(data: Json, key: string, rs: seq<GameResult>)
    requires data.JObject? && key in data.fields && data.fields[key] == JList(EncodeItems(ResultJson, rs))
    requires forall i :: 0 <= i < |rs| ==> Normalized(rs[i])
    ensures ListField(data, key, ResultFromJson) == Success(rs)
  {
    forall i | 0 <= i < |rs|
      ensures ResultFromJson(ResultJson(rs[i])) == Success(rs[i])
    {
      ResultRoundTrip(rs[i]);
    }
    ListFieldRoundTrip(data, key, ResultJson, ResultFromJson, rs);
  }

  // ---------------------------------------------------------------------------
  // HandRecord

  /** One played hand; the timestamp is always set once the record exists. */
  datatype HandRecord = HandRecord(
    handNumber: int,
    playerCards: seq<Card>,
    dealerCards: seq<Card>,
    userActions: seq<Action>,
    optimalActions: seq<Action>,
    runningCount: int,
    trueCount: real,
    result: GameResult,
    betAmount: real,
    timestamp: DateTime)

  /** `HandRecord.to_dict`. */
  function HandRecordJson(h: HandRecord): Json {
    JObject(map[
      "hand_number" := JInt(h.handNumber),
      "player_cards" := JList(EncodeItems(CardJson, h.playerCards)),
      "dealer_cards" := JList(EncodeItems(CardJson, h.dealerCards)),
      "user_actions" := JList(EncodeItems(ActionJson, h.userActions)),
      "optimal_actions" := JList(EncodeItems(ActionJson, h.optimalActions)),
      "running_count" := JInt(h.runningCount),
      "true_count" := JReal(h.trueCount),
      "result" := ResultJson(h.result),
      "bet_amount" := JReal(h.betAmount),
      "timestamp" := JStr(h.timestamp)])
  }

  /** The card and action lists of a stored hand, read first in `HandRecord.from_dict`. */
  function HandListsFromJson(j: Json): (r: Result<(seq<Card>, seq<Card>, seq<Action>, seq<Action>), ErrorKind>)
    ensures r.Success? ==> j.JObject? && "player_cards" in j.fields && j.fields["player_cards"].JList?
                           && |r.value.0| == |j.fields["player_cards"].items|
  {
    var playerCards :- ListField(j, "player_cards", CardFromJson);
    var dealerCards :- ListField(j, "dealer_cards", CardFromJson);
    var userActions :- ListField(j, "user_actions", ActionFromJson);
    var optimalActions :- ListField(j, "optimal_actions", ActionFromJson);
    Success((playerCards, dealerCards, userActions, optimalActions))
  }

  /**
   * `HandRecord.from_dict`, reading the entries in the source's order; the rebuilt
   * result is normalised again, and `__post_init__` stamps a record without a time with `now`.
   */
  function HandRecordFromJson(j: Json, now: DateTime): (r: Result<HandRecord, ErrorKind>)
    ensures r.Success? ==> Normalized(r.value.result)
    ensures r.Success? ==> j.JObject? && "timestamp" in j.fields
    ensures r.Success? && !Truthy(j.fields["timestamp"]) ==> r.value.timestamp == now
    ensures r.Success? && j.fields["timestamp"].JStr? && j.fields["timestamp"].s != [] ==> r.value.timestamp == j.fields["timestamp"].s
  {
    var lists :- HandListsFromJson(j);
    var rd :- Field(j, "result");
    var result :- ResultFromJson(rd);
    var handNumber :- IntField(j, "hand_number");
    var runningCount :- IntField(j, "running_count");
    var trueCount :- RealField(j, "true_count");
    var betAmount :- RealField(j, "bet_amount");
    var timestamp :- TimeField(j, "timestamp");
    Success(HandRecord(handNumber, lists.0, lists.1, lists.2, lists.3, runningCount, trueCount, result, betAmount,
                       if timestamp.Some? then timestamp.value else now))
  }

  lemma HandListsRoundTrip(h: HandRecord)
    ensures HandListsFromJson(HandRecordJson(h)) == Success((h.playerCards, h.dealerCards, h.userActions, h.optimalActions))
  {
    var j := HandRecordJson(h);
    CardListRoundTrip(j, "player_cards", h.playerCards);
    CardListRoundTrip(j, "dealer_cards", h.dealerCards);
    ActionListRoundTrip(j, "user_actions", h.userActions);
    ActionListRoundTrip(j, "optimal_actions", h.optimalActions);
  }

  /** `HandRecord.from_dict(r.to_dict())` reproduces every field of a record, whatever the current time. */
  lemma HandRecordRoundTrip(h: HandRecord, now: DateTime)
    requires Normalized(h.result)
    ensures HandRecordFromJson(HandRecordJson(h), now) == Success(h)
  {
    HandListsRoundTrip(h);
    ResultRoundTrip(h.result);
    HandScalarsRoundTrip(h);
    HandRecordFromFields(HandRecordJson(h), now, ResultJson(h.result), h);
  }

  /** The result, count, bet and time entries of a hand's dictionary, read back. */
  lemma HandScalarsRoundTrip(h: HandRecord)
    ensures var j := HandRecordJson(h);
      Field(j, "result") == Success(ResultJson(h.result))
      && IntField(j, "hand_number") == Success(h.handNumber)
      && IntField(j, "running_count") == Success(h.runningCount)
      && RealField(j, "true_count") == Success(h.trueCount)
      && RealField(j, "bet_amount") == Success(h.betAmount)
      && TimeField(j, "timestamp") == Success(Some(h.timestamp))
  {
  }

  /** `HandRecordFromJson` assembles the record from entries that read back as its fields. */
  lemma HandRecordFromFields(j: Json, now: DateTime, rd: Json, h: HandRecord)
    requires HandListsFromJson(j) == Success((h.playerCards, h.dealerCards, h.userActions, h.optimalActions))
    requires Field(j, "result") == Success(rd) && ResultFromJson(rd) == Success(h.result)
    requires IntField(j, "hand_number") == Success(h.handNumber)
    requires IntField(j, "running_count") == Success(h.runningCount)
    requires RealField(j, "true_count") == Success(h.trueCount)
    requires RealField(j, "bet_amount") == Success(h.betAmount)
    requires TimeField(j, "timestamp") == Success(Some(h.timestamp))
    ensures HandRecordFromJson(j, now) == Success(h)
  {
  }

  /** A list of hand records written into a dictionary reads back unchanged. */
  lemma HandRecordListRoundTrip(data: Json, key: string, hs: seq<HandRecord>, now: DateTime)
    requires data.JObject? && key in data.fields && data.fields[key] == JList(EncodeItems(HandRecordJson, hs))
    requires forall i :: 0 <= i < |hs| ==> Normalized(hs[i].result)
    ensures ListField(data, key, j => HandRecordFromJson(j, now)) == Success(hs)
  {
    var dec := j => HandRecordFromJson(j, now);
    forall i | 0 <= i < |hs|
      ensures dec(HandRecordJson(hs[i])) == Success(hs[i])
    {
      HandRecordRoundTrip(hs[i], now);
    }
    ListFieldRoundTrip(data, key, HandRecordJson, dec, hs);
  }

  // ---------------------------------------------------------------------------
  // SessionMetadata

  /** The metadata of a saved session; both timestamps are always set once it exists. */
  datatype SessionMetadata = SessionMetadata(
    sessionId: string,
    name: Option<string>,
    createdTime: DateTime,
    lastModified: DateTime,
    handsPlayed: int,
    durationMinutes: Option<real>,
    rulesSummary: string)

  /** `SessionMetadata(...)` and its `__post_init__`: no creation time means now, no modification time means the creation time. */
  function NewMetadata(sessionId: string, name: Option<string>, createdTime: Option<DateTime>,
                       lastModified: Option<DateTime>, handsPlayed: int, durationMinutes: Option<real>,
                       rulesSummary: string, now: DateTime): (m: SessionMetadata)
    ensures createdTime.Some? ==> m.createdTime == createdTime.value
    ensures createdTime.None? ==> m.createdTime == now
    ensures lastModified.Some? ==> m.lastModified == lastModified.value
    ensures lastModified.None? ==> m.lastModified == m.createdTime
    ensures m.sessionId == sessionId && m.name == name && m.handsPlayed == handsPlayed
    ensures m.durationMinutes == durationMinutes && m.rulesSummary == rulesSummary
  {
    var created := if createdTime.Some? then createdTime.value else now;
    SessionMetadata(sessionId, name, created, if lastModified.Some? then lastModified.value else created,
                    handsPlayed, durationMinutes, rulesSummary)
  }

  /** `SessionMetadata.to_dict`. */
  function MetadataJson(m: SessionMetadata): Json {
    JObject(map[
      "session_id" := JStr(m.sessionId),
      "name" := OptStrJson(m.name),
      "created_time" := JStr(m.createdTime),
      "last_modified" := JStr(m.lastModified),
      "hands_played" := JInt(m.handsPlayed),
      "duration_minutes" := OptRealJson(m.durationMinutes),
      "rules_summary" := JStr(m.rulesSummary)])
  }

  /** `SessionMetadata.from_dict`: only the session id is required; every other entry has a default. */
  function MetadataFromJson(j: Json, now: DateTime): (r: Result<SessionMetadata, ErrorKind>)
    ensures r.Success? ==> j.JObject? && "session_id" in j.fields && j.fields["session_id"] == JStr(r.value.sessionId)
  {
    var sessionId :- StrField(j, "session_id");
    var name :- AsOptStr("name", FieldOr(j, "name", JNull));
    var createdTime :- AsTime("created_time", FieldOr(j, "created_time", JNull));
    var lastModified :- AsTime("last_modified", FieldOr(j, "last_modified", JNull));
    var handsPlayed :- AsInt("hands_played", FieldOr(j, "hands_played", JInt(0)));
    var durationMinutes :- AsOptReal("duration_minutes", FieldOr(j, "duration_minutes", JNull));
    var rulesSummary :- AsStr("rules_summary", FieldOr(j, "rules_summary", JStr("")));
    Success(NewMetadata(sessionId, name, createdTime, lastModified, handsPlayed, durationMinutes, rulesSummary, now))
  }

  /** `SessionMetadata.from_dict(m.to_dict())` reproduces every field, whatever the current time. */
  lemma MetadataRoundTrip(m: SessionMetadata, now: DateTime)
    ensures MetadataFromJson(MetadataJson(m), now) == Success(m)
  {
    var j := MetadataJson(m);
    assert StrField(j, "session_id") == Success(m.sessionId);
    assert FieldOr(j, "name", JNull) == OptStrJson(m.name);
    assert FieldOr(j, "created_time", JNull) == JStr(m.createdTime);
    assert FieldOr(j, "last_modified", JNull) == JStr(m.lastModified);
    assert FieldOr(j, "hands_played", JInt(0)) == JInt(m.handsPlayed);
    assert FieldOr(j, "duration_minutes", JNull) == OptRealJson(m.durationMinutes);
    assert FieldOr(j, "rules_summary", JStr("")) == JStr(m.rulesSummary);
  }

  /** A dictionary holding only a session id gives metadata created and modified now, with no hands and an empty summary. */
  lemma MetadataDefaults(id: string, now: DateTime)
    ensures MetadataFromJson(JObject(map["session_id" := JStr(id)]), now)
         == Success(SessionMetadata(id, None, now, now, 0, None, ""))
  {
    var j := JObject(map["session_id" := JStr(id)]);
    assert "name" !in j.fields && "created_time" !in j.fields && "last_modified" !in j.fields;
    assert "hands_played" !in j.fields && "duration_minutes" !in j.fields && "rules_summary" !in j.fields;
  }

  /** A creation time without a modification time is used for both. */
  lemma MetadataModifiedDefaultsToCreated(id: string, created: DateTime, now: DateTime)
    ensures var r := MetadataFromJson(JObject(map["session_id" := JStr(id), "created_time" := JStr(created)]), now);
      r.Success? && r.value.createdTime == created && r.value.lastModified == created
  {
    var j := JObject(map["session_id" := JStr(id), "created_time" := JStr(created)]);
    assert FieldOr(j, "created_time", JNull) == JStr(created);
    assert "last_modified" !in j.fields;
  }

  // ---------------------------------------------------------------------------
  // Rules and statistics as stored in a session

  /** The `"rules"` dictionary. */
  function RulesJson(r: GameRules): Json {
    JObject(map[
      "dealer_hits_soft_17" := JBool(r.dealerHitsSoft17),
      "double_after_split" := JBool(r.doubleAfterSplit),
      "surrender_allowed" := JBool(r.surrenderAllowed),
      "num_decks" := JInt(r.numDecks),
      "penetration" := JReal(r.penetration),
      "blackjack_payout" := JReal(r.blackjackPayout)])
  }

  /** Rebuilding `GameRules(...)`, which validates the stored values again. */
  function RulesFromJson(j: Json): (r: Result<ValidRules, ErrorKind>)
    ensures r.Success? ==> j.JObject? && "num_decks" in j.fields && j.fields["num_decks"] == JInt(r.value.numDecks)
  {
    var dealerHitsSoft17 :- BoolField(j, "dealer_hits_soft_17");
    var doubleAfterSplit :- BoolField(j, "double_after_split");
    var surrenderAllowed :- BoolField(j, "surrender_allowed");
    var numDecks :- IntField(j, "num_decks");
    var penetration :- RealField(j, "penetration");
    var blackjackPayout :- RealField(j, "blackjack_payout");
    NewGameRules(dealerHitsSoft17, doubleAfterSplit, surrenderAllowed, numDecks, penetration, blackjackPayout)
  }

  /** Valid rules survive the trip through a dictionary. */
  lemma RulesRoundTrip(r: ValidRules)
    ensures RulesFromJson(RulesJson(r)) == Success(r)
  {
    var j := RulesJson(r);
    assert BoolField(j, "dealer_hits_soft_17") == Success(r.dealerHitsSoft17);
    assert BoolField(j, "double_after_split") == Success(r.doubleAfterSplit);
    assert BoolField(j, "surrender_allowed") == Success(r.surrenderAllowed);
    assert IntField(j, "num_decks") == Success(r.numDecks);
    assert RealField(j, "penetration") == Success(r.penetration);
    assert RealField(j, "blackjack_payout") == Success(r.blackjackPayout);
  }

  /** Stored rules with a deck count the constructor rejects make the whole entry fail with a `ValueError`. */
  lemma StoredBadDeckCountRejected(r: GameRules)
    requires !AllowedDeckCount(r.numDecks)
    ensures RulesFromJson(RulesJson(r)) == Failure(ValueError(BadDeckCount))
  {
    var j := RulesJson(r);
    assert BoolField(j, "dealer_hits_soft_17") == Success(r.dealerHitsSoft17);
    assert BoolField(j, "double_after_split") == Success(r.doubleAfterSplit);
    assert BoolField(j, "surrender_allowed") == Success(r.surrenderAllowed);
    assert IntField(j, "num_decks") == Success(r.numDecks);
    assert RealField(j, "penetration") == Success(r.penetration);
    assert RealField(j, "blackjack_payout") == Success(r.blackjackPayout);
  }

  datatype CountingRecord = CountingRecord(totalEstimates: int, correctEstimates: int, totalError: real, maxError: real)

  datatype StrategyRecord = StrategyRecord(totalDecisions: int, correctDecisions: int, basicDecisions: int,
                                           deviationDecisions: int, correctDeviations: int)

  /** The fields of a `SessionStats` object that `_serialize_stats` writes; the start time is always set. */
  datatype StatsRecord = StatsRecord(
    sessionId: string,
    startTime: DateTime,
    endTime: Option<DateTime>,
    handsPlayed: int,
    handsWon: int,
    handsLost: int,
    handsPushed: int,
    blackjacks: int,
    surrenders: int,
    totalBet: real,
    totalWinnings: real,
    netResult: real,
    counting: CountingRecord,
    strategy: StrategyRecord,
    results: seq<GameResult>)

  /** The record of a live statistics object; its counters keep their conservation laws. */
  function StatsRecordOf(s: Stats.SessionStats, startTime: DateTime, endTime: Option<DateTime>): (r: StatsRecord)
    reads s, s.counting, s.strategy
    requires s.Valid()
    ensures r.handsWon + r.handsLost + r.handsPushed == r.handsPlayed == |r.results|
    ensures r.blackjacks <= r.handsWon && r.surrenders <= r.handsLost
    ensures 0 <= r.counting.correctEstimates <= r.counting.totalEstimates
    ensures r.strategy.basicDecisions + r.strategy.deviationDecisions == r.strategy.totalDecisions
    ensures r.results == s.history
  {
    Stats.SessionCountersBounded(s);
    StatsRecord(s.sessionId, startTime, endTime, s.handsPlayed, s.handsWon, s.handsLost, s.handsPushed,
                s.blackjacks, s.surrenders, s.totalBet, s.totalWinnings, s.netResult,
                CountingRecord(s.counting.totalEstimates, s.counting.correctEstimates,
                               s.counting.totalError as real, s.counting.maxError as real),
                StrategyRecord(s.strategy.totalDecisions, s.strategy.correctDecisions, s.strategy.basicDecisions,
                               s.strategy.deviationDecisions, s.strategy.correctDeviations),
                s.history)
  }

  function CountingJson(c: CountingRecord): Json {
    JObject(map[
      "total_estimates" := JInt(c.totalEstimates),
      "correct_estimates" := JInt(c.correctEstimates),
      "total_error" := JReal(c.totalError),
      "max_error" := JReal(c.maxError)])
  }

  function CountingFromJson(j: Json): (r: Result<CountingRecord, ErrorKind>)
    ensures r.Success? ==> j.JObject? && "total_estimates" in j.fields && j.fields["total_estimates"] == JInt(r.value.totalEstimates)
  {
    var totalEstimates :- IntField(j, "total_estimates");
    var correctEstimates :- IntField(j, "correct_estimates");
    var totalError :- RealField(j, "total_error");
    var maxError :- RealField(j, "max_error");
    Success(CountingRecord(totalEstimates, correctEstimates, totalError, maxError))
  }

  lemma CountingRoundTrip(c: CountingRecord)
    ensures CountingFromJson(CountingJson(c)) == Success(c)
  {
    var j := CountingJson(c);
    assert IntField(j, "total_estimates") == Success(c.totalEstimates);
    assert IntField(j, "correct_estimates") == Success(c.correctEstimates);
    assert RealField(j, "total_error") == Success(c.totalError);
    assert RealField(j, "max_error") == Success(c.maxError);
  }

  function StrategyJson(s: StrategyRecord): Json {
    JObject(map[
      "total_decisions" := JInt(s.totalDecisions),
      "correct_decisions" := JInt(s.correctDecisions),
      "basic_strategy_decisions" := JInt(s.basicDecisions),
      "deviation_decisions" := JInt(s.deviationDecisions),
      "correct_deviations" := JInt(s.correctDeviations)])
  }

  function StrategyFromJson(j: Json): (r: Result<StrategyRecord, ErrorKind>)
    ensures r.Success? ==> j.JObject? && "total_decisions" in j.fields && j.fields["total_decisions"] == JInt(r.value.totalDecisions)
  {
    var totalDecisions :- IntField(j, "total_decisions");
    var correctDecisions :- IntField(j, "correct_decisions");
    var basicDecisions :- IntField(j, "basic_strategy_decisions");
    var deviationDecisions :- IntField(j, "deviation_decisions");
    var correctDeviations :- IntField(j, "correct_deviations");
    Success(StrategyRecord(totalDecisions, correctDecisions, basicDecisions, deviationDecisions, correctDeviations))
  }

  lemma StrategyRoundTrip(s: StrategyRecord)
    ensures StrategyFromJson(StrategyJson(s)) == Success(s)
  {
    var j := StrategyJson(s);
    assert IntField(j, "total_decisions") == Success(s.totalDecisions);
    assert IntField(j, "correct_decisions") == Success(s.correctDecisions);
    assert IntField(j, "basic_strategy_decisions") == Success(s.basicDecisions);
    assert IntField(j, "deviation_decisions") == Success(s.deviationDecisions);
    assert IntField(j, "correct_deviations") == Success(s.correctDeviations);
  }

  /** `SessionData._serialize_stats`. */
  function StatsJson(s: StatsRecord): Json {
    JObject(map[
      "session_id" := JStr(s.sessionId),
      "start_time" := JStr(s.startTime),
      "end_time" := OptTimeJson(s.endTime),
      "hands_played" := JInt(s.handsPlayed),
      "hands_won" := JInt(s.handsWon),
      "hands_lost" := JInt(s.handsLost),
      "hands_pushed" := JInt(s.handsPushed),
      "blackjacks" := JInt(s.blackjacks),
      "surrenders" := JInt(s.surrenders),
      "total_bet" := JReal(s.totalBet),
      "total_winnings" := JReal(s.totalWinnings),
      "net_result" := JReal(s.netResult),
      "counting_accuracy" := CountingJson(s.counting),
      "strategy_accuracy" := StrategyJson(s.strategy),
      "results_history" := JList(EncodeItems(ResultJson, s.results))])
  }

  /** The nested records and the results history of the stored statistics, read first in `SessionData.from_dict`. */
  function StatsPartsFromJson(j: Json): (r: Result<(CountingRecord, StrategyRecord, seq<GameResult>), ErrorKind>)
    ensures r.Success? ==> j.JObject? && "results_history" in j.fields && j.fields["results_history"].JList?
                           && |r.value.2| == |j.fields["results_history"].items|
    ensures r.Success? ==> forall i :: 0 <= i < |r.value.2| ==> Normalized(r.value.2[i])
  {
    var cj :- Field(j, "counting_accuracy");
    var counting :- CountingFromJson(cj);
    var sj :- Field(j, "strategy_accuracy");
    var strategy :- StrategyFromJson(sj);
    var results :- ListField(j, "results_history", ResultFromJson);
    Success((counting, strategy, results))
  }

  /** The six hand counters of the stored statistics, in the source's order. */
  function StatsCountersFromJson(j: Json): (r: Result<(int, int, int, int, int, int), ErrorKind>)
    ensures r.Success? ==> j.JObject? && "hands_played" in j.fields && j.fields["hands_played"] == JInt(r.value.0)
  {
    var handsPlayed :- IntField(j, "hands_played");
    var handsWon :- IntField(j, "hands_won");
    var handsLost :- IntField(j, "hands_lost");
    var handsPushed :- IntField(j, "hands_pushed");
    var blackjacks :- IntField(j, "blackjacks");
    var surrenders :- IntField(j, "surrenders");
    Success((handsPlayed, handsWon, handsLost, handsPushed, blackjacks, surrenders))
  }

  /** The statistics part of `SessionData.from_dict`; `SessionStats.__post_init__` sets a missing start time to now. */
  function StatsFromJson(j: Json, now: DateTime): (r: Result<StatsRecord, ErrorKind>)
    ensures r.Success? ==> j.JObject? && "start_time" in j.fields
    ensures r.Success? && !Truthy(j.fields["start_time"]) ==> r.value.startTime == now
    ensures r.Success? ==> forall i :: 0 <= i < |r.value.results| ==> Normalized(r.value.results[i])
  {
    var parts :- StatsPartsFromJson(j);
    var sessionId :- StrField(j, "session_id");
    var startTime :- TimeField(j, "start_time");
    var endTime :- TimeField(j, "end_time");
    var c :- StatsCountersFromJson(j);
    var totalBet :- RealField(j, "total_bet");
    var totalWinnings :- RealField(j, "total_winnings");
    var netResult :- RealField(j, "net_result");
    Success(StatsRecord(sessionId, if startTime.Some? then startTime.value else now, endTime,
                        c.0, c.1, c.2, c.3, c.4, c.5, totalBet, totalWinnings, netResult, parts.0, parts.1, parts.2))
  }

  lemma StatsPartsRoundTrip(s: StatsRecord)
    requires forall i :: 0 <= i < |s.results| ==> Normalized(s.results[i])
    ensures StatsPartsFromJson(StatsJson(s)) == Success((s.counting, s.strategy, s.results))
  {
    var j := StatsJson(s);
    CountingRoundTrip(s.counting);
    StrategyRoundTrip(s.strategy);
    ResultListRoundTrip(j, "results_history", s.results);
    assert Field(j, "counting_accuracy") == Success(CountingJson(s.counting));
    assert Field(j, "strategy_accuracy") == Success(StrategyJson(s.strategy));
  }

  lemma StatsCountersRoundTrip(s: StatsRecord)
    ensures StatsCountersFromJson(StatsJson(s))
         == Success((s.handsPlayed, s.handsWon, s.handsLost, s.handsPushed, s.blackjacks, s.surrenders))
  {
    var j := StatsJson(s);
    assert IntField(j, "hands_played") == Success(s.handsPlayed);
    assert IntField(j, "hands_won") == Success(s.handsWon);
    assert IntField(j, "hands_lost") == Success(s.handsLost);
    assert IntField(j, "hands_pushed") == Success(s.handsPushed);
    assert IntField(j, "blackjacks") == Success(s.blackjacks);
    assert IntField(j, "surrenders") == Success(s.surrenders);
  }

  /** The scalar entries `_serialize_stats` writes, read back one by one. */
  lemma StatsScalarsRoundTrip(s: StatsRecord)
    ensures var j := StatsJson(s);
      StrField(j, "session_id") == Success(s.sessionId)
      && TimeField(j, "start_time") == Success(Some(s.startTime))
      && TimeField(j, "end_time") == Success(s.endTime)
      && RealField(j, "total_bet") == Success(s.totalBet)
      && RealField(j, "total_winnings") == Success(s.totalWinnings)
      && RealField(j, "net_result") == Success(s.netResult)
  {
  }

  /** `StatsFromJson` assembles the record from the results of its parts. */
  lemma StatsFromParts(j: Json, now: DateTime, s: StatsRecord)
    requires StatsPartsFromJson(j) == Success((s.counting, s.strategy, s.results))
    requires StatsCountersFromJson(j) == Success((s.handsPlayed, s.handsWon, s.handsLost, s.handsPushed, s.blackjacks, s.surrenders))
    requires StrField(j, "session_id") == Success(s.sessionId)
    requires TimeField(j, "start_time") == Success(Some(s.startTime)) && TimeField(j, "end_time") == Success(s.endTime)
    requires RealField(j, "total_bet") == Success(s.totalBet) && RealField(j, "total_winnings") == Success(s.totalWinnings)
    requires RealField(j, "net_result") == Success(s.netResult)
    ensures StatsFromJson(j, now) == Success(s)
  {
  }

  /** Statistics whose results were all built by the normalising constructor survive the trip unchanged. */
  lemma StatsRoundTrip(s: StatsRecord, now: DateTime)
    requires forall i :: 0 <= i < |s.results| ==> Normalized(s.results[i])
    ensures StatsFromJson(StatsJson(s), now) == Success(s)
  {
    StatsPartsRoundTrip(s);
    StatsCountersRoundTrip(s);
    StatsScalarsRoundTrip(s);
    StatsFromParts(StatsJson(s), now, s);
  }

  // ---------------------------------------------------------------------------
  // SessionData

  /** The session's fields, as `to_dict` and `from_dict` see them. */
  datatype Session = Session(
    sessionId: string,
    metadata: SessionMetadata,
    rules: ValidRules,
    stats: StatsRecord,
    handsHistory: seq<HandRecord>,
    countingSystem: string)

  /** What holds of every session once built: the metadata carries the session's id and every stored result is normalised. */
  predicate WellFormed(s: Session) {
    s.metadata.sessionId == s.sessionId
    && (forall i :: 0 <= i < |s.stats.results| ==> Normalized(s.stats.results[i]))
    && (forall i :: 0 <= i < |s.handsHistory| ==> Normalized(s.handsHistory[i].result))
  }

  /** `SessionData(...)` and its `__post_init__`, which overwrites the metadata's session id with the session's. */
  function NewSession(sessionId: string, metadata: SessionMetadata, rules: ValidRules, stats: StatsRecord,
                      handsHistory: seq<HandRecord>, countingSystem: string): (s: Session)
    ensures s.metadata.sessionId == sessionId
    ensures ((forall i :: 0 <= i < |stats.results| ==> Normalized(stats.results[i]))
             && (forall i :: 0 <= i < |handsHistory| ==> Normalized(handsHistory[i].result))) ==> WellFormed(s)
  {
    Session(sessionId, metadata.(sessionId := sessionId), rules, stats, handsHistory, countingSystem)
  }

  /** The "H17"/"S17" and "DAS"/"No DAS" part of the rules summary. */
  function RulesFlagsText(dealerHitsSoft17: bool, doubleAfterSplit: bool): string {
    (if dealerHitsSoft17 then "H17" else "S17") + ", " + (if doubleAfterSplit then "DAS" else "No DAS")
  }

  /** The flags text names both rules: different rules never give the same text. */
  lemma RulesFlagsTextDetermines(h1: bool, d1: bool, h2: bool, d2: bool)
    requires RulesFlagsText(h1, d1) == RulesFlagsText(h2, d2)
    ensures h1 == h2 && d1 == d2
  {
    var t1 := RulesFlagsText(h1, d1);
    var t2 := RulesFlagsText(h2, d2);
    assert t1[0] == t2[0] && |t1| == |t2|;
  }

  /**
   * The rules summary `update_metadata` writes: the deck count, the penetration as a
   * percentage (float formatting, so given as text), then the two dealer rules.
   */
  function RulesSummary(r: GameRules, penetrationText: string): string {
    Validation.IntToString(r.numDecks) + " decks, " + penetrationText + " penetration, "
      + RulesFlagsText(r.dealerHitsSoft17, r.doubleAfterSplit)
  }

  /** The summary starts with the deck count, which parses back, and ends with the flags text of the rules. */
  lemma RulesSummaryNamesRules(r: GameRules, penetrationText: string)
    ensures var s := RulesSummary(r, penetrationText);
      var d := Validation.IntToString(r.numDecks);
      var f := RulesFlagsText(r.dealerHitsSoft17, r.doubleAfterSplit);
      |s| >= |d| + |f| && Validation.ParseInt(s[..|d|]) == Some(r.numDecks) && s[|s| - |f|..] == f
  {
    var s := RulesSummary(r, penetrationText);
    var d := Validation.IntToString(r.numDecks);
    Validation.IntToStringRoundTrip(r.numDecks);
    assert s[..|d|] == d;
  }

  /** `update_metadata`: the hand count, the duration, the modification time and the rules summary follow the session. */
  function UpdateMetadata(s: Session, now: DateTime, durationMinutes: real, penetrationText: string): (t: Session)
    ensures t.metadata.handsPlayed == |s.handsHistory|
    ensures t.metadata.lastModified == now && t.metadata.durationMinutes == Some(durationMinutes)
    ensures t.metadata.rulesSummary == RulesSummary(s.rules, penetrationText)
    ensures t.metadata.sessionId == s.metadata.sessionId && t.metadata.createdTime == s.metadata.createdTime
    ensures t.metadata.name == s.metadata.name
    ensures t.sessionId == s.sessionId && t.rules == s.rules && t.stats == s.stats
    ensures t.handsHistory == s.handsHistory && t.countingSystem == s.countingSystem
    ensures WellFormed(s) ==> WellFormed(t)
  {
    s.(metadata := s.metadata.(handsPlayed := |s.handsHistory|, durationMinutes := Some(durationMinutes),
                               lastModified := now, rulesSummary := RulesSummary(s.rules, penetrationText)))
  }

  /** `add_hand_record`: the record goes at the end of the history and the metadata counts it. */
  function AddHandRecord(s: Session, record: HandRecord, now: DateTime): (t: Session)
    ensures t.handsHistory == s.handsHistory + [record]
    ensures t.metadata.handsPlayed == |t.handsHistory| && t.metadata.lastModified == now
    ensures t.metadata.sessionId == s.metadata.sessionId && t.metadata.rulesSummary == s.metadata.rulesSummary
    ensures t.sessionId == s.sessionId && t.rules == s.rules && t.stats == s.stats && t.countingSystem == s.countingSystem
    ensures WellFormed(s) && Normalized(record.result) ==> WellFormed(t)
  {
    var history := s.handsHistory + [record];
    s.(handsHistory := history, metadata := s.metadata.(handsPlayed := |history|, lastModified := now))
  }

  /** The dictionary `to_dict` returns once `update_metadata` has run. */
  function SessionJson(s: Session): Json {
    JObject(map[
      "session_id" := JStr(s.sessionId),
      "metadata" := MetadataJson(s.metadata),
      "rules" := RulesJson(s.rules),
      "stats" := StatsJson(s.stats),
      "hands_history" := JList(EncodeItems(HandRecordJson, s.handsHistory)),
      "counting_system" := JStr(s.countingSystem)])
  }

  /** The `"hands_history"` list of a stored session: every record in it carries a normalised result. */
  function HistoryFromJson(j: Json, now: DateTime): (r: Result<seq<HandRecord>, ErrorKind>)
    ensures r.Success? ==> forall i :: 0 <= i < |r.value| ==> Normalized(r.value[i].result)
  {
    ListField(j, "hands_history", h => HandRecordFromJson(h, now))
  }

  /** The metadata, rules and statistics of a stored session, read first in `SessionData.from_dict`. */
  function SessionPartsFromJson(j: Json, now: DateTime): (r: Result<(SessionMetadata, ValidRules, StatsRecord), ErrorKind>)
    ensures r.Success? ==> j.JObject? && "rules" in j.fields
  {
    var mj :- Field(j, "metadata");
    var metadata :- MetadataFromJson(mj, now);
    var rj :- Field(j, "rules");
    var rules :- RulesFromJson(rj);
    var sj :- Field(j, "stats");
    var stats :- StatsFromJson(sj, now);
    Success((metadata, rules, stats))
  }

  /** `SessionData.from_dict`: metadata, rules, stats and history in the source's order; no counting system means "Hi-Lo". */
  function SessionFromJson(j: Json, now: DateTime): (r: Result<Session, ErrorKind>)
    ensures r.Success? ==> j.JObject? && "session_id" in j.fields && j.fields["session_id"] == JStr(r.value.sessionId)
    ensures r.Success? ==> r.value.metadata.sessionId == r.value.sessionId
    ensures r.Success? && "counting_system" !in j.fields ==> r.value.countingSystem == "Hi-Lo"
    ensures r.Success? ==> WellFormed(r.value)
  {
    var parts :- SessionPartsFromJson(j, now);
    var history :- HistoryFromJson(j, now);
    var sessionId :- StrField(j, "session_id");
    var countingSystem :- AsStr("counting_system", FieldOr(j, "counting_system", JStr("Hi-Lo")));
    Success(Session(sessionId, parts.0.(sessionId := sessionId), parts.1, parts.2, history, countingSystem))
  }

  lemma SessionPartsRoundTrip(s: Session, now: DateTime)
    requires WellFormed(s)
    ensures SessionPartsFromJson(SessionJson(s), now) == Success((s.metadata, s.rules, s.stats))
  {
    MetadataRoundTrip(s.metadata, now);
    RulesRoundTrip(s.rules);
    StatsRoundTrip(s.stats, now);
    SessionPartsFields(s);
    SessionPartsFromFields(SessionJson(s), now, MetadataJson(s.metadata), RulesJson(s.rules), StatsJson(s.stats),
                           s.metadata, s.rules, s.stats);
  }

  /** The nested dictionaries of a session's dictionary. */
  lemma SessionPartsFields(s: Session)
    ensures var j := SessionJson(s);
      Field(j, "metadata") == Success(MetadataJson(s.metadata))
      && Field(j, "rules") == Success(RulesJson(s.rules))
      && Field(j, "stats") == Success(StatsJson(s.stats))
  {
  }

  /** `SessionPartsFromJson` assembles its triple from nested dictionaries that read back. */
  lemma SessionPartsFromFields(j: Json, now: DateTime, mj: Json, rj: Json, sj: Json,
                               m: SessionMetadata, r: ValidRules, st: StatsRecord)
    requires Field(j, "metadata") == Success(mj) && MetadataFromJson(mj, now) == Success(m)
    requires Field(j, "rules") == Success(rj) && RulesFromJson(rj) == Success(r)
    requires Field(j, "stats") == Success(sj) && StatsFromJson(sj, now) == Success(st)
    ensures SessionPartsFromJson(j, now) == Success((m, r, st))
  {
  }

  /** The entries of the session dictionary outside its metadata, rules and statistics, read back. */
  lemma SessionEntriesRoundTrip(s: Session, now: DateTime)
    requires forall i :: 0 <= i < |s.handsHistory| ==> Normalized(s.handsHistory[i].result)
    ensures var j := SessionJson(s);
      HistoryFromJson(j, now) == Success(s.handsHistory)
      && StrField(j, "session_id") == Success(s.sessionId)
      && j.JObject? && FieldOr(j, "counting_system", JStr("Hi-Lo")) == JStr(s.countingSystem)
  {
    var j := SessionJson(s);
    SessionHistoryEntry(s);
    HandRecordListRoundTrip(j, "hands_history", s.handsHistory, now);
    SessionIdEntries(s);
  }

  /** The `"hands_history"` entry of a session's dictionary. */
  lemma SessionHistoryEntry(s: Session)
    ensures var j := SessionJson(s);
      j.JObject? && "hands_history" in j.fields && j.fields["hands_history"] == JList(EncodeItems(HandRecordJson, s.handsHistory))
  {
  }

  /** The `"session_id"` and `"counting_system"` entries of a session's dictionary. */
  lemma SessionIdEntries(s: Session)
    ensures var j := SessionJson(s);
      StrField(j, "session_id") == Success(s.sessionId)
      && j.JObject? && FieldOr(j, "counting_system", JStr("Hi-Lo")) == JStr(s.countingSystem)
  {
  }

  /** `SessionFromJson` assembles the session from the results of its parts. */
  lemma SessionFromParts(j: Json, now: DateTime, s: Session)
    requires s.metadata.sessionId == s.sessionId
    requires SessionPartsFromJson(j, now) == Success((s.metadata, s.rules, s.stats))
    requires HistoryFromJson(j, now) == Success(s.handsHistory)
    requires StrField(j, "session_id") == Success(s.sessionId)
    requires j.JObject? && FieldOr(j, "counting_system", JStr("Hi-Lo")) == JStr(s.countingSystem)
    ensures SessionFromJson(j, now) == Success(s)
  {
  }

  /** `SessionData.from_dict` on what `to_dict` wrote gives back the whole session: id, metadata, rules, stats and history. */
  lemma SessionRoundTrip(s: Session, now: DateTime)
    requires WellFormed(s)
    ensures SessionFromJson(SessionJson(s), now) == Success(s)
  {
    SessionPartsRoundTrip(s, now);
    SessionEntriesRoundTrip(s, now);
    SessionFromParts(SessionJson(s), now, s);
  }

  /** A session read back after `to_dict` keeps its id, rules, counters and history, and carries the refreshed metadata. */
  lemma ToDictRoundTrip(s: Session, now: DateTime, durationMinutes: real, penetrationText: string, later: DateTime)
    requires WellFormed(s)
    ensures var t := UpdateMetadata(s, now, durationMinutes, penetrationText);
      var r := SessionFromJson(SessionJson(t), later);
      r.Success? && r.value == t
      && r.value.sessionId == s.sessionId && r.value.rules == s.rules && r.value.stats == s.stats
      && r.value.handsHistory == s.handsHistory && r.value.metadata.handsPlayed == |s.handsHistory|
  {
    SessionRoundTrip(UpdateMetadata(s, now, durationMinutes, penetrationText), later);
  }

  /** The session object: `add_hand_record` and `update_metadata` change it in place. */
  class SessionData {
    var sessionId: string
    var metadata: SessionMetadata
    var rules: ValidRules
    var stats: StatsRecord
    var handsHistory: seq<HandRecord>
    var countingSystem: string

    function Snapshot(): Session
      reads this
    {
      Session(sessionId, metadata, rules, stats, handsHistory, countingSystem)
    }

    ghost predicate Valid()
      reads this
    {
      WellFormed(Snapshot())
    }

    /** `SessionData(...)`: the metadata takes the session's id. */
    constructor (id: string, m: SessionMetadata, r: ValidRules, st: StatsRecord, history: seq<HandRecord>, system: string)
      requires forall i :: 0 <= i < |st.results| ==> Normalized(st.results[i])
      requires forall i :: 0 <= i < |history| ==> Normalized(history[i].result)
      ensures Valid()
      ensures Snapshot() == NewSession(id, m, r, st, history, system)
    {
      sessionId := id;
      metadata := m.(sessionId := id);
      rules := r;
      stats := st;
      handsHistory := history;
      countingSystem := system;
    }

    /** `add_hand_record`; the clock is a parameter. */
    method AddHandRecordAt(record: HandRecord, now: DateTime)
      requires Valid() && Normalized(record.result)
      modifies this
      ensures Valid()
      ensures Snapshot() == AddHandRecord(old(Snapshot()), record, now)
    {
      handsHistory := handsHistory + [record];
      metadata := metadata.(handsPlayed := |handsHistory|, lastModified := now);
    }

    /** `update_metadata`; the clock and the session duration are parameters. */
    method UpdateMetadataAt(now: DateTime, durationMinutes: real, penetrationText: string)
      requires Valid()
      modifies this
      ensures Valid()
      ensures Snapshot() == UpdateMetadata(old(Snapshot()), now, durationMinutes, penetrationText)
    {
      metadata := metadata.(handsPlayed := |handsHistory|, durationMinutes := Some(durationMinutes),
                            lastModified := now, rulesSummary := RulesSummary(rules, penetrationText));
    }

    /** `to_dict`: refreshes the metadata, then writes the dictionary, which reads back to the refreshed session. */
    method ToDict(now: DateTime, durationMinutes: real, penetrationText: string) returns (j: Json)
      requires Valid()
      modifies this
      ensures Valid()
      ensures Snapshot() == UpdateMetadata(old(Snapshot()), now, durationMinutes, penetrationText)
      ensures j == SessionJson(Snapshot())
      ensures forall later: DateTime :: SessionFromJson(j, later) == Success(Snapshot())
    {
      UpdateMetadataAt(now, durationMinutes, penetrationText);
      j := SessionJson(Snapshot());
      forall later: DateTime
        ensures SessionFromJson(j, later) == Success(Snapshot())
      {
        SessionRoundTrip(Snapshot(), later);
      }
    }
  }

  /** `SessionData.from_dict`: a fresh session object, or the exception the dictionary raises. */
  method SessionDataFromDict(data: Json, now: DateTime) returns (r: Result<SessionData, ErrorKind>)
    ensures r.Success? <==> SessionFromJson(data, now).Success?
    ensures r.Failure? ==> r.error == SessionFromJson(data, now).error
    ensures r.Success? ==> fresh(r.value) && r.value.Snapshot() == SessionFromJson(data, now).value
  {
    var decoded := SessionFromJson(data, now);
    if decoded.Failure? {
      return Failure(decoded.error);
    }
    var s := decoded.value;
    var obj := new SessionData(s.sessionId, s.metadata, s.rules, s.stats, s.handsHistory, s.countingSystem);
    return Success(obj);
  }
}
