/** The C-callable entry points: each decodes its text arguments, runs one
    engine call and the JSON encoding inside a panic guard, and turns the
    outcome into a buffer or a sentinel.

    The parsing engine and the JSON serialiser are parameters: the model only
    depends on whether each returns a value, reports a controlled failure, or
    panics. A text argument is given as the result of decoding the caller's
    buffer as UTF-8: `None` when the bytes are not valid UTF-8. */
module Boundary {
  import opened Outcomes
  import opened Buffers
  import opened EngineTypes

  /** A C `int64_t`. */
  newtype i64 = x: int | -0x8000_0000_0000_0000 <= x < 0x8000_0000_0000_0000

  /** How one boundary call ends. */
  datatype Call<T> =
      /** It returned `value`, leaving the layer's buffers as `heap`, after
          writing `logged` diagnostic lines. */
    | Completed(value: T, heap: Heap, logged: nat)
      /** A panic raised outside the guard left the function: no sentinel is
          returned. */
    | Escaped

  /** `crypto_msg_parser::extract_symbol`. */
  type SymbolEngine = (string, MarketType, string) -> Unwind<Option<string>>
  /** `crypto_msg_parser::parse_trade` and `parse_funding_rate`. */
  type Parser<R> = (string, MarketType, string) -> Unwind<Result<seq<R>>>
  /** `crypto_msg_parser::parse_l2`, which also takes the receipt timestamp. */
  type L2Parser<R> = (string, MarketType, string, Option<i64>) -> Unwind<Result<seq<R>>>
  /** `crypto_msg_parser::get_msg_type`. */
  type Classifier = (string, string) -> Unwind<MessageType>
  /** `serde_json::to_string`. */
  type Json<-T> = T -> Result<string>

  // ---------------------------------------------------------------------------
  // The sentinel table of the string-returning entry points.

  /** The guarded closure has a buffer to hand over: the engine found a result
      and it serialises to text without an interior NUL. */
  predicate Delivers<T>(found: Unwind<Option<T>>, toJson: Json<T>)
  {
    && found.Returned? && found.value.Some?
    && toJson(found.value.value).Ok?
    && '\0' !in toJson(found.value.value).value
  }

  /** The JSON text handed over when `Delivers` holds. */
  function Delivered<T>(found: Unwind<Option<T>>, toJson: Json<T>): CText
    requires Delivers(found, toJson)
  {
    toJson(found.value.value).value
  }

  /** Something inside the guard panics: the engine itself, the `unwrap` of
      the serialiser's result, or the `unwrap` of `CString::new`. */
  predicate PanicsInGuard<T>(found: Unwind<Option<T>>, toJson: Json<T>)
  {
    || found.Panicked?
    || (found.value.Some? && toJson(found.value.value).Err?)
    || (found.value.Some? && toJson(found.value.value).Ok? && '\0' in toJson(found.value.value).value)
  }

  /** What a completed string-returning call promises, given what the engine
      did: a fresh buffer holding the JSON exactly when there is one to hand
      over, null otherwise with the buffers untouched, and one diagnostic line
      exactly when a panic was caught. */
  predicate JsonSentinels<T>(h: Heap, found: Unwind<Option<T>>, toJson: Json<T>, r: Call<Ptr>)
  {
    && r.Completed?
    && (r.value != Null <==> Delivers(found, toJson))
    && (r.value != Null ==> (r.value, r.heap) == IntoRaw(h, Delivered(found, toJson)))
    && (r.value == Null ==> r.heap == h)
    && (r.logged == 1 <==> PanicsInGuard(found, toJson))
    && r.logged <= 1
  }

  /** Every engine outcome falls in exactly one row of the table: success, a
      controlled failure (the engine found nothing), or a caught panic. */
  lemma OutcomesPartitioned<T>(found: Unwind<Option<T>>, toJson: Json<T>)
    ensures Delivers(found, toJson) || PanicsInGuard(found, toJson) || found == Returned(None)
    ensures !(Delivers(found, toJson) && PanicsInGuard(found, toJson))
    ensures found == Returned(None) ==> !Delivers(found, toJson) && !PanicsInGuard(found, toJson)
  {
  }

  // ---------------------------------------------------------------------------
  // The pipeline pieces the entry points share.

  /** The body of the guarded closure of a string-returning entry point: a
      result the engine found is serialised and unwrapped, turned into a C
      string and unwrapped, and handed over with `into_raw`; no result gives
      null. */
  function HandOver<T>(h: Heap, found: Unwind<Option<T>>, toJson: Json<T>): (r: Unwind<(Ptr, Heap)>)
    ensures r.Panicked? <==> PanicsInGuard(found, toJson)
    ensures Delivers(found, toJson) ==> r == Returned(IntoRaw(h, Delivered(found, toJson)))
    ensures found == Returned(None) ==> r == Returned((Null, h))
  {
    match found
    case Panicked => Panicked
    case Returned(None) => Returned((Null, h))
    case Returned(Some(v)) =>
      match toJson(v)
      case Err(_) => Panicked
      case Ok(text) =>
        if '\0' in text then Panicked else Returned(IntoRaw(h, text))
  }

  /** `catch_unwind` and the match on its result: a returned value passes
      through; a caught panic writes one diagnostic line and yields the
      sentinel, with the buffers as they were before the guard. */
  function CatchUnwind<T>(h: Heap, guarded: Unwind<(T, Heap)>, sentinel: T): (r: Call<T>)
    ensures r.Completed? && r.logged <= 1
    ensures r.logged == 1 <==> guarded.Panicked?
    ensures guarded.Panicked? ==> r.value == sentinel && r.heap == h
    ensures guarded.Returned? ==> (r.value, r.heap) == guarded.value
  {
    match guarded
    case Returned((v, h')) => Completed(v, h', 0)
    case Panicked => Completed(sentinel, h, 1)
  }

  /** The engine's parse result with the error dropped, as `if let Ok(..)`
      reads it. */
  function Found<T>(outcome: Unwind<Result<T>>): (r: Unwind<Option<T>>)
    ensures r.Panicked? <==> outcome.Panicked?
    ensures r.Returned? ==> (r.value.Some? <==> outcome.value.Ok?)
    ensures r.Returned? && r.value.Some? ==> r.value.value == outcome.value.value
  {
    match outcome
    case Panicked => Panicked
    case Returned(res) => Returned(res.ToOption())
  }

  /** `parse_l2`'s receipt timestamp: non-positive means "not supplied";
      a positive value is forwarded unchanged. */
  function NormalizeTimestamp(t: i64): (r: Option<i64>)
    ensures r.None? <==> t <= 0
    ensures r.Some? ==> r.value == t
  {
    if t <= 0 then None else Some(t)
  }

  // ---------------------------------------------------------------------------
  // Entry points.

  /** `extract_symbol`: the symbol as a JSON string in a fresh buffer, or null. */
  function ExtractSymbol(h: Heap, exchange: Option<string>, marketType: MarketType, msg: Option<string>,
                         engine: SymbolEngine, toJson: Json<string>): (r: Call<Ptr>)
    ensures r.Escaped? <==> exchange.None? || msg.None?
    ensures r.Completed? ==> JsonSentinels(h, engine(exchange.value, marketType, msg.value), toJson, r)
  {
    match (exchange, msg)
    case (Some(ex), Some(m)) => CatchUnwind(h, HandOver(h, engine(ex, marketType, m), toJson), Null)
    case _ => Escaped
  }

  /** `get_msg_type`: the engine's classification, or `Other` if it panics. */
  function GetMsgType(h: Heap, exchange: Option<string>, msg: Option<string>,
                      engine: Classifier): (r: Call<MessageType>)
    ensures r.Escaped? <==> exchange.None? || msg.None?
    ensures r.Completed? ==> r.heap == h && r.logged <= 1
    ensures r.Completed? && engine(exchange.value, msg.value).Returned? ==>
      r.value == engine(exchange.value, msg.value).value && r.logged == 0
    ensures r.Completed? && engine(exchange.value, msg.value).Panicked? ==>
      r.value == Other && r.logged == 1
  {
    match (exchange, msg)
    case (Some(ex), Some(m)) =>
      var guarded := match engine(ex, m)
        case Returned(t) => Returned((t, h))
        case Panicked => Panicked;
      CatchUnwind(h, guarded, Other)
    case _ => Escaped
  }

  /** `parse_trade`: the trades as a JSON array in a fresh buffer, or null. */
  function ParseTrade<R>(h: Heap, exchange: Option<string>, marketType: MarketType, msg: Option<string>,
                         engine: Parser<R>, toJson: Json<seq<R>>): (r: Call<Ptr>)
    ensures r.Escaped? <==> exchange.None? || msg.None?
    ensures r.Completed? ==> JsonSentinels(h, Found(engine(exchange.value, marketType, msg.value)), toJson, r)
  {
    match (exchange, msg)
    case (Some(ex), Some(m)) => CatchUnwind(h, HandOver(h, Found(engine(ex, marketType, m)), toJson), Null)
    case _ => Escaped
  }

  /** `parse_l2`: the order-book updates as a JSON array in a fresh buffer, or
      null. The timestamp is normalised before the guard. */
  function ParseL2<R>(h: Heap, exchange: Option<string>, marketType: MarketType, msg: Option<string>,
                      timestamp: i64, engine: L2Parser<R>, toJson: Json<seq<R>>): (r: Call<Ptr>)
    ensures r.Escaped? <==> exchange.None? || msg.None?
    ensures r.Completed? ==>
      JsonSentinels(h, Found(engine(exchange.value, marketType, msg.value, NormalizeTimestamp(timestamp))), toJson, r)
  {
    match (exchange, msg)
    case (Some(ex), Some(m)) =>
      var received := NormalizeTimestamp(timestamp);
      CatchUnwind(h, HandOver(h, Found(engine(ex, marketType, m, received)), toJson), Null)
    case _ => Escaped
  }

  /** `parse_funding_rate`: the funding rates as a JSON array in a fresh
      buffer, or null. */
  function ParseFundingRate<R>(h: Heap, exchange: Option<string>, marketType: MarketType, msg: Option<string>,
                               engine: Parser<R>, toJson: Json<seq<R>>): (r: Call<Ptr>)
    ensures r.Escaped? <==> exchange.None? || msg.None?
    ensures r.Completed? ==> JsonSentinels(h, Found(engine(exchange.value, marketType, msg.value)), toJson, r)
  {
    match (exchange, msg)
    case (Some(ex), Some(m)) => CatchUnwind(h, HandOver(h, Found(engine(ex, marketType, m)), toJson), Null)
    case _ => Escaped
  }

  // ---------------------------------------------------------------------------
  // Properties relating several calls.

  /** Every non-positive receipt timestamp means the same thing to `parse_l2`. */
  lemma NonPositiveTimestampsAgree<R>(h: Heap, exchange: Option<string>, marketType: MarketType,
                                      msg: Option<string>, t1: i64, t2: i64,
                                      engine: L2Parser<R>, toJson: Json<seq<R>>)
    requires t1 <= 0 && t2 <= 0
    ensures ParseL2(h, exchange, marketType, msg, t1, engine, toJson)
         == ParseL2(h, exchange, marketType, msg, t2, engine, toJson)
  {
  }

  /** A caller cannot tell a controlled failure from a caught panic by the
      return value: both give null and leave the buffers alone; only the
      diagnostic line differs. */
  lemma FailuresLookAlike<R>(h: Heap, exchange: string, marketType: MarketType, msg: string,
                             controlled: Parser<R>, panicking: Parser<R>, toJson: Json<seq<R>>)
    requires controlled(exchange, marketType, msg).Returned?
    requires controlled(exchange, marketType, msg).value.Err?
    requires panicking(exchange, marketType, msg).Panicked?
    ensures var a := ParseTrade(h, Some(exchange), marketType, Some(msg), controlled, toJson);
            var b := ParseTrade(h, Some(exchange), marketType, Some(msg), panicking, toJson);
            a.Completed? && b.Completed? && a.value == b.value == Null && a.heap == b.heap == h
            && a.logged == 0 && b.logged == 1
  {
  }

  /** Any call meeting the sentinel table (all four string-returning entry
      points, by their contracts) affects the buffers as one session step:
      either nothing, or exactly one `into_raw` of some text. */
  lemma CallIsOneAcquire<T>(h: Heap, found: Unwind<Option<T>>, toJson: Json<T>, r: Call<Ptr>)
    requires JsonSentinels(h, found, toJson, r)
    ensures (r.value == Null && r.heap == h) ||
            (exists text: CText :: (r.value, r.heap) == IntoRaw(h, text))
  {
    if r.value != Null {
      assert (r.value, r.heap) == IntoRaw(h, Delivered(found, toJson));
    }
  }
}
