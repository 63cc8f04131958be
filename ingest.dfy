/**
 * The sensor ingestion handler's validation step (`receive_sensor_data` in
 * gpro/backend/app.py): a decoded JSON body is accepted as one scan when it
 * carries `time`, `tx` and `rx` and `rx` is a list of numbers.
 */
module Ingest {
  import opened Wrappers

  /** A decoded JSON value. Integers and floats are both numbers here. */
  datatype Json =
    | JNull
    | JBool(b: bool)
    | JNum(n: real)
    | JStr(s: string)
    | JArray(items: seq<Json>)
    | JObject(fields: map<string, Json>)

  /** One stored reading event: `time` and `tx` are kept as sent, `rx` as numbers. */
  datatype Scan = Scan(time: Json, tx: Json, rx: seq<real>)

  /** Why a payload was refused (HTTP 400 in the source). */
  datatype IngestError =
    | MissingField   // body absent or empty, or one of time/tx/rx missing
    | BadReadings    // rx is not a list, or one of its elements is not a number

  const TIME_KEY := "time"
  const TX_KEY := "tx"
  const RX_KEY := "rx"

  /**
   * Python's `isinstance(v, (int, float))`. A boolean passes, because
   * Python's `bool` is a subclass of `int`.
   */
  predicate IsNumber(v: Json) {
    v.JNum? || v.JBool?
  }

  /** The value a number contributes to `sum(...)`: True counts 1, False counts 0. */
  function NumberValue(v: Json): real
    requires IsNumber(v)
  {
    match v
    case JNum(n) => n
    case JBool(b) => if b then 1.0 else 0.0
  }

  /** The `all(isinstance(...))` test over the rx list, giving the readings when it passes. */
  function Numbers(items: seq<Json>): (r: Option<seq<real>>)
    ensures r.Some? <==> forall i :: 0 <= i < |items| ==> IsNumber(items[i])
    ensures r.Some? ==> |r.value| == |items|
    ensures r.Some? ==> forall i :: 0 <= i < |items| ==> r.value[i] == NumberValue(items[i])
  {
    if items == [] then Some([])
    else if !IsNumber(items[0]) then None
    else match Numbers(items[1..])
      case None => None
      case Some(rest) => Some([NumberValue(items[0])] + rest)
  }

  /** True when the body has all three keys (an empty or absent body has none). */
  predicate HasFields(body: Option<map<string, Json>>) {
    body.Some? && TIME_KEY in body.value && TX_KEY in body.value && RX_KEY in body.value
  }

  /** The checks of the ingestion handler, in the source's order. */
  function Check(body: Option<map<string, Json>>): (r: Result<Scan, IngestError>)
    ensures r == Err(MissingField) <==> !HasFields(body)
    ensures r.Ok? <==>
      HasFields(body) && body.value[RX_KEY].JArray? &&
      (forall i :: 0 <= i < |body.value[RX_KEY].items| ==> IsNumber(body.value[RX_KEY].items[i]))
    ensures r.Ok? ==>
      r.value.time == body.value[TIME_KEY] && r.value.tx == body.value[TX_KEY] &&
      |r.value.rx| == |body.value[RX_KEY].items| &&
      forall i :: 0 <= i < |r.value.rx| ==> r.value.rx[i] == NumberValue(body.value[RX_KEY].items[i])
  {
    if !HasFields(body) then Err(MissingField)
    else
      var fields := body.value;
      match fields[RX_KEY]
      case JArray(items) =>
        (match Numbers(items)
         case Some(rx) => Ok(Scan(fields[TIME_KEY], fields[TX_KEY], rx))
         case None => Err(BadReadings))
      case _ => Err(BadReadings)
  }

  /** The body a device sends for a scan: its readings as a JSON list of numbers. */
  function Encode(scan: Scan): (body: map<string, Json>)
    ensures body.Keys == {TIME_KEY, TX_KEY, RX_KEY}
  {
    map[TIME_KEY := scan.time, TX_KEY := scan.tx,
        RX_KEY := JArray(seq(|scan.rx|, i requires 0 <= i < |scan.rx| => JNum(scan.rx[i])))]
  }

  /** Every scan a device can send is accepted and stored exactly as sent. */
  lemma CheckEncode(scan: Scan)
    ensures Check(Some(Encode(scan))) == Ok(scan)
  {
    var r := Check(Some(Encode(scan)));
    assert r.Ok?;
    assert r.value.rx == scan.rx;
  }

  /** One element that is not a number, at any position of rx, makes the payload refused. */
  lemma RejectNonNumber(body: map<string, Json>, i: nat)
    requires TIME_KEY in body && TX_KEY in body && RX_KEY in body && body[RX_KEY].JArray?
    requires i < |body[RX_KEY].items| && !IsNumber(body[RX_KEY].items[i])
    ensures Check(Some(body)) == Err(BadReadings)
  {
  }
}
