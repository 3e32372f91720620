/** The decoded message body, as `json.loads` hands it to the consumer callback,
    and the two Python operations the callback applies to it: subscripting
    (`message['bid_amount']`) and rendering inside an f-string. */
module Payload {

  datatype Option<+T> = None | Some(value: T)

  /** The exceptions the callback can meet while processing one message. */
  datatype Fault =
    | JsonDecodeError      // json.loads rejected the body
    | KeyError(key: string) // the decoded object lacks a field
    | TypeError            // subscripting a non-object, or comparing a non-number with the threshold

  datatype Result<+T> = Ok(value: T) | Err(fault: Fault)

  /** A JSON value as Python's json module decodes it. A number keeps its
      value and the text Python's str() gives it (e.g. "812.5"). */
  datatype Json =
    | JNull
    | JBool(b: bool)
    | JNumber(value: real, text: string)
    | JString(s: string)
    | JArray(items: seq<Json>)
    | JObject(fields: map<string, Json>)

  /** `message[key]`: a dict lookup raises KeyError when the key is absent;
      any other JSON value (list, str, number, bool, None) raises TypeError. */
  function Subscript(message: Json, key: string): (r: Result<Json>)
    ensures r.Ok? <==> message.JObject? && key in message.fields
    ensures r.Ok? ==> r.value == message.fields[key]
    ensures r.Err? && message.JObject? ==> r.fault == KeyError(key)
    ensures r.Err? && !message.JObject? ==> r.fault == TypeError
  {
    match message
    case JObject(fields) => if key in fields then Ok(fields[key]) else Err(KeyError(key))
    case _ => Err(TypeError)
  }

  /** Both reads the callback performs succeed: `bid_amount` then `timestamp`. */
  predicate HasBidFields(message: Json)
  {
    Subscript(message, "bid_amount").Ok? && Subscript(message, "timestamp").Ok?
  }

  function BidAmount(message: Json): Json
    requires HasBidFields(message)
  {
    Subscript(message, "bid_amount").value
  }

  function Timestamp(message: Json): Json
    requires HasBidFields(message)
  {
    Subscript(message, "timestamp").value
  }

  /** The exception raised by the first of the two reads that fails. */
  function FieldFault(message: Json): (f: Fault)
    requires !HasBidFields(message)
    ensures message.JObject? ==> f == KeyError(if "bid_amount" !in message.fields then "bid_amount" else "timestamp")
    ensures !message.JObject? ==> f == TypeError
  {
    var amount := Subscript(message, "bid_amount");
    if amount.Err? then amount.fault else Subscript(message, "timestamp").fault
  }

  predicate IsScalar(v: Json)
  {
    !v.JArray? && !v.JObject?
  }

  /** Python's str() of a scalar JSON value, as an f-string inserts it. */
  function Str(v: Json): string
    requires IsScalar(v)
  {
    match v
    case JNull => "None"
    case JBool(b) => if b then "True" else "False"
    case JNumber(_, text) => text
    case JString(s) => s
  }
}
