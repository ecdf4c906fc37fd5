/**
 * The JavaScript values the two pages inspect: truthiness, the `||`
 * operator, optional property reads, `+s` on a string, and the error text a
 * failed request is reduced to.
 */
module JsValues {
  import opened Strings

  /** A JavaScript value as far as the pages look at it; an object or array is kept as the
      text JSON.stringify gives for it. */
  datatype JsValue = Undefined | Null | Bool(b: bool) | Num(x: real) | NaN | Str(s: string) | Obj(json: string)

  /** JavaScript truthiness: false, 0, NaN, "", null and undefined are falsy. */
  predicate Truthy(v: JsValue) {
    match v
    case Undefined => false
    case Null => false
    case Bool(b) => b
    case Num(x) => x != 0.0
    case NaN => false
    case Str(s) => s != ""
    case Obj(_) => true
  }

  /** a || b */
  function Or(a: JsValue, b: JsValue): (r: JsValue)
    ensures Truthy(a) ==> r == a
    ensures !Truthy(a) ==> r == b
    ensures Truthy(r) <==> Truthy(a) || Truthy(b)
  {
    if Truthy(a) then a else b
  }

  /** A property read on a plain object; an absent key reads as undefined. */
  function Get(obj: map<string, JsValue>, key: string): (v: JsValue)
    ensures key !in obj ==> v == Undefined
    ensures key in obj ==> v == obj[key]
  {
    if key in obj then obj[key] else Undefined
  }

  predicate AllDigits(s: string) {
    forall i :: 0 <= i < |s| ==> IsDigit(s[i])
  }

  /** +s for a string: "" is 0, a run of ASCII digits is its decimal value, anything else NaN. */
  function ToNumber(s: string): (v: JsValue)
    ensures v.Num? || v.NaN?
    ensures s == "" ==> v == Num(0.0)
    ensures v.Num? && s != "" ==> AllDigits(s) && v.x >= 0.0
  {
    if s == "" then Num(0.0)
    else if AllDigits(s) then Num(DigitsValue(s) as real)
    else NaN
  }

  /** What a rejected axios request carries: the parsed body of the response (empty when there
      was no response, or its body was not an object) and the error's own message. */
  datatype RequestError = RequestError(responseData: map<string, JsValue>, message: JsValue)

  /** typeof msg === 'object' ? JSON.stringify(msg) : msg (typeof null is "object" too). */
  function Shown(msg: JsValue): (r: JsValue)
    ensures !r.Obj? && !r.Null?
    ensures msg.Obj? ==> r == Str(msg.json)
    ensures msg.Null? ==> r == Str("null")
    ensures !msg.Obj? && !msg.Null? ==> r == msg
  {
    match msg
    case Obj(json) => Str(json)
    case Null => Str("null")
    case _ => msg
  }

  /** The first truthy of `first`, `second` (read from the response body) and the message,
      falling back to the message even when it is falsy, then shown as a string. */
  function ErrorText(e: RequestError, first: string, second: string): (r: JsValue)
    ensures Truthy(Get(e.responseData, first)) ==> r == Shown(Get(e.responseData, first))
    ensures !Truthy(Get(e.responseData, first)) && Truthy(Get(e.responseData, second)) ==>
              r == Shown(Get(e.responseData, second))
    ensures !Truthy(Get(e.responseData, first)) && !Truthy(Get(e.responseData, second)) ==>
              r == Shown(e.message)
  {
    Shown(Or(Or(Get(e.responseData, first), Get(e.responseData, second)), e.message))
  }

  /** The analyze page prefers "detail" to "error". */
  function AnalyzeErrorText(e: RequestError): JsValue {
    ErrorText(e, "detail", "error")
  }

  /** The market page prefers "error" to "detail". */
  function MarketErrorText(e: RequestError): JsValue {
    ErrorText(e, "error", "detail")
  }

  /** The two pages show the same text unless the body has both a truthy "detail" and a truthy
      "error" that differ once shown; then the analyze page shows the detail and the market
      page the error. */
  lemma ErrorOrdersDisagreeOnlyOnBoth(e: RequestError)
    ensures var d, er := Get(e.responseData, "detail"), Get(e.responseData, "error");
            (AnalyzeErrorText(e) != MarketErrorText(e) ==> Truthy(d) && Truthy(er) && Shown(d) != Shown(er))
            && (Truthy(d) && Truthy(er) ==> AnalyzeErrorText(e) == Shown(d) && MarketErrorText(e) == Shown(er))
  {
  }
}
