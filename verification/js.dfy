/** The JavaScript values the client handles: parsed JSON response bodies
    and the form state. Numbers are integers here. */
module Js {
  import opened Text

  datatype Json =
    | JNull
    | JBool(b: bool)
    | JNum(n: int)
    | JStr(s: string)
    | JArr(items: seq<Json>)
    | JObj(fields: map<string, Json>)

  /** JavaScript truthiness. */
  predicate Truthy(j: Json) {
    match j
    case JNull => false
    case JBool(b) => b
    case JNum(n) => n != 0
    case JStr(s) => s != ""
    case JArr(_) => true
    case JObj(_) => true
  }

  /** The decimal digit of `d`. */
  function Digit(d: int): char
    requires 0 <= d < 10
  {
    "0123456789"[d]
  }

  /** `String(n)` for a natural number: its decimal digits, no leading zero. */
  function NatToString(n: nat): (r: string)
    ensures |r| > 0 && (forall i :: 0 <= i < |r| ==> '0' <= r[i] <= '9')
    ensures r[0] == '0' ==> n == 0
  {
    if n < 10 then [Digit(n)] else NatToString(n / 10) + [Digit(n % 10)]
  }

  /** `String(n)` for an integer. */
  function IntToString(n: int): (r: string) {
    if n < 0 then "-" + NatToString(-n) else NatToString(n)
  }

  /** `String(v)`: the string conversion `Array.prototype.join` applies to
      an element. Arrays are joined with `","`; every object converts to
      `"[object Object]"`. */
  function ToJsString(j: Json): string
    decreases j
  {
    match j
    case JNull => "null"
    case JBool(b) => if b then "true" else "false"
    case JNum(n) => IntToString(n)
    case JStr(s) => s
    case JArr(items) => JoinJs(items, ",")
    case JObj(_) => "[object Object]"
  }

  /** `items.join(sep)`: `null` elements contribute the empty string, the
      others their string conversion. */
  function JoinJs(items: seq<Json>, sep: string): string
    decreases items
  {
    if |items| == 0 then ""
    else
      var first := if items[0].JNull? then "" else ToJsString(items[0]);
      if |items| == 1 then first else first + sep + JoinJs(items[1..], sep)
  }

  /** An array of strings joins like the strings themselves. */
  lemma {:induction false} JoinJsStrings(items: seq<Json>, xs: seq<string>, sep: string)
    requires |items| == |xs|
    requires forall i :: 0 <= i < |xs| ==> items[i] == JStr(xs[i])
    ensures JoinJs(items, sep) == Join(xs, sep)
  {
    if |items| > 1 {
      JoinJsStrings(items[1..], xs[1..], sep);
    }
  }

  /** The array of a list of strings. */
  function StrArray(xs: seq<string>): (j: Json)
    ensures j.JArr? && |j.items| == |xs|
    ensures forall i :: 0 <= i < |xs| ==> j.items[i] == JStr(xs[i])
  {
    JArr(seq(|xs|, i requires 0 <= i < |xs| => JStr(xs[i])))
  }
}
