/**
 * The front end's `extractErrorMessage`: the text shown for a failed request,
 * looked for in the places an HTTP error response or a server error body keeps
 * it, with fixed fallbacks.
 */
module ErrorUtil {
  import opened Wrappers

  /** A JavaScript value: an object is its own properties in key order. */
  datatype JsValue =
    | Undefined
    | Null
    | Bool(b: bool)
    | Num(n: real)
    | Str(s: string)
    | Obj(props: seq<(string, JsValue)>)

  /** JavaScript truthiness (the model's numbers have no NaN). */
  predicate Truthy(x: JsValue) {
    match x
    case Undefined => false
    case Null => false
    case Bool(b) => b
    case Num(n) => n != 0.0
    case Str(s) => s != ""
    case Obj(_) => true
  }

  /** `x?.key`: a property of an object, undefined for anything else or a missing key. */
  function Prop(x: JsValue, key: string): JsValue {
    match x
    case Obj(props) => Lookup(props, key)
    case _ => Undefined
  }

  function Lookup(props: seq<(string, JsValue)>, key: string): JsValue {
    if props == [] then Undefined
    else if props[0].0 == key then props[0].1
    else Lookup(props[1..], key)
  }

  /** `a ?? b`. */
  function Coalesce(a: JsValue, b: JsValue): JsValue {
    if a.Undefined? || a.Null? then b else a
  }

  const NoErrorText: string := "Something went wrong. Please try again."
  const UnprintableText: string := "Request failed. Please try again."

  /** The error body an HTTP error carries in `error`, or the error itself. */
  function Payload(err: JsValue): JsValue {
    Coalesce(Prop(err, "error"), err)
  }

  /**
   * `extractErrorMessage`. `stringify` stands for `JSON.stringify`, None when it
   * throws (a cyclic object, a BigInt).
   */
  function ExtractErrorMessage(err: JsValue, stringify: JsValue -> Option<string>): string
  {
    if !Truthy(err) then NoErrorText
    else
      var e := Payload(err);
      if e.Str? then e.s
      else if Prop(e, "error").Str? then Prop(e, "error").s
      else if Prop(e, "message").Str? then Prop(e, "message").s
      else if Prop(err, "message").Str? then Prop(err, "message").s
      else
        match stringify(e)
        case Some(text) => text
        case None => UnprintableText
  }

  /** The places a message is taken from, in the order they are tried. */
  function Candidates(err: JsValue): seq<JsValue> {
    var e := Payload(err);
    [e, Prop(e, "error"), Prop(e, "message"), Prop(err, "message")]
  }

  /** The first string among the candidate places, if any. */
  function FirstString(xs: seq<JsValue>): (r: Option<string>)
    ensures r.Some? <==> exists k :: 0 <= k < |xs| && xs[k].Str?
    ensures r.Some? ==> exists k :: 0 <= k < |xs| && xs[k] == Str(r.value)
                                    && forall j :: 0 <= j < k ==> !xs[j].Str?
  {
    if xs == [] then None
    else if xs[0].Str? then Some(xs[0].s)
    else
      FirstString(xs[1..])
  }

  /**
   * A falsy error gets the fixed text. The message of any other error is the first
   * string among its candidate places; failing that, the stringified error body, or
   * the fixed text when stringifying throws. So a message is always produced.
   */
  lemma MessageIsFirstString(err: JsValue, stringify: JsValue -> Option<string>)
    ensures !Truthy(err) ==> ExtractErrorMessage(err, stringify) == NoErrorText
    ensures Truthy(err) ==>
      var c := FirstString(Candidates(err));
      ExtractErrorMessage(err, stringify) ==
        if c.Some? then c.value
        else match stringify(Payload(err)) case Some(text) => text case None => UnprintableText
  {
    var c := Candidates(err);
    assert c[1..] == [c[1], c[2], c[3]];
    assert c[1..][1..] == [c[2], c[3]];
    assert c[1..][1..][1..] == [c[3]];
    assert c[1..][1..][1..][1..] == [];
  }

  /** A string error body is shown verbatim, whatever the error says besides. */
  lemma ServerTextWins(props: seq<(string, JsValue)>, text: string, stringify: JsValue -> Option<string>)
    requires Lookup(props, "error") == Str(text)
    ensures ExtractErrorMessage(Obj(props), stringify) == text
  {
  }

  /** An `{ error: … }` server body inside an HTTP error beats the HTTP error's own message. */
  lemma NestedErrorBeatsMessage(inner: seq<(string, JsValue)>, text: string, status: string,
                                stringify: JsValue -> Option<string>)
    requires Lookup(inner, "error") == Str(text)
    ensures ExtractErrorMessage(Obj([("error", Obj(inner)), ("message", Str(status))]), stringify) == text
  {
  }
}
