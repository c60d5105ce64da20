/**
 * The public API of the Lightroom client (src/lightroom/LrClient.js): each
 * wrapper turns a JavaScript call into the message name and parameter list it
 * hands to sendMessage, and register builds its parameter list.
 */
module LrApi {
  import opened Wrappers
  import opened Json

  /** An invocation of an API method of the client, as the dispatcher issues it. */
  datatype ApiCall = ApiCall(name: string, args: seq<Value>)

  /** The `message` and `params` a wrapper passes on to sendMessage. */
  datatype Outgoing = Outgoing(message: string, params: seq<Value>)

  /**
   * Wrappers that send their own name as the message, with their first
   * `arity` arguments as params (no arguments means the default `[]`).
   */
  const PlainWrappers: map<string, nat> := map[
    "setValue" := 2, "getValue" := 1, "increment" := 2, "decrement" := 2,
    "startTracking" := 1, "stopTracking" := 0,
    "showView" := 1, "nextPhoto" := 0, "previousPhoto" := 0,
    "zoomIn" := 0, "zoomOut" := 0, "toggleZoom" := 0,
    "flagPick" := 0, "flagReject" := 0, "flagUnflag" := 0,
    "setAutoTone" := 0, "toggleBlackAndWhite" := 0,
    "resetToDefault" := 1, "resetAllDevelopAdjustments" := 0,
    "applyPreset" := 1, "getPresetIDs" := 0,
    "getParameterNames" := 0, "getRange" := 1
  ]

  /** Methods of the client that are not part of its public API. */
  const InternalMethods: set<string> := {
    "connect", "sendMessage", "register", "handleMessage", "disconnect",
    "loadClientGUID", "saveClientGUID"
  }

  /** The registry of public API methods a `command` action may name. */
  predicate IsApiMethod(name: string): (r: bool)
    ensures name in PlainWrappers || name == "setRating" || name == "setColorLabel" ==> r
    ensures name in InternalMethods || name == "" ==> !r
  {
    name in PlainWrappers || name == "setRating" || name == "setColorLabel"
  }

  /** A JavaScript parameter: missing arguments are `undefined`. */
  function Arg(args: seq<Value>, i: nat): Value {
    if i < |args| then args[i] else Undefined
  }

  function Args(args: seq<Value>, n: nat): (r: seq<Value>)
    ensures |r| == n && forall i :: 0 <= i < n ==> r[i] == Arg(args, i)
  {
    seq(n, i requires 0 <= i < n => Arg(args, i))
  }

  predicate IsLowerAscii(c: char) {
    'a' <= c <= 'z'
  }

  function UpperAscii(c: char): char {
    if IsLowerAscii(c) then (c as int - 32) as char else c
  }

  /** `s.charAt(0).toUpperCase() + s.slice(1)` over ASCII letters. */
  function Capitalize(s: string): (r: string)
    ensures |r| == |s|
    ensures s != [] ==> r[1..] == s[1..] && !IsLowerAscii(r[0])
    ensures s != [] && IsLowerAscii(s[0]) ==> r[0] as int == s[0] as int - 32 && 'A' <= r[0] <= 'Z'
    ensures s != [] && !IsLowerAscii(s[0]) ==> r[0] == s[0]
  {
    if s == [] then [] else [UpperAscii(s[0])] + s[1..]
  }

  function RatingMessage(text: string): string {
    "rating" + text
  }

  function ColorLabelMessage(color: string): string {
    "colorLabel" + Capitalize(color)
  }

  /**
   * The frame content a wrapper hands to sendMessage; None when the wrapper
   * raises before sending (setColorLabel of a non-string) or the method is not
   * part of the API.
   */
  function Request(c: ApiCall): (r: Option<Outgoing>)
    ensures r.Some? ==> IsApiMethod(c.name)
    ensures c.name in PlainWrappers ==> r.Some? && r.value.message == c.name
    ensures c.name in PlainWrappers ==> r.value.params == Args(c.args, PlainWrappers[c.name])
    ensures c.name == "setColorLabel" ==> (r.Some? <==> Arg(c.args, 0).Str?)
  {
    if c.name in PlainWrappers then
      Some(Outgoing(c.name, Args(c.args, PlainWrappers[c.name])))
    else if c.name == "setRating" then
      match ValueText(Arg(c.args, 0))
      case Some(t) => Some(Outgoing(RatingMessage(t), []))
      case None => None
    else if c.name == "setColorLabel" then
      match Arg(c.args, 0)
      case Str(color) => Some(Outgoing(ColorLabelMessage(color), []))
      case _ => None
    else
      None
  }

  /** Reads the rating back from a message name, as the remote side does. */
  function RatingOf(message: string): Option<int> {
    if |message| >= 6 && message[..6] == "rating" then ParseInt(message[6..]) else None
  }

  /** setRating(n) sends exactly `rating` followed by the decimal text of n, and nothing else. */
  lemma RatingRequestRoundTrip(n: int, rest: seq<Value>)
    requires -MaxSafeInteger <= n <= MaxSafeInteger
    ensures Request(ApiCall("setRating", [Num(n as real)] + rest)).Some?
    ensures var out := Request(ApiCall("setRating", [Num(n as real)] + rest)).value;
            out.params == [] && RatingOf(out.message) == Some(n)
  {
    IntegerValueText(n);
    IntTextRoundTrip(n);
    assert RatingMessage(IntText(n))[6..] == IntText(n);
  }

  /** Reads the colour back from a message name. */
  function ColorOf(message: string): Option<string> {
    if |message| >= 10 && message[..10] == "colorLabel" then Some(message[10..]) else None
  }

  /**
   * setColorLabel(color) sends `colorLabel` followed by the colour with its
   * first letter in upper case and every other character as given.
   */
  lemma ColorLabelRoundTrip(color: string)
    requires color != []
    ensures var m := ColorLabelMessage(color);
            |m| == 10 + |color| && m[..10] == "colorLabel" && m[11..] == color[1..]
    ensures IsLowerAscii(color[0]) ==> ColorLabelMessage(color)[10] as int == color[0] as int - 32
    ensures !IsLowerAscii(color[0]) ==> ColorLabelMessage(color)[10] == color[0]
  {
    var m := ColorLabelMessage(color);
    assert m[10..] == Capitalize(color);
    assert m[11..] == Capitalize(color)[1..];
  }

  lemma PrefixCancels(p: string, x: string, y: string)
    requires p + x == p + y
    ensures x == y
  {
    assert x == (p + x)[|p|..];
    assert y == (p + y)[|p|..];
  }

  /** Capitalize loses nothing on strings that start with a lower-case letter. */
  lemma CapitalizeInjective(a: string, b: string)
    requires a != [] && IsLowerAscii(a[0]) && b != [] && IsLowerAscii(b[0])
    requires Capitalize(a) == Capitalize(b)
    ensures a == b
  {
    var ca, cb := Capitalize(a), Capitalize(b);
    assert a[1..] == ca[1..] == cb[1..] == b[1..];
    assert a[0] as int == ca[0] as int + 32 == cb[0] as int + 32 == b[0] as int;
    assert a == [a[0]] + a[1..] && b == [b[0]] + b[1..];
  }

  /** Colours written in lower case, as profiles do, give distinct message names. */
  lemma ColorLabelDistinguishes(a: string, b: string)
    requires a != [] && IsLowerAscii(a[0])
    requires b != [] && IsLowerAscii(b[0])
    ensures ColorLabelMessage(a) == ColorLabelMessage(b) <==> a == b
  {
    if ColorLabelMessage(a) == ColorLabelMessage(b) {
      PrefixCancels("colorLabel", Capitalize(a), Capitalize(b));
      CapitalizeInjective(a, b);
    }
  }

  /** `[appName, appVersion]`, followed by the stored client GUID when it is truthy. */
  function RegisterParams(appName: string, appVersion: string, clientGUID: Option<string>): (r: seq<Value>)
    ensures |r| >= 2 && r[0] == Str(appName) && r[1] == Str(appVersion)
    ensures |r| == (if clientGUID.Some? && clientGUID.value != "" then 3 else 2)
  {
    [Str(appName), Str(appVersion)] + (if clientGUID.Some? && clientGUID.value != "" then [Str(clientGUID.value)] else [])
  }

  /** The identity the remote side reads from register's params. */
  function RegisteredIdentity(params: seq<Value>): Option<string> {
    if |params| == 3 && params[2].Str? then Some(params[2].s) else None
  }

  lemma RegisterIdentityRoundTrip(appName: string, appVersion: string, clientGUID: Option<string>)
    ensures RegisteredIdentity(RegisterParams(appName, appVersion, clientGUID))
         == if clientGUID.Some? && clientGUID.value != "" then clientGUID else None
  {
  }
}
