/**
 * The actions a mapping can trigger and the client API calls each one makes
 * (executeMapping, executeSetValue, executeCommand and executeFlag in
 * src/profiles/ProfileManager.js). The effect is a function of the action,
 * the event, the current tracking parameter and whether an awaited
 * startTracking resolves.
 */
module Actions {
  import opened Wrappers
  import opened Json
  import opened LrApi
  import opened Midi
  import opened Scale

  /** The actions handled by the `switch (action.type)` that call the client. */
  datatype LrAction =
    | SetValue(parameter: Value, scale: Option<ScaleRange>, tracking: bool)
    | Increment(parameter: Value, amount: Value)
    | Decrement(parameter: Value, amount: Value)
    | Command(command: Value, params: Option<seq<Value>>)
    | Rating(rating: Value)
    | Flag(flag: Value)
    | ColorLabel(color: Value)
    | UnknownType(typeName: string)

  /** A mapping's `action`: a profile switch is handled before the switch over Lightroom actions. */
  datatype Action = SwitchProfile(profile: Value) | Lightroom(act: LrAction)

  /** The calls an action issued, and the tracking parameter afterwards. */
  datatype Effect = Effect(calls: seq<ApiCall>, tracking: Value)

  function SetValueCall(parameter: Value, value: Value): ApiCall {
    ApiCall("setValue", [parameter, value])
  }

  function StartTrackingCall(parameter: Value): ApiCall {
    ApiCall("startTracking", [parameter])
  }

  const StopTrackingCall := ApiCall("stopTracking", [])

  /** executeCommand: only a name in the API registry is called, with `params` (default `[]`). */
  function CommandCalls(command: Value, params: Option<seq<Value>>): (r: seq<ApiCall>)
    ensures |r| <= 1
    ensures r == [] <==> !(command.Str? && IsApiMethod(command.s))
    ensures r != [] ==> r[0].name == command.s && r[0].args == params.GetOr([])
  {
    if command.Str? && IsApiMethod(command.s) then [ApiCall(command.s, params.GetOr([]))] else []
  }

  /** executeFlag: `pick`, `reject` and `unflag`; any other flag does nothing. */
  function FlagCalls(flag: Value): (r: seq<ApiCall>)
    ensures |r| <= 1
    ensures r == [] <==> flag !in {Str("pick"), Str("reject"), Str("unflag")}
    ensures flag == Str("pick") ==> r == [ApiCall("flagPick", [])]
    ensures flag == Str("reject") ==> r == [ApiCall("flagReject", [])]
    ensures flag == Str("unflag") ==> r == [ApiCall("flagUnflag", [])]
  {
    if flag == Str("pick") then [ApiCall("flagPick", [])]
    else if flag == Str("reject") then [ApiCall("flagReject", [])]
    else if flag == Str("unflag") then [ApiCall("flagUnflag", [])]
    else []
  }

  /**
   * The effect of a Lightroom action. For setValue with tracking requested
   * and a different tracking parameter, startTracking is awaited first; if it
   * rejects, the error ends the action before setValue.
   */
  function Perform(a: LrAction, e: MidiEvent, tracking: Value, trackingStarts: bool): (r: Effect)
    ensures |r.calls| <= 2
    ensures forall c :: c in r.calls ==> IsApiMethod(c.name)
    ensures r.tracking != tracking ==> a.SetValue? && r.tracking == a.parameter
  {
    match a
    case SetValue(parameter, scale, track) =>
      var value := ScaledValue(RawValue(e), scale);
      if track && tracking != parameter then
        if trackingStarts then Effect([StartTrackingCall(parameter), SetValueCall(parameter, value)], parameter)
        else Effect([StartTrackingCall(parameter)], tracking)
      else
        Effect([SetValueCall(parameter, value)], tracking)
    case Increment(parameter, amount) => Effect([ApiCall("increment", [parameter, amount])], tracking)
    case Decrement(parameter, amount) => Effect([ApiCall("decrement", [parameter, amount])], tracking)
    case Command(command, params) => Effect(CommandCalls(command, params), tracking)
    case Rating(rating) => Effect([ApiCall("setRating", [rating])], tracking)
    case Flag(flag) => Effect(FlagCalls(flag), tracking)
    case ColorLabel(color) => Effect([ApiCall("setColorLabel", [color])], tracking)
    case UnknownType(_) => Effect([], tracking)
  }

  /**
   * setValue: startTracking is issued exactly when tracking is requested and
   * the tracking parameter differs; once it resolves, setValue with the
   * scaled value is the last call and the parameter is being tracked.
   */
  lemma SetValueOrder(parameter: Value, scale: Option<ScaleRange>, track: bool, e: MidiEvent, tracking: Value)
    ensures var r := Perform(SetValue(parameter, scale, track), e, tracking, true);
            && r.calls != []
            && r.calls[|r.calls| - 1] == SetValueCall(parameter, ScaledValue(RawValue(e), scale))
            && (StartTrackingCall(parameter) in r.calls <==> track && tracking != parameter)
            && (StartTrackingCall(parameter) in r.calls ==> r.calls[0] == StartTrackingCall(parameter))
            && (track ==> r.tracking == parameter)
            && (!track ==> r.tracking == tracking)
  {
  }

  /** increment and decrement forward `[parameter, amount]` to the client method of the same name. */
  lemma IncrementDecrementForward(parameter: Value, amount: Value, e: MidiEvent, tracking: Value, starts: bool)
    ensures Perform(Increment(parameter, amount), e, tracking, starts) == Effect([ApiCall("increment", [parameter, amount])], tracking)
    ensures Perform(Decrement(parameter, amount), e, tracking, starts) == Effect([ApiCall("decrement", [parameter, amount])], tracking)
    ensures Request(ApiCall("increment", [parameter, amount])) == Some(Outgoing("increment", [parameter, amount]))
    ensures Request(ApiCall("decrement", [parameter, amount])) == Some(Outgoing("decrement", [parameter, amount]))
  {
    assert PlainWrappers["increment"] == 2 && PlainWrappers["decrement"] == 2;
    assert Args([parameter, amount], 2) == [parameter, amount];
  }

  /** The frames of setValue and startTracking carry their arguments as params. */
  lemma TrackedSetValueSends(parameter: Value, value: Value)
    ensures Request(SetValueCall(parameter, value)) == Some(Outgoing("setValue", [parameter, value]))
    ensures Request(StartTrackingCall(parameter)) == Some(Outgoing("startTracking", [parameter]))
  {
    assert PlainWrappers["setValue"] == 2 && PlainWrappers["startTracking"] == 1;
    assert Args([parameter, value], 2) == [parameter, value];
    assert Args([parameter], 1) == [parameter];
  }

  /** A rejected startTracking leaves the tracking parameter as it was and sends no setValue. */
  lemma FailedStartTracking(parameter: Value, scale: Option<ScaleRange>, e: MidiEvent, tracking: Value)
    requires tracking != parameter
    ensures var r := Perform(SetValue(parameter, scale, true), e, tracking, false);
            r.calls == [StartTrackingCall(parameter)] && r.tracking == tracking
  {
  }

  /**
   * Once a tracked parameter has started, further events for it send only
   * setValue: startTracking is not repeated.
   */
  lemma TrackingStartsOnce(a: LrAction, e1: MidiEvent, e2: MidiEvent, tracking: Value, starts: bool)
    requires a.SetValue? && a.tracking
    ensures var first := Perform(a, e1, tracking, true);
            Perform(a, e2, first.tracking, starts).calls == [SetValueCall(a.parameter, ScaledValue(RawValue(e2), a.scale))]
  {
  }

  /**
   * An action issues no call exactly when it is an unknown action type, a
   * command outside the registry, or a flag other than pick, reject and unflag.
   */
  lemma SilentActions(a: LrAction, e: MidiEvent, tracking: Value, starts: bool)
    ensures Perform(a, e, tracking, starts).calls == [] <==>
              || a.UnknownType?
              || (a.Command? && !(a.command.Str? && IsApiMethod(a.command.s)))
              || (a.Flag? && a.flag !in {Str("pick"), Str("reject"), Str("unflag")})
  {
  }

  /** A rating action, as sent by the client: `rating` followed by the number. */
  lemma RatingActionSends(n: int, e: MidiEvent, tracking: Value, starts: bool)
    requires -MaxSafeInteger <= n <= MaxSafeInteger
    ensures var r := Perform(Rating(Num(n as real)), e, tracking, starts);
            |r.calls| == 1 && Request(r.calls[0]).Some?
            && Request(r.calls[0]).value.params == []
            && RatingOf(Request(r.calls[0]).value.message) == Some(n)
  {
    RatingRequestRoundTrip(n, []);
  }

  /** A colour label action sends `colorLabel` and the capitalised colour. */
  lemma ColorLabelActionSends(color: string, e: MidiEvent, tracking: Value, starts: bool)
    ensures var r := Perform(ColorLabel(Str(color)), e, tracking, starts);
            |r.calls| == 1 && Request(r.calls[0]) == Some(Outgoing("colorLabel" + Capitalize(color), []))
  {
  }
}
