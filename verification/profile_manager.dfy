/**
 * The profile manager object (src/profiles/ProfileManager.js): the loaded
 * profiles, the active profile and the tracking parameter, updated in place
 * as events are processed. Calls on the Lightroom client are recorded in a
 * log; whether an awaited startTracking resolves is an input.
 */
module Manager {
  import opened Wrappers
  import opened Json
  import opened LrApi
  import opened Midi
  import opened Actions
  import opened Profiles

  /** stopTracking is issued on a switch only while a (truthy) tracking parameter is set. */
  function StopCalls(tracking: Value): (r: seq<ApiCall>)
    ensures r == [StopTrackingCall] <==> Truthy(tracking)
    ensures r == [] <==> !Truthy(tracking)
  {
    if Truthy(tracking) then [StopTrackingCall] else []
  }

  class ProfileManager {
    var profiles: ProfileTable
    var currentProfile: Option<Profile>
    var currentProfileName: Option<string>
    var trackingParameter: Value
    ghost var calls: seq<ApiCall>     // every call made on the Lightroom client, in order

    /**
     * The active profile is one of the loaded names, and nothing is tracked
     * before a profile is active.
     */
    ghost predicate Valid()
      reads this
    {
      && profiles.Valid()
      && (currentProfile.Some? <==> currentProfileName.Some?)
      && (currentProfileName.Some? ==> currentProfileName.value in profiles.entries)
      && (currentProfile.None? ==> trackingParameter == Null)
    }

    constructor ()
      ensures Valid()
      ensures profiles == EmptyTable && currentProfile == None && currentProfileName == None
      ensures trackingParameter == Null && calls == []
    {
      profiles := EmptyTable;
      currentProfile := None;
      currentProfileName := None;
      trackingParameter := Null;
      calls := [];
    }

    /** What switchProfile(name) does, `ok` being its return value. */
    twostate predicate Switched(name: Value, ok: bool)
      reads this
    {
      && ok == (name.Str? && name.s in old(profiles.entries))
      && profiles == old(profiles)
      && (ok ==>
            && currentProfile == Some(old(profiles.entries)[name.s])
            && currentProfileName == Some(name.s)
            && trackingParameter == (if Truthy(old(trackingParameter)) then Null else old(trackingParameter))
            && calls == old(calls) + StopCalls(old(trackingParameter)))
      && (!ok ==>
            && currentProfile == old(currentProfile)
            && currentProfileName == old(currentProfileName)
            && trackingParameter == old(trackingParameter)
            && calls == old(calls))
    }

    /**
     * switchProfile: an unknown name changes nothing and returns false; a
     * known one becomes active, and a set (truthy) tracking parameter is
     * stopped (one stopTracking call, its failure ignored) and cleared.
     */
    method SwitchProfile(name: Value) returns (ok: bool)
      requires Valid()
      modifies this
      ensures Valid()
      ensures Switched(name, ok)
    {
      if !(name.Str? && name.s in profiles.entries) {
        return false;
      }
      currentProfile := Some(profiles.entries[name.s]);
      currentProfileName := Some(name.s);
      if Truthy(trackingParameter) {
        calls := calls + [StopTrackingCall];
        trackingParameter := Null;
      }
      ok := true;
    }

    /**
     * loadProfiles: every file that parsed is set under its name, then, if
     * there are profiles and none is active, the first name in insertion
     * order is switched to.
     */
    method LoadProfiles(files: seq<ProfileFile>)
      requires Valid()
      modifies this
      ensures Valid()
      ensures profiles == LoadAll(old(profiles), files)
      ensures old(currentProfile).None? && profiles.order != [] ==>
                && currentProfileName == Some(profiles.order[0])
                && currentProfile == Some(profiles.entries[profiles.order[0]])
      ensures !(old(currentProfile).None? && profiles.order != []) ==>
                currentProfileName == old(currentProfileName) && currentProfile == old(currentProfile)
      ensures trackingParameter == old(trackingParameter) && calls == old(calls)
    {
      var i := 0;
      while i < |files|
        invariant 0 <= i <= |files|
        invariant profiles == LoadAll(old(profiles), files[..i])
        invariant Valid()
        invariant currentProfile == old(currentProfile) && currentProfileName == old(currentProfileName)
        invariant trackingParameter == old(trackingParameter) && calls == old(calls)
      {
        assert files[..i + 1][..i] == files[..i];
        if files[i].parsed.Some? {
          profiles := profiles.Set(files[i].name, files[i].parsed.value);
        }
        i := i + 1;
      }
      assert files[..i] == files;
      if |profiles.order| > 0 && currentProfile.None? {
        assert profiles.order[0] in profiles.entries;
        var _ := SwitchProfile(Str(profiles.order[0]));
      }
    }

    /** Only `newCalls` were made; nothing else changed. */
    twostate predicate Called(newCalls: seq<ApiCall>)
      reads this
    {
      && calls == old(calls) + newCalls
      && trackingParameter == old(trackingParameter)
      && profiles == old(profiles)
      && currentProfile == old(currentProfile)
      && currentProfileName == old(currentProfileName)
    }

    /** What executing a Lightroom action does to the fields. */
    twostate predicate Performed(a: LrAction, e: MidiEvent, trackingStarts: bool)
      reads this
    {
      var effect := Perform(a, e, old(trackingParameter), trackingStarts);
      && calls == old(calls) + effect.calls
      && trackingParameter == effect.tracking
      && profiles == old(profiles)
      && currentProfile == old(currentProfile)
      && currentProfileName == old(currentProfileName)
    }

    /**
     * executeSetValue: startTracking first when tracking is requested for a
     * parameter other than the tracked one (a rejection ends the action),
     * then setValue with the scaled value.
     */
    method ExecuteSetValue(parameter: Value, scale: Option<Scale.ScaleRange>, track: bool, e: MidiEvent, trackingStarts: bool)
      requires Valid() && currentProfile.Some?
      modifies this
      ensures Valid()
      ensures Performed(SetValue(parameter, scale, track), e, trackingStarts)
    {
      var value := Scale.ScaledValue(Scale.RawValue(e), scale);
      if track && trackingParameter != parameter {
        calls := calls + [StartTrackingCall(parameter)];
        if !trackingStarts {
          return;
        }
        trackingParameter := parameter;
      }
      calls := calls + [SetValueCall(parameter, value)];
    }

    /** executeCommand: a registered name is called with its params; any other name only logs a warning. */
    method ExecuteCommand(command: Value, params: Option<seq<Value>>)
      requires Valid()
      modifies this
      ensures Valid()
      ensures Called(CommandCalls(command, params))
    {
      if command.Str? && IsApiMethod(command.s) {
        calls := calls + [ApiCall(command.s, params.GetOr([]))];
      }
    }

    /** executeFlag. */
    method ExecuteFlag(flag: Value)
      requires Valid()
      modifies this
      ensures Valid()
      ensures Called(FlagCalls(flag))
    {
      if flag == Str("pick") {
        calls := calls + [ApiCall("flagPick", [])];
      } else if flag == Str("reject") {
        calls := calls + [ApiCall("flagReject", [])];
      } else if flag == Str("unflag") {
        calls := calls + [ApiCall("flagUnflag", [])];
      }
    }

    /** executeMapping: a profile switch, or one of the Lightroom actions. */
    method ExecuteMapping(m: Mapping, e: MidiEvent, trackingStarts: bool)
      requires Valid() && currentProfile.Some?
      modifies this
      ensures Valid()
      ensures m.action.SwitchProfile? ==> Switched(m.action.profile, m.action.profile.Str? && m.action.profile.s in old(profiles.entries))
      ensures m.action.Lightroom? ==> Performed(m.action.act, e, trackingStarts)
    {
      match m.action
      case SwitchProfile(name) =>
        var _ := SwitchProfile(name);
      case Lightroom(a) =>
        match a
        case SetValue(parameter, scale, track) =>
          ExecuteSetValue(parameter, scale, track, e, trackingStarts);
        case Increment(parameter, amount) =>
          calls := calls + [ApiCall("increment", [parameter, amount])];
        case Decrement(parameter, amount) =>
          calls := calls + [ApiCall("decrement", [parameter, amount])];
        case Command(command, params) =>
          ExecuteCommand(command, params);
        case Rating(rating) =>
          calls := calls + [ApiCall("setRating", [rating])];
        case Flag(flag) =>
          ExecuteFlag(flag);
        case ColorLabel(color) =>
          calls := calls + [ApiCall("setColorLabel", [color])];
        case UnknownType(_) =>
    }

    /**
     * processMidiMessage: with no active profile, or no matching mapping,
     * nothing happens; otherwise the first matching mapping is executed and
     * any error it raises is caught.
     */
    method ProcessMidiMessage(e: MidiEvent, trackingStarts: bool)
      requires Valid()
      modifies this
      ensures Valid()
      ensures old(currentProfile).None? ==> unchanged(this)
      ensures old(currentProfile).Some? && FindMapping(old(currentProfile).value.mappings, e).None? ==> unchanged(this)
      ensures old(currentProfile).Some? && FindMapping(old(currentProfile).value.mappings, e).Some? ==>
                var m := FindMapping(old(currentProfile).value.mappings, e).value;
                && (m.action.SwitchProfile? ==> Switched(m.action.profile, m.action.profile.Str? && m.action.profile.s in old(profiles.entries)))
                && (m.action.Lightroom? ==> Performed(m.action.act, e, trackingStarts))
    {
      if currentProfile.None? {
        return;
      }
      var mapping := FindMapping(currentProfile.value.mappings, e);
      if mapping.None? {
        return;
      }
      ExecuteMapping(mapping.value, e, trackingStarts);
    }
  }
}
