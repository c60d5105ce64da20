/**
 * Five concrete cases stated over the model: a rating pad, an exposure knob,
 * an unanswered request, a switch to a missing profile and an unknown command.
 */
module Scenarios {
  import opened Wrappers
  import opened Json
  import opened LrApi
  import opened Correlator
  import opened Client
  import opened Midi
  import opened Scale
  import opened Actions
  import opened Profiles
  import opened Manager

  /** A pad mapped to a five-star rating sends `rating5`. */
  lemma RatingPad()
    ensures var rule := Mapping(Pattern("noteon", None, Some(0), None), Lightroom(Rating(Num(5.0))));
            var press := MidiEvent("noteon", 0, Some(0), None, Some(100), None);
            && FindMapping([rule], press) == Some(rule)
            && Perform(rule.action.act, press, Null, true).calls == [ApiCall("setRating", [Num(5.0)])]
            && Request(ApiCall("setRating", [Num(5.0)])) == Some(Outgoing("rating5", []))
  {
    IntegerValueText(5);
    assert NatText(5) == "5";
    assert "setRating" !in PlainWrappers;
    assert RatingMessage("5") == "rating5";
  }

  /** A knob scaled onto [-5, 5] sends -5 at 0 and 5 at 127. */
  lemma ExposureKnob(value: int)
    requires value == 0 || value == 127
    ensures var scale := Some(ScaleRange(Some(0.0), Some(127.0), Some(-5.0), Some(5.0)));
            var knob := MidiEvent("cc", 0, None, Some(10), None, Some(value));
            Perform(SetValue(Str("Exposure"), scale, false), knob, Null, true).calls
              == [SetValueCall(Str("Exposure"), Num(if value == 0 then -5.0 else 5.0))]
  {
    RescaleEndpoints(0.0, 127.0, -5.0, 5.0);
  }

  /** A request that is never answered times out and leaves the table empty. */
  method UnansweredRequest(id: RequestId)
  {
    var client := new LrClient(None, None, None);
    client.Connect();
    var registered := client.OnOpen("register-id");
    client.Timeout("register-id");
    assert client.pendingRequests == {};
    if id != "register-id" {
      var r := client.SendMessage("getValue", [Str("Exposure")], id);
      assert r == Success(id) && client.pendingRequests == {id};
      client.Timeout(id);
      assert client.pendingRequests == {} && client.settled[id] == Rejected(TimeoutError);
      client.HandleMessage(Frame(Str(id), Bool(true), Num(1.0), Undefined, Undefined, Undefined));
      assert client.settled[id] == Rejected(TimeoutError);
    }
  }

  /** Switching to a missing profile fails and keeps the active one. */
  method SwitchToMissingProfile()
  {
    var manager := new ProfileManager();
    manager.LoadProfiles([ProfileFile("edit", Some(Profile([])))]);
    assert manager.currentProfileName == Some("edit");
    var ok := manager.SwitchProfile(Str("nonexistent"));
    assert !ok && manager.currentProfileName == Some("edit") && manager.calls == [];
  }

  /** An unknown command makes no call. */
  method UnknownCommand()
  {
    var manager := new ProfileManager();
    manager.ExecuteCommand(Str("doesNotExist"), None);
    assert manager.calls == [];
  }
}
