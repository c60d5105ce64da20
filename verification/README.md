# lightroom-midi in Dafny

A model of the two cores of a bridge that turns MIDI control-surface input into calls on
Lightroom's WebSocket controller API.

- **Dispatcher and action executor** (`src/profiles/ProfileManager.js`). An incoming MIDI event
  is matched against the active profile's ordered mappings. The first matching mapping's action
  becomes calls on the Lightroom client. The manager holds the loaded profiles, the active
  profile and the tracking parameter. Modules: `Midi` (patterns), `Scale` (value transformation),
  `Actions` (the calls each action makes), `Profiles` (first-match search, the insertion-ordered
  profile table) and `Manager` (class `ProfileManager`).
- **Request correlator and client state** (`src/lightroom/LrClient.js`). Each request gets a
  fresh id and stays pending until its response or its 10-second timer removes it, whichever
  comes first. Modules: `LrApi` (what each API wrapper sends, the register parameters),
  `Correlator` (the pending/settled table as functions, with a lemma over any sequence of
  events) and `Client` (class `LrClient`, whose methods keep its fields equal to those functions).
- `Json` holds the JavaScript values that flow through both cores, with their truthiness and
  the decimal text of integers. `Wrappers` holds `Option`/`Result`. `Scenarios` works through five
  concrete cases: a rating pad, an exposure knob, an unanswered request, a switch to a
  missing profile and an unknown command.

Calls the manager makes on the client are recorded in a ghost log of `ApiCall(name, args)`.
`LrApi.Request` maps each call to the message and parameters the wrapper sends. A rejected
`startTracking` changes control flow (setValue is then skipped), so whether it resolves is an
input to event processing. The outcome of every other call is swallowed, so it changes nothing.
The socket's events (open, message, close), the request timer and the reconnect timer are
explicit methods of `LrClient`. The uuid generator is a fresh-id parameter. The identity file
is a ghost field together with a `writable` flag.

The model follows what the code does, including where it departs from what one might expect:
- `disconnect()` does not suppress the reconnect that the following `close` event schedules.
  Every `close` schedules another reconnect, so reconnects can overlap (`OnClose`, `Disconnect`).
- The client has no method that registers or unregisters an observer. `observers` starts empty
  and only the routing of a push to a registered id is modelled.
- The connection is a single `connected` flag, not a four-state machine. `connected` is set to
  true before `register` is sent. It is reset when `register` fails, when the socket closes, and
  directly by `disconnect()` when a socket exists.
- A profile switch clears the tracking parameter only when it is truthy. A falsy value such as
  `""` is kept, and no `stopTracking` is sent for it.

## Model

| member | source | states |
|---|---|---|
| `Json.IntTextRoundTrip` | src/lightroom/LrClient.js:240-242 | the decimal text of an integer (as in `` `rating${n}` ``) is read back as the same integer, so no two ratings share a message |
| `Json.ValueText` | src/lightroom/LrClient.js:240-242 | a string is interpolated as itself; a safe integer's text reads back as that integer; text is missing exactly for a number that is not a safe integer |
| `LrApi.Request` | src/lightroom/LrClient.js:186-301 | only a public API method sends a frame; a plain wrapper sends its own name with its leading arguments as params (`undefined` for a missing one); setColorLabel sends exactly when its argument is a string, and otherwise throws before sending |
| `LrApi.IsApiMethod` | src/profiles/ProfileManager.js:242 | every public wrapper is in the registry; the client's internal methods and the empty name are not |
| `LrApi.Capitalize` | src/lightroom/LrClient.js:259-261 | same length; a lower-case first letter becomes its upper-case letter, any other first character is kept, and the rest is unchanged |
| `LrApi.RatingRequestRoundTrip` | src/lightroom/LrClient.js:240-242 | for a safe integer n, setRating(n) sends no params, and its message is `rating` followed by a text that reads back as n |
| `LrApi.ColorLabelRoundTrip` | src/lightroom/LrClient.js:259-261 | the message is `colorLabel`, then the colour's first character upper-cased when it is a lower-case letter and kept otherwise, then the rest of the colour unchanged |
| `LrApi.ColorLabelDistinguishes` | src/lightroom/LrClient.js:259-261 | two colours written in lower case give the same message iff they are the same colour |
| `LrApi.RegisterParams` | src/lightroom/LrClient.js:167-171 | the params start with `[appName, appVersion]`; a third one follows iff the stored GUID is truthy |
| `LrApi.RegisterIdentityRoundTrip` | src/lightroom/LrClient.js:167-173 | the remote side reads back exactly the stored GUID when it is truthy, and no identity otherwise |
| `Correlator.Issue` | src/lightroom/LrClient.js:141-152 | sending adds exactly one new id to the pending set and records no outcome |
| `Correlator.Settle` | src/lightroom/LrClient.js:112-121 | an id still pending is removed and its outcome recorded; an unknown or already removed id changes nothing |
| `Correlator.ResponseTarget` | src/lightroom/LrClient.js:112 | a frame answers a request iff its `requestId` is a non-empty string, and then it answers that id |
| `Correlator.SettlementOf` | src/lightroom/LrClient.js:116-120 | resolves iff `success` is truthy, with the frame's `response`; otherwise rejects with the frame's `error` when truthy, else 'Request failed', so a rejection's error is always truthy |
| `Correlator.ObserverTarget` | src/lightroom/LrClient.js:124 | a frame is pushed to an observer iff its `observerId` is a non-empty string, and then to that id |
| `Correlator.Receive` | src/lightroom/LrClient.js:107-131 | a frame answering a pending id removes it and records its outcome; any other frame, malformed or unknown, leaves the table unchanged |
| `Correlator.Expire` | src/lightroom/LrClient.js:155-160 | the timer removes exactly that id, keeping every other pending id, and rejects with 'Request timeout', only if the id is still pending; the issued ids are unchanged |
| `Correlator.LateResponseIgnored` | src/lightroom/LrClient.js:112-121 | a response arriving after its timer fired has no effect |
| `Correlator.LateTimeoutIgnored` | src/lightroom/LrClient.js:155-160 | a timer firing after the response arrived has no effect |
| `Correlator.SettlesAtMostOnce` | src/lightroom/LrClient.js:107-162 | over any sequence of sends, frames and timers, every issued id is pending or settled and never both, and a recorded outcome never changes |
| `Correlator.UnansweredRequestTimesOut` | src/lightroom/LrClient.js:149-160 | a request that gets no response ends rejected with the timeout error, and the pending set is as it was before the send |
| `Client.OrDefault` | src/lightroom/LrClient.js:18-19 | an empty or missing option falls back to the default name or version |
| `Client.LrClient.constructor` | src/lightroom/LrClient.js:15-28 | the client starts disconnected, with empty tables and the GUID the identity file held |
| `Client.LrClient.SendMessage` | src/lightroom/LrClient.js:136-162 | when not connected it fails with NotConnected and changes nothing; otherwise the fresh id becomes pending and the envelope `{requestId, object: null, message, params}` is written |
| `Client.LrClient.Invoke` | src/lightroom/LrClient.js:186-301 | an API call sends the frame that `Request` gives; a wrapper that throws sends nothing; the connection, socket, GUID, observers and logs are unchanged |
| `Client.LrClient.HandleMessage` | src/lightroom/LrClient.js:107-131 | the table becomes `Receive` of the old one; a push to a registered observer reaches its callback, and the observer stays registered |
| `Client.LrClient.Timeout` | src/lightroom/LrClient.js:155-160 | the table becomes `Expire` of the old one |
| `Client.LrClient.SaveClientGUID` | src/lightroom/LrClient.js:48-56 | the stored and in-memory GUID change only when the write succeeds; the client stays consistent |
| `Client.LrClient.Connect` | src/lightroom/LrClient.js:61-66 | a socket is opened; nothing else changes |
| `Client.LrClient.OnOpen` | src/lightroom/LrClient.js:68-72 | connected is set, then register is sent with `RegisterParams` of the stored GUID |
| `Client.LrClient.OnRegisterSettled` | src/lightroom/LrClient.js:68-80 | on success a truthy string `clientGUID` in the response is saved and the connection change reported; on failure `connected` is reset |
| `Client.LrClient.OnClose` | src/lightroom/LrClient.js:91-100 | disconnected, the change is reported, and one more reconnect is scheduled |
| `Client.LrClient.OnReconnectTimer` | src/lightroom/LrClient.js:95-99 | a scheduled reconnect fires and opens a socket |
| `Client.LrClient.Disconnect` | src/lightroom/LrClient.js:307-312 | connected is cleared if there is a socket; pending requests and scheduled reconnects are untouched |
| `Midi.Matches` | src/profiles/ProfileManager.js:139-165 | a match needs equal types and agreement on every key the pattern sets for its type; a pattern that sets only its type matches every event of that type |
| `Midi.AgreeingPatternMatches` | src/profiles/ProfileManager.js:139-165 | a pattern matches every event of its type that agrees with each field the pattern sets |
| `Midi.KindMustAgree` | src/profiles/ProfileManager.js:139-142 | a pattern never matches an event of another type |
| `Midi.ChannelRule` | src/profiles/ProfileManager.js:144-148 | a pattern without a channel matches on every channel; one with a channel rejects every other channel |
| `Midi.NoteRule` | src/profiles/ProfileManager.js:150-155 | a note pattern with a note rejects events with another note, or none |
| `Midi.ControllerRule` | src/profiles/ProfileManager.js:157-162 | a cc pattern with a controller rejects events with another controller, or none |
| `Midi.KeysIgnoredOutsideTheirType` | src/profiles/ProfileManager.js:150-164 | `note` matters only for noteon/noteoff patterns and `controller` only for cc patterns |
| `Midi.WildcardWidens` | src/profiles/ProfileManager.js:139-165 | leaving a field out of a matching pattern keeps it matching |
| `Scale.RawValue` | src/profiles/ProfileManager.js:218 | the value if it is non-zero, else the velocity, else 0, so a value of 0 falls through to the velocity |
| `Scale.Rescale` | src/profiles/ProfileManager.js:222-226 | the output lies on the line through (midiMin, lrMin) and (midiMax, lrMax): its offset from lrMin times the source width equals the input's offset from midiMin times the target width |
| `Scale.RescaleEndpoints` | src/profiles/ProfileManager.js:222-226 | midiMin maps exactly to lrMin and midiMax exactly to lrMax |
| `Scale.RescaleInvertible` | src/profiles/ProfileManager.js:222-226 | with lrMin different from lrMax the inverse map recovers the input |
| `Scale.RescaleIncreasing` | src/profiles/ProfileManager.js:222-226 | over increasing ranges a larger input gives a larger output |
| `Scale.RescaleUnclamped` | src/profiles/ProfileManager.js:221-226 | no clamping: an input above midiMax gives an output above lrMax |
| `Scale.ScaledValue` | src/profiles/ProfileManager.js:217-227 | without a scale the raw value is sent as is; with one, the result is null iff midiMax equals midiMin (defaults 127 and 0) or a target bound is missing, and otherwise the rescale of the raw value over those bounds |
| `Scale.DefaultRangeEndpoints` | src/profiles/ProfileManager.js:222 | with the default MIDI range 0..127, 0 is sent as lrMin and 127 as lrMax |
| `Actions.CommandCalls` | src/profiles/ProfileManager.js:241-247 | a command makes one call iff its name is in the API registry, with the action's params or `[]` |
| `Actions.FlagCalls` | src/profiles/ProfileManager.js:252-264 | a flag makes one call iff it is pick, reject or unflag, and then it is flagPick, flagReject or flagUnflag respectively |
| `Actions.Perform` | src/profiles/ProfileManager.js:170-212 | an action makes at most two calls, all on API methods, and only setValue can change the tracking parameter, and only to its own parameter |
| `Actions.SetValueOrder` | src/profiles/ProfileManager.js:229-235 | startTracking comes first and is issued iff tracking is requested and the tracked parameter differs; setValue with the scaled value is the last call; the parameter is then tracked |
| `Actions.IncrementDecrementForward` | src/profiles/ProfileManager.js:185-191 | increment and decrement call the client method of the same name with `[parameter, amount]`, whose frame carries exactly those params |
| `Actions.TrackedSetValueSends` | src/lightroom/LrClient.js:186-204 | the setValue frame carries `[parameter, value]` and the startTracking frame `[parameter]` |
| `Actions.FailedStartTracking` | src/profiles/ProfileManager.js:229-233 | if startTracking rejects, no setValue is sent and the tracking parameter is unchanged |
| `Actions.TrackingStartsOnce` | src/profiles/ProfileManager.js:229-235 | after a tracked setValue, the next event for the same action sends only setValue |
| `Actions.SilentActions` | src/profiles/ProfileManager.js:180-211 | an action makes no call iff it is an unknown type, an unregistered command or an unknown flag |
| `Actions.RatingActionSends` | src/profiles/ProfileManager.js:197-199 | a rating action for a safe integer n sends one frame whose message reads back as rating n |
| `Actions.ColorLabelActionSends` | src/profiles/ProfileManager.js:205-207 | a colour label action sends `colorLabel` and the capitalised colour |
| `Profiles.FindMapping` | src/profiles/ProfileManager.js:124-134 | the result is the first mapping in declared order whose pattern matches; there is none iff no mapping matches |
| `Profiles.FindMappingAppend` | src/profiles/ProfileManager.js:127-133 | searching a concatenation searches the first list, then the second |
| `Profiles.UnmatchedSuffixIrrelevant` | src/profiles/ProfileManager.js:127-131 | mappings after a match never change the result |
| `Profiles.ProfileTable.Set` | src/profiles/ProfileManager.js:47 | setting a name replaces its entry and appends the name only when it is new, preserving a consistent table |
| `Profiles.LoadAll` | src/profiles/ProfileManager.js:40-52 | loading keeps the table consistent (distinct names, in insertion order, exactly the keys) |
| `Profiles.LoadAllKeys` | src/profiles/ProfileManager.js:40-52 | loading adds exactly the names of the files that parsed |
| `Profiles.LoadAllLastWins` | src/profiles/ProfileManager.js:40-52 | a name's entry is the content of its last file that parsed |
| `Profiles.LoadAllKeepsOrder` | src/profiles/ProfileManager.js:47 | names already loaded keep their positions |
| `Profiles.FirstLoadedFirst` | src/profiles/ProfileManager.js:54-58 | in a fresh table, the first name is the first file that parsed |
| `Profiles.EmptyBeforeFirst` | src/profiles/ProfileManager.js:40-52 | files that all fail to parse load nothing |
| `Manager.StopCalls` | src/profiles/ProfileManager.js:74-78 | exactly one stopTracking is issued iff the tracking parameter is truthy, and none otherwise |
| `Manager.ProfileManager.constructor` | src/profiles/ProfileManager.js:13-19 | no profiles, no active profile, no tracking parameter, no calls |
| `Manager.ProfileManager.SwitchProfile` | src/profiles/ProfileManager.js:64-81 | an unknown name returns false and changes nothing; a known one returns true and becomes active; a set tracking parameter is stopped by one stopTracking and cleared; profiles are untouched |
| `Manager.ProfileManager.LoadProfiles` | src/profiles/ProfileManager.js:24-59 | the table becomes `LoadAll` of the files; when none was active and the table is not empty, the first name in insertion order becomes active |
| `Manager.ProfileManager.ExecuteSetValue` | src/profiles/ProfileManager.js:217-236 | the calls and tracking parameter are those of `Perform` for setValue |
| `Manager.ProfileManager.ExecuteCommand` | src/profiles/ProfileManager.js:241-247 | only the registry call of `CommandCalls` is made; nothing else changes |
| `Manager.ProfileManager.ExecuteFlag` | src/profiles/ProfileManager.js:252-264 | only the call of `FlagCalls` is made; nothing else changes |
| `Manager.ProfileManager.ExecuteMapping` | src/profiles/ProfileManager.js:170-212 | a switchProfile action behaves as SwitchProfile; any other action as `Perform` |
| `Manager.ProfileManager.ProcessMidiMessage` | src/profiles/ProfileManager.js:103-119 | with no active profile or no matching mapping nothing changes and no call is made; otherwise the first matching mapping is executed |
| `Scenarios.RatingPad` | src/profiles/ProfileManager.js:197-199 | a note-0 pad mapped to rating 5 finds its mapping and sends `rating5` |
| `Scenarios.ExposureKnob` | src/profiles/ProfileManager.js:217-227 | a knob scaled onto [-5, 5] sends -5 at value 0 and 5 at value 127 |

## Left out

- The WebSocket transport, JSON parsing and serialisation, the uuid generator, timers and console
  logging are not modelled directly. They appear as explicit events, inbound frames, fresh-id
  parameters and step methods.
- Request ids are assumed never to repeat, as uuid v4 ids are in practice. The model does not
  cover the weaker case of an id reused once its entry is gone. There, a stale timer would
  remove the newer request's entry.
- The promise returned by `connect()`, and the socket's 'error' event, which only rejects that
  promise, are not modelled. Host and port are not modelled either.
- Reading the identity file, and its `trim()`, are not modelled. The constructor takes the
  stored GUID as read. Reading the profile directory is not modelled: the `.json` filter,
  base-name extraction, and creating a missing directory (which loads nothing) are replaced by
  a sequence of named files, each with its parsed content or a parse failure.
- Floating point: the rescale is over real numbers, with no rounding. A non-finite result
  (`midiMax == midiMin`, or a missing `lrMin`/`lrMax`) is represented by `null`, which is what the
  request serialises it to. NaN, infinities and -0 are not values of the model.
- The reflective `this.lrClient[command]` lookup is an explicit registry of the public API
  methods. The source would also accept internal methods (`connect`, `sendMessage`, `register`,
  `handleMessage`, `disconnect`, `loadClientGUID`, `saveClientGUID`), the `onConnectionChange` callback property and inherited object
  members. The model treats those as unknown commands.
- Concurrency: each event's processing is one sequential step. Interleaving of events during
  an awaited call is not modelled.
- Malformed profiles are not modelled: a mapping without a `midi` object (which throws outside
  the `try`), non-array command `params`, a `null` pattern field, and a profile file that is not
  an object.
- `LrApi.Capitalize`: upper-cases ASCII letters only. JavaScript's `toUpperCase` also maps
  other letters.
- `LrApi.Request`: does not render into the message name of `setRating` a number that is not a
  safe integer. Such a number reaches it through a `rating` action (`rating: 2.5`) or a `command`
  action. The model sends nothing there, while the source sends `rating` followed by the number's
  JavaScript text.
- `Json.ValueText`: gives no text for a fraction or for an integer beyond
  `Number.MAX_SAFE_INTEGER` in size. JavaScript prints such integers with the shortest digits that
  read back as the same double, and from 1e21 in exponent form; this rendering is not modelled.
- `LrApi.RatingRequestRoundTrip` and `Actions.RatingActionSends`: are stated for safe integers
  only. Beyond them JavaScript's text does not read back as the same integer.
- `Correlator.SettlementOf`: the `success` field is read through truthiness. A frame's `error`
  is kept as a value, and the text `new Error` makes of it is not modelled.
- `listProfiles` and `getCurrentProfile` only read fields and are not modelled.
- The device-handling wrapper, the command-line entry point and the tools are not part of this
  model.
