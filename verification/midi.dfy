/**
 * Control-surface events and the patterns of profile mappings
 * (matchesMidiMessage in src/profiles/ProfileManager.js).
 */
module Midi {
  import opened Wrappers

  /**
   * An event as the MIDI handler delivers it: `note`/`velocity` for note
   * events, `controller`/`value` for control changes, `value` for pitch
   * bend; absent fields are None.
   */
  datatype MidiEvent = MidiEvent(
    kind: string,
    channel: int,
    note: Option<int>,
    controller: Option<int>,
    velocity: Option<int>,
    value: Option<int>)

  /** The `midi` part of a mapping; None is a field the profile leaves out (a wildcard). */
  datatype Pattern = Pattern(kind: string, channel: Option<int>, note: Option<int>, controller: Option<int>)

  predicate IsNoteKind(kind: string) {
    kind == "noteon" || kind == "noteoff"
  }

  /**
   * matchesMidiMessage(pattern, event): the types agree and every key the
   * pattern sets for its type agrees; a pattern that sets only its type
   * matches every event of that type.
   */
  predicate Matches(p: Pattern, e: MidiEvent): (r: bool)
    ensures r ==> p.kind == e.kind && (p.channel.Some? ==> p.channel.value == e.channel)
    ensures r && IsNoteKind(p.kind) && p.note.Some? ==> e.note == p.note
    ensures r && p.kind == "cc" && p.controller.Some? ==> e.controller == p.controller
    ensures p.kind == e.kind && p.channel.None? && p.note.None? && p.controller.None? ==> r
  {
    && p.kind == e.kind
    && (p.channel.None? || p.channel.value == e.channel)
    && (IsNoteKind(p.kind) && p.note.Some? ==> e.note == p.note)
    && (p.kind == "cc" && p.controller.Some? ==> e.controller == p.controller)
  }

  /**
   * The converse of Matches' own contract: a pattern matches every event of
   * its type that agrees with each field the pattern sets.
   */
  lemma AgreeingPatternMatches(p: Pattern, e: MidiEvent)
    requires p.kind == e.kind
    requires p.channel.Some? ==> p.channel.value == e.channel
    requires p.note.Some? ==> e.note == p.note
    requires p.controller.Some? ==> e.controller == p.controller
    ensures Matches(p, e)
  {
  }

  /** A pattern never matches an event of another type. */
  lemma KindMustAgree(p: Pattern, e: MidiEvent)
    requires p.kind != e.kind
    ensures !Matches(p, e)
  {
  }

  /** A pattern without a channel matches on every channel; one with a channel only on that channel. */
  lemma ChannelRule(p: Pattern, e: MidiEvent, c: int)
    ensures p.channel.None? ==> (Matches(p, e) <==> Matches(p, e.(channel := c)))
    ensures p.channel.Some? && p.channel.value != e.channel ==> !Matches(p, e)
  {
  }

  /**
   * `note` is compared only for note patterns and `controller` only for cc
   * patterns; for every other type both are ignored.
   */
  lemma KeysIgnoredOutsideTheirType(p: Pattern, e: MidiEvent, note: Option<int>, controller: Option<int>)
    ensures !IsNoteKind(p.kind) ==> (Matches(p, e) <==> Matches(p.(note := note), e))
    ensures p.kind != "cc" ==> (Matches(p, e) <==> Matches(p.(controller := controller), e))
  {
  }

  /** A note pattern with a note set rejects events with a different (or no) note. */
  lemma NoteRule(p: Pattern, e: MidiEvent)
    requires IsNoteKind(p.kind) && p.note.Some? && e.note != p.note
    ensures !Matches(p, e)
  {
  }

  /** A cc pattern with a controller set rejects events with a different (or no) controller. */
  lemma ControllerRule(p: Pattern, e: MidiEvent)
    requires p.kind == "cc" && p.controller.Some? && e.controller != p.controller
    ensures !Matches(p, e)
  {
  }

  /** Leaving a field out only widens what a pattern matches. */
  lemma WildcardWidens(p: Pattern, e: MidiEvent)
    requires Matches(p, e)
    ensures Matches(p.(channel := None), e)
    ensures Matches(p.(note := None), e)
    ensures Matches(p.(controller := None), e)
  {
  }
}
