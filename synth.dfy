/**
  The note table of the MIDI synthesizer: a map from MIDI note number to the
  note currently held for it. NoteOn messages insert notes, NoteOff messages
  give a held note an end time, and an update at time `now` drops every note
  whose end time has been reached.

  Instants are integer milliseconds passed in by the caller (the source reads
  the system clock at the start of each operation). The amplitude envelope
  carried by each note is not part of this model.
*/
module Synth {
  import opened Wrappers

  /** An unsigned 8-bit MIDI field. */
  type u8 = x: int | 0 <= x < 256

  /** A point in time, in milliseconds. */
  type Instant = int

  /** How long a NoteOn with non-zero velocity lasts, in milliseconds. */
  const NoteLength: int := 500

  datatype MidiMessage =
    | NoteOn(channel: u8, note: u8, velocity: u8)
    | NoteOff(channel: u8, note: u8, velocity: u8)
  {
    function Key(): u8
    {
      match this
      case NoteOn(_, n, _) => n
      case NoteOff(_, n, _) => n
    }
  }

  datatype Note = Note(noteNumber: u8, velocity: u8, channel: u8, startTime: Instant, endTime: Option<Instant>)

  /** The note a NoteOn message starts at `now`. */
  function Started(channel: u8, note: u8, velocity: u8, now: Instant): (n: Note)
    ensures n.noteNumber == note && n.velocity == velocity && n.channel == channel && n.startTime == now
    ensures velocity > 0 <==> n.endTime == Some(now + NoteLength)
    ensures velocity == 0 <==> n.endTime == None
  {
    Note(note, velocity, channel, now, if velocity > 0 then Some(now + NoteLength) else None)
  }

  /** A note is kept by an update at `now` unless its end time is at or before `now`. */
  predicate Sounding(n: Note, now: Instant)
  {
    match n.endTime
    case None => true
    case Some(end) => now < end
  }

  /**
    The table after one message at time `now`. A NoteOn replaces whatever is
    held for its note number, whatever its channel; a NoteOff ends the held
    note only when the channels agree, and otherwise changes nothing.
  */
  function Handled(notes: map<u8, Note>, msg: MidiMessage, now: Instant): (r: map<u8, Note>)
    ensures msg.NoteOn? ==> r.Keys == notes.Keys + {msg.note}
    ensures msg.NoteOn? ==> r[msg.note] == Started(msg.channel, msg.note, msg.velocity, now)
    ensures msg.NoteOff? ==> r.Keys == notes.Keys
    ensures msg.NoteOff? && msg.note in notes && notes[msg.note].channel == msg.channel ==>
              r[msg.note] == notes[msg.note].(endTime := Some(now))
    ensures msg.NoteOff? && (msg.note !in notes || notes[msg.note].channel != msg.channel) ==> r == notes
    ensures forall k :: k in notes && k != msg.Key() ==> k in r && r[k] == notes[k]
  {
    match msg
    case NoteOn(channel, note, velocity) =>
      notes[note := Started(channel, note, velocity, now)]
    case NoteOff(channel, note, _) =>
      if note in notes && notes[note].channel == channel then
        notes[note := notes[note].(endTime := Some(now))]
      else
        notes
  }

  /** The notes an update at `now` keeps. */
  function Retained(notes: map<u8, Note>, now: Instant): (r: map<u8, Note>)
    ensures r.Keys <= notes.Keys
    ensures forall k :: k in notes ==> (k in r <==> Sounding(notes[k], now))
    ensures forall k :: k in r ==> r[k] == notes[k]
  {
    map k | k in notes && Sounding(notes[k], now) :: notes[k]
  }

  class MidiSynthesizer {
    var notes: map<u8, Note>
    var currentTime: Instant

    /** An empty table whose clock reads `now`. */
    constructor(now: Instant)
      ensures notes == map[] && currentTime == now
    {
      notes := map[];
      currentTime := now;
    }

    /** Applies one MIDI message received at `now`; the clock is left as it was. */
    method HandleMessage(msg: MidiMessage, now: Instant)
      modifies this`notes
      ensures notes == Handled(old(notes), msg, now)
    {
      match msg {
        case NoteOn(channel, note, velocity) =>
          var endTime := if velocity > 0 then Some(now + NoteLength) else None;
          notes := notes[note := Note(note, velocity, channel, now, endTime)];
        case NoteOff(channel, note, _) =>
          if note in notes {
            var held := notes[note];
            if held.channel == channel {
              notes := notes[note := held.(endTime := Some(now))];
            }
          }
      }
    }

    /** Sets the clock to `now` and drops every note that has ended by then. */
    method Update(now: Instant)
      modifies this
      ensures currentTime == now
      ensures notes == Retained(old(notes), now)
    {
      currentTime := now;
      notes := map k | k in notes && Sounding(notes[k], currentTime) :: notes[k];
    }
  }

  /** A second update at a time no earlier than the first drops what the later one alone would. */
  lemma RetainedLater(notes: map<u8, Note>, t1: Instant, t2: Instant)
    requires t1 <= t2
    ensures Retained(Retained(notes, t1), t2) == Retained(notes, t2)
  {
    var once := Retained(notes, t1);
    forall k | k in notes && Sounding(notes[k], t2)
      ensures k in once
    {
      assert Sounding(notes[k], t1);
    }
  }

  /** Updating twice at the same time drops nothing more than updating once. */
  lemma RetainedIdempotent(notes: map<u8, Note>, now: Instant)
    ensures Retained(Retained(notes, now), now) == Retained(notes, now)
  {
    RetainedLater(notes, now, now);
  }

  /**
    A NoteOff for a held note on its own channel at `t` ends it: an update at
    any time from `t` on no longer holds it.
  */
  lemma NoteOffThenUpdateDrops(notes: map<u8, Note>, channel: u8, note: u8, velocity: u8, t: Instant, later: Instant)
    requires note in notes && notes[note].channel == channel && t <= later
    ensures note !in Retained(Handled(notes, NoteOff(channel, note, velocity), t), later)
  {
    var after := Handled(notes, NoteOff(channel, note, velocity), t);
    assert !Sounding(after[note], later);
  }

  /**
    A NoteOn with non-zero velocity at `t` survives an update at `later`
    exactly when fewer than 500 ms have passed.
  */
  lemma NoteOnLifetime(notes: map<u8, Note>, channel: u8, note: u8, velocity: u8, t: Instant, later: Instant)
    requires velocity > 0
    ensures note in Retained(Handled(notes, NoteOn(channel, note, velocity), t), later) <==> later < t + NoteLength
  {
    var after := Handled(notes, NoteOn(channel, note, velocity), t);
    assert after[note].endTime == Some(t + NoteLength);
  }

  /** A NoteOn with velocity zero has no end time: no update drops it. */
  lemma SilentNoteOnPersists(notes: map<u8, Note>, channel: u8, note: u8, t: Instant, later: Instant)
    ensures note in Retained(Handled(notes, NoteOn(channel, note, 0), t), later)
  {
    var after := Handled(notes, NoteOn(channel, note, 0), t);
    assert after[note].endTime == None;
  }
}
