/**
 * The hotkey volume listener of src/keybind.rs.
 *
 * `keybind_listen` polls the keyboard forever. Each poll looks at the pressed
 * keys, applies at most one volume rule to its mutable locals `volume`,
 * `initial_volume` and `muted`, and sends the new volume on the volume channel
 * followed by the string "volume" on the command channel.
 *
 * Volumes are `real`s: the f32 arithmetic of the source is taken to be exact,
 * while its `round` (half away from zero) is written out as `RoundHalfAway`.
 * The two channels become one append-only log of `Message`s, so that the order
 * between them is kept. Whether each channel's receiver is still alive at a poll
 * is an input (`Receivers`): a send to a dropped receiver makes `?` return an
 * error, which ends the listener.
 */
module Keybind {

  /** The keys the listener distinguishes; every other key code is `Other`. */
  datatype Key = Equal | Minus | Grave | Other(code: string)

  /** One message as it leaves the listener, tagged with its channel. */
  datatype Message =
    | VolumeValue(level: real)   // sent on the volume channel
    | Command(name: string)      // sent on the command channel

  /** The name of the command that announces a new volume. */
  const VolumeCommand: string := "volume"

  /** Whether each channel's receiving end is still alive at a given poll. */
  datatype Receivers = Receivers(volumeOpen: bool, commandOpen: bool)

  /** The tracked locals of `keybind_listen`. */
  datatype KeyState = KeyState(volume: real, initialVolume: real, muted: bool)

  /** The match arm that one poll takes. */
  datatype Rule = Raise | Lower | ToggleMute | NoRule

  /** One poll of the keyboard: the pressed keys and the receivers' liveness. */
  datatype Poll = Poll(keys: seq<Key>, receivers: Receivers)

  /** What a sequence of polls leaves behind: the locals, the delivered
      messages and whether the listener is still running. */
  datatype Outcome = Outcome(state: KeyState, sent: seq<Message>, running: bool)

  // ---------------------------------------------------------------------------
  // Arithmetic of the source's f32 expressions
  // ---------------------------------------------------------------------------

  function Min(x: real, y: real): real { if x <= y then x else y }

  function Max(x: real, y: real): real { if x >= y then x else y }

  /** Rust's `round`: the nearest integer, halfway cases away from zero. */
  function RoundHalfAway(x: real): (n: int)
    ensures 0.0 <= x ==> n as real - 0.5 <= x < n as real + 0.5
    ensures x < 0.0 ==> n as real - 0.5 < x <= n as real + 0.5
  {
    if 0.0 <= x then (x + 0.5).Floor else -((-x + 0.5).Floor)
  }

  /** A volume that is a whole number of percent. */
  ghost predicate WholePercent(v: real) {
    (v * 100.0).Floor as real == v * 100.0
  }

  /** The volume after `=`: five points up, capped at 100, rounded to a whole percent. */
  function Raised(v: real): (r: real)
    ensures r <= 1.0
    ensures 0.0 <= v ==> 0.05 <= r
    ensures WholePercent(r)
    ensures -0.005 <= r - Min(v + 0.05, 1.0) <= 0.005
  {
    var n := RoundHalfAway(Min(v * 100.0 + 5.0, 100.0));
    n as real / 100.0
  }

  /** The volume after `-`: five points down, floored at 0, rounded to a whole percent. */
  function Lowered(v: real): (r: real)
    ensures 0.0 <= r
    ensures v <= 1.0 ==> r <= 0.95
    ensures WholePercent(r)
    ensures -0.005 <= r - Max(v - 0.05, 0.0) <= 0.005
  {
    var n := RoundHalfAway(Max(v * 100.0 - 5.0, 0.0));
    n as real / 100.0
  }

  // ---------------------------------------------------------------------------
  // One poll, as a function of the old locals
  // ---------------------------------------------------------------------------

  /** The arm of the `match` that the pressed keys select, in match order. */
  function Select(keys: seq<Key>): (r: Rule)
    ensures r == Raise <==> Equal in keys
    ensures r == NoRule <==> Equal !in keys && Minus !in keys && Grave !in keys
  {
    if Equal in keys then Raise
    else if Minus in keys then Lower
    else if Grave in keys then ToggleMute
    else NoRule
  }

  /** The locals after a poll whose sends all succeed. */
  function Next(s: KeyState, keys: seq<Key>): (r: KeyState)
    ensures Select(keys) == NoRule ==> r == s
    ensures r.muted <==> (Select(keys) == ToggleMute && !s.muted) || (Select(keys) == NoRule && s.muted)
    ensures r.initialVolume != s.initialVolume ==>
      Select(keys) == ToggleMute && !s.muted && r.initialVolume == s.volume
  {
    match Select(keys)
    case Raise => KeyState(Raised(s.volume), s.initialVolume, false)
    case Lower => KeyState(Lowered(s.volume), s.initialVolume, false)
    case ToggleMute =>
      if s.muted then KeyState(s.initialVolume, s.initialVolume, false)
      else KeyState(0.0, s.volume, true)
    case NoRule => s
  }

  /** The two messages an applied rule sends, in order. */
  function Announce(level: real): seq<Message>
  {
    [VolumeValue(level), Command(VolumeCommand)]
  }

  /** The messages one poll delivers, and whether the listener goes on.
      The volume is assigned before the sends and `muted` after them, so a
      failed send leaves the new volume (and saved volume) but the old flag. */
  function PollOnce(s: KeyState, keys: seq<Key>, rx: Receivers): (o: Outcome)
    ensures o.running <==> Select(keys) == NoRule || (rx.volumeOpen && rx.commandOpen)
    ensures o.running ==> o.state == Next(s, keys)
    ensures !o.running ==> o.state == Next(s, keys).(muted := s.muted)
    ensures Select(keys) == NoRule ==> o.sent == []
    ensures Select(keys) != NoRule && o.running ==> o.sent == Announce(Next(s, keys).volume)
    ensures !o.running ==> o.sent == (if rx.volumeOpen then [VolumeValue(Next(s, keys).volume)] else [])
    ensures |o.sent| <= 2 && o.sent <= Announce(Next(s, keys).volume)
  {
    var n := Next(s, keys);
    if Select(keys) == NoRule then Outcome(s, [], true)
    else if !rx.volumeOpen then Outcome(n.(muted := s.muted), [], false)
    else if !rx.commandOpen then Outcome(n.(muted := s.muted), [VolumeValue(n.volume)], false)
    else Outcome(n, Announce(n.volume), true)
  }

  /** An outcome with `sent` delivered before its own messages. */
  function After(sent: seq<Message>, o: Outcome): Outcome
  {
    o.(sent := sent + o.sent)
  }

  /** A run of polls from state `s`; the listener stops at the first failed send. */
  function Trace(s: KeyState, polls: seq<Poll>): (r: Outcome)
    ensures polls == [] ==> r == Outcome(s, [], true)
    ensures |r.sent| <= 2 * |polls|
    ensures r.running ==> |r.sent| % 2 == 0
    decreases |polls|
  {
    if polls == [] then Outcome(s, [], true)
    else
      var o := PollOnce(s, polls[0].keys, polls[0].receivers);
      if !o.running then o
      else
        After(o.sent, Trace(o.state, polls[1..]))
  }

  // ---------------------------------------------------------------------------
  // Invariants
  // ---------------------------------------------------------------------------

  /** Both the tracked and the saved volume lie in [0, 1]. */
  predicate InRange(s: KeyState) {
    0.0 <= s.volume <= 1.0 && 0.0 <= s.initialVolume <= 1.0
  }

  /** While muted, the tracked volume is silence. */
  predicate MutedIsSilent(s: KeyState) {
    s.muted ==> s.volume == 0.0
  }

  /** Every volume on the volume channel lies in [0, 1]. */
  predicate LevelsInRange(sent: seq<Message>) {
    forall i :: 0 <= i < |sent| && sent[i].VolumeValue? ==> 0.0 <= sent[i].level <= 1.0
  }

  /** Every command is "volume" and comes right after a value on the volume
      channel, so the receiver finds the value before the signal. */
  predicate ValueBeforeSignal(sent: seq<Message>) {
    forall i :: 0 <= i < |sent| && sent[i].Command? ==>
      sent[i].name == VolumeCommand && 0 < i && sent[i - 1].VolumeValue?
  }

  // ---------------------------------------------------------------------------
  // Lemmas
  // ---------------------------------------------------------------------------

  /** Rounding an integer gives it back. */
  lemma RoundWhole(n: int)
    ensures RoundHalfAway(n as real) == n
  {
  }

  /** On a whole percent p, `=` gives exactly min(p + 5, 100) percent. */
  lemma RaiseWholePercent(p: int)
    ensures Raised(p as real / 100.0) == (if p + 5 <= 100 then p + 5 else 100) as real / 100.0
  {
    var m := if p + 5 <= 100 then p + 5 else 100;
    assert Min(p as real / 100.0 * 100.0 + 5.0, 100.0) == m as real;
    RoundWhole(m);
  }

  /** On a whole percent p, `-` gives exactly max(p - 5, 0) percent. */
  lemma LowerWholePercent(p: int)
    ensures Lowered(p as real / 100.0) == (if p - 5 >= 0 then p - 5 else 0) as real / 100.0
  {
    var m := if p - 5 >= 0 then p - 5 else 0;
    assert Max(p as real / 100.0 * 100.0 - 5.0, 0.0) == m as real;
    RoundWhole(m);
  }

  /** At 98%, `=` yields exactly 100%, not 103%. */
  lemma RaiseSaturates()
    ensures Raised(0.98) == 1.0
  {
    RaiseWholePercent(98);
  }

  /** The match arms are tried in order: `=` over `-` over the grave key. */
  lemma KeyPrecedence(keys: seq<Key>)
    ensures Equal in keys ==> Select(keys) == Raise
    ensures Equal !in keys && Minus in keys ==> Select(keys) == Lower
    ensures Equal !in keys && Minus !in keys && Grave in keys ==> Select(keys) == ToggleMute
    ensures Select(keys) == NoRule <==> Equal !in keys && Minus !in keys && Grave !in keys
  {
  }

  /** A poll with none of the three keys changes nothing and sends nothing. */
  lemma IdlePollIsSilent(s: KeyState, keys: seq<Key>, rx: Receivers)
    requires Equal !in keys && Minus !in keys && Grave !in keys
    ensures PollOnce(s, keys, rx) == Outcome(s, [], true)
  {
  }

  /** `=` and `-` always clear `muted` and never touch the saved volume. */
  lemma StepClearsMute(s: KeyState, keys: seq<Key>)
    requires Select(keys) == Raise || Select(keys) == Lower
    ensures !Next(s, keys).muted
    ensures Next(s, keys).initialVolume == s.initialVolume
    ensures WholePercent(Next(s, keys).volume)
  {
  }

  /** Muting while unmuted saves the volume, silences, and sets the flag. */
  lemma MuteSavesVolume(s: KeyState, keys: seq<Key>)
    requires Select(keys) == ToggleMute && !s.muted
    ensures Next(s, keys) == KeyState(0.0, s.volume, true)
  {
  }

  /** Mute then unmute, with nothing in between, restores the pre-mute volume
      and leaves the listener unmuted. */
  lemma MuteUnmuteRoundTrip(s: KeyState, mute: seq<Key>, unmute: seq<Key>)
    requires Select(mute) == ToggleMute && Select(unmute) == ToggleMute
    requires !s.muted
    ensures Next(Next(s, mute), unmute).volume == s.volume
    ensures !Next(Next(s, mute), unmute).muted
  {
  }

  /** One poll keeps both volumes in [0, 1], and keeps a muted listener silent. */
  lemma NextKeepsInvariants(s: KeyState, keys: seq<Key>)
    requires InRange(s)
    ensures InRange(Next(s, keys))
    ensures MutedIsSilent(s) ==> MutedIsSilent(Next(s, keys))
  {
  }

  /** Any run of polls keeps both volumes in [0, 1], and every volume it sends
      lies in [0, 1] and precedes its "volume" signal. */
  lemma {:induction false} TraceKeepsInvariants(s: KeyState, polls: seq<Poll>)
    requires InRange(s)
    ensures InRange(Trace(s, polls).state)
    ensures LevelsInRange(Trace(s, polls).sent)
    ensures ValueBeforeSignal(Trace(s, polls).sent)
    decreases |polls|
  {
    if polls != [] {
      var o := PollOnce(s, polls[0].keys, polls[0].receivers);
      NextKeepsInvariants(s, polls[0].keys);
      AnnouncePrefixOrdered(o.sent, Next(s, polls[0].keys).volume);
      if o.running {
        TraceKeepsInvariants(o.state, polls[1..]);
        ConcatKeepsMessageOrder(o.sent, Trace(o.state, polls[1..]).sent);
      }
    }
  }

  /** Any prefix of one in-range announcement satisfies both message properties. */
  lemma AnnouncePrefixOrdered(sent: seq<Message>, level: real)
    requires sent <= Announce(level)
    requires 0.0 <= level <= 1.0
    ensures LevelsInRange(sent) && ValueBeforeSignal(sent)
  {
  }

  /** Both message properties survive concatenation of announcement blocks. */
  lemma ConcatKeepsMessageOrder(a: seq<Message>, b: seq<Message>)
    requires LevelsInRange(a) && ValueBeforeSignal(a)
    requires LevelsInRange(b) && ValueBeforeSignal(b)
    ensures LevelsInRange(a + b) && ValueBeforeSignal(a + b)
  {
  }

  // ---------------------------------------------------------------------------
  // The listener as an object
  // ---------------------------------------------------------------------------

  /** `keybind_listen` with its locals as fields and its channels as a log. */
  class Listener {
    var volume: real
    var initialVolume: real
    var muted: bool
    /** Everything delivered so far, on both channels, in send order. */
    var log: seq<Message>
    /** False once a send has failed and `keybind_listen` has returned. */
    var running: bool

    function State(): KeyState
      reads this
    {
      KeyState(volume, initialVolume, muted)
    }

    /** The invariant the listener keeps when started in range. A failed send
        can leave `muted` beside a new volume, but then the listener has ended. */
    predicate Valid()
      reads this
    {
      InRange(State()) && (running ==> MutedIsSilent(State()))
        && LevelsInRange(log) && ValueBeforeSignal(log)
    }

    /** Entry of `keybind_listen`: the saved volume starts as the given one,
        unmuted, nothing sent yet. */
    constructor (start: real)
      ensures State() == KeyState(start, start, false)
      ensures log == [] && running
      ensures 0.0 <= start <= 1.0 ==> Valid()
    {
      volume, initialVolume, muted := start, start, false;
      log, running := [], true;
    }

    /** One iteration of the `loop`: read the keys, apply the first matching
        rule and send the new volume, then the "volume" command. */
    method Step(keys: seq<Key>, rx: Receivers) returns (ok: bool)
      requires running
      modifies this
      ensures ok == PollOnce(old(State()), keys, rx).running
      ensures running == ok
      ensures State() == PollOnce(old(State()), keys, rx).state
      ensures log == old(log) + PollOnce(old(State()), keys, rx).sent
      ensures old(Valid()) ==> Valid()
    {
      ghost var s := State();
      ghost var n := Next(s, keys);
      // Each arm first assigns the volume locals, then sends the new volume and
      // the "volume" command; its `muted` assignment follows the sends.
      var applied, mutedAfter := true, false;
      if Equal in keys {
        assert Select(keys) == Raise;
        volume := Raised(volume);
      } else if Minus in keys {
        assert Select(keys) == Lower;
        volume := Lowered(volume);
      } else if Grave in keys {
        assert Select(keys) == ToggleMute;
        if muted {
          volume := initialVolume;
        } else {
          initialVolume := volume;
          volume := 0.0;
          mutedAfter := true;
        }
      } else {
        applied := false;
      }
      ok := true;
      if applied {
        ok := Send(VolumeValue(volume), rx);
        if ok { ok := Send(Command(VolumeCommand), rx); }
        if ok { muted := mutedAfter; }
      }
      running := ok;
      assert applied <==> Select(keys) != NoRule;
      assert applied ==> volume == n.volume && initialVolume == n.initialVolume;
      assert ok ==> muted == n.muted;
      if old(Valid()) {
        PollOnceKeepsInvariants(s, keys, rx, old(log));
      }
    }

    /** A send on one channel: delivered when its receiver is alive, otherwise
        the error that `?` propagates. */
    method Send(m: Message, rx: Receivers) returns (ok: bool)
      modifies this`log
      ensures ok == (if m.VolumeValue? then rx.volumeOpen else rx.commandOpen)
      ensures log == old(log) + (if ok then [m] else [])
    {
      ok := if m.VolumeValue? then rx.volumeOpen else rx.commandOpen;
      if ok { log := log + [m]; }
    }

    /** The listener's `loop` over a finite run of polls; it stops at the
        first failed send. */
    method Run(polls: seq<Poll>)
      requires running
      modifies this
      ensures State() == Trace(old(State()), polls).state
      ensures log == old(log) + Trace(old(State()), polls).sent
      ensures running == Trace(old(State()), polls).running
      ensures old(Valid()) ==> Valid()
    {
      var i := 0;
      ghost var s0 := State();
      ghost var log0 := log;
      while i < |polls| && running
        invariant 0 <= i <= |polls|
        invariant |log0| <= |log| && log[..|log0|] == log0
        invariant running ==> Trace(s0, polls) == After(log[|log0|..], Trace(State(), polls[i..]))
        invariant !running ==> Trace(s0, polls) == Outcome(State(), log[|log0|..], false)
        invariant old(Valid()) ==> Valid()
        decreases |polls| - i
      {
        ghost var before := State();
        ghost var done := log[|log0|..];
        var ok := Step(polls[i].keys, polls[i].receivers);
        ghost var o := PollOnce(before, polls[i].keys, polls[i].receivers);
        assert polls[i..][1..] == polls[i + 1..];
        assert log[|log0|..] == done + o.sent;
        if ok {
          assert Trace(before, polls[i..]) == After(o.sent, Trace(State(), polls[i + 1..]));
          AfterAfter(done, o.sent, Trace(State(), polls[i + 1..]));
        } else {
          assert Trace(before, polls[i..]) == o;
        }
        i := i + 1;
      }
      if running {
        assert polls[i..] == [];
      }
    }
  }

  /** One poll, from a listener that keeps its invariants, keeps them. */
  lemma PollOnceKeepsInvariants(s: KeyState, keys: seq<Key>, rx: Receivers, log: seq<Message>)
    requires InRange(s)
    requires LevelsInRange(log) && ValueBeforeSignal(log)
    ensures InRange(PollOnce(s, keys, rx).state)
    ensures MutedIsSilent(s) && PollOnce(s, keys, rx).running ==> MutedIsSilent(PollOnce(s, keys, rx).state)
    ensures LevelsInRange(log + PollOnce(s, keys, rx).sent)
    ensures ValueBeforeSignal(log + PollOnce(s, keys, rx).sent)
  {
  }

  /** Delivering two blocks in turn is delivering their concatenation. */
  lemma AfterAfter(a: seq<Message>, b: seq<Message>, o: Outcome)
    ensures After(a, After(b, o)) == After(a + b, o)
  {
  }
}
