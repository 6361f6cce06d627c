/**
  The playback controller of a streaming session: the record of transport
  state, the reaction to each remote intent and video-surface event, and the
  player object whose handlers update that record in place.
*/
module Player {
  import opened Wrappers
  import opened Text
  import opened RemoteControl
  import Catalog

  /** How the picture is fitted to the screen. */
  datatype FitMode = Contain | Cover | Stretch

  /** The cycle order of `cycleResizeMode`. */
  const FitModes: seq<FitMode> := [Contain, Cover, Stretch]

  /** `modes.indexOf(mode)`. */
  function FitIndex(m: FitMode): (i: int)
    ensures 0 <= i < |FitModes| && FitModes[i] == m
  {
    match m
    case Contain => 0
    case Cover => 1
    case Stretch => 2
  }

  /** `cycleResizeMode`: the mode after `m` in the cycle, wrapping at the end. */
  function NextFitMode(m: FitMode): (r: FitMode)
    ensures r != m
    ensures FitIndex(r) == (FitIndex(m) + 1) % 3
  {
    FitModes[(FitIndex(m) + 1) % |FitModes|]
  }

  /** The cycle is contain, cover, stretch, and three steps bring any mode back. */
  lemma FitModeCycle(m: FitMode)
    ensures NextFitMode(Contain) == Cover && NextFitMode(Cover) == Stretch && NextFitMode(Stretch) == Contain
    ensures NextFitMode(NextFitMode(NextFitMode(m))) == m
  {
  }

  /** Seconds skipped by Left and Right. */
  const SeekStep := 10
  /** Playback rates are stored in halves: 1 is 0.5x, 2 is 1.0x, 4 is 2.0x. */
  const MinRate := 1
  const NormalRate := 2
  const MaxRate := 4
  /** The fixed label shown for any playback failure. */
  const StreamErrorMessage := "Failed to load stream. Please check your connection."

  /** The state fields of the player; times are whole seconds, the rate is in halves. */
  datatype Snapshot = Snapshot(
    isPlaying: bool,
    isMuted: bool,
    isLoading: bool,
    error: Option<string>,
    showControlsOverlay: bool,
    duration: int,
    currentTime: int,
    rate: int,
    resizeMode: FitMode,
    showEPG: bool)

  /** The state when the player is mounted. */
  function Initial(autoPlay: bool): Snapshot {
    Snapshot(autoPlay, false, true, None, true, 0, 0, NormalRate, Contain, false)
  }

  /** What the player is told about its session: the channel's stream type and whether channel changes are wired. */
  datatype Session = Session(streamType: string, hasChannelChange: bool)

  predicate IsLive(sess: Session) {
    sess.streamType == "live"
  }

  datatype Direction = Next | Prev

  /** Calls the player makes to its owner. */
  datatype Outward = Quiet | CloseSession | ChangeChannel(direction: Direction)

  /** What one event does: the new state, a call to the owner, and a seek command to the video surface. */
  datatype Reaction = Reaction(next: Snapshot, out: Outward, seek: Option<int>)

  /** Everything the player reacts to. */
  datatype Event =
    | Remote(intent: Intent)          // a handler bound through the remote-control hook
    | HardwareBack                    // the player's own hardware back listener
    | LoadStart | Load(duration: int) | VideoError(detail: string) | Progress(time: int) | End
    | TogglePlayPause | ToggleMute | ToggleControls | CycleResizeMode
    | Retry | OpenGuide | CloseGuide | CloseButton | ChannelButton(direction: Direction)
    | AutoHide                        // the five-second hide timer fires

  function Still(s: Snapshot): Reaction {
    Reaction(s, Quiet, None)
  }

  function Tell(s: Snapshot, out: Outward): Reaction {
    Reaction(s, out, None)
  }

  /** `seekTo`: command the surface and record the position. */
  function SeekTo(s: Snapshot, position: int): (r: Reaction)
    ensures r.out == Quiet && r.seek == Some(r.next.currentTime)
  {
    Reaction(s.(currentTime := position), Quiet, Some(position))
  }

  /** `onChannelChange?.(direction)`: only when the owner wired channel changes. */
  function RequestChannel(sess: Session, s: Snapshot, d: Direction): (r: Reaction)
    ensures r.next == s && r.seek == None
    ensures r.out != CloseSession && (r.out.ChangeChannel? ==> sess.hasChannelChange)
  {
    if sess.hasChannelChange then Tell(s, ChangeChannel(d)) else Still(s)
  }

  /** Back from the remote or the hardware: the guide takes it first. */
  function BackPressed(s: Snapshot): (r: Reaction)
    ensures r.seek == None && !r.out.ChangeChannel?
    ensures r.out == CloseSession <==> !s.showEPG
  {
    if s.showEPG then Still(s.(showEPG := false)) else Tell(s, CloseSession)
  }

  /** The handlers the player binds in its remote-control configuration. */
  function OnIntent(sess: Session, s: Snapshot, i: Intent): (r: Reaction)
    ensures r.next.duration == s.duration && r.next.resizeMode == s.resizeMode
    ensures r.next.isLoading == s.isLoading && r.next.error == s.error
    ensures r.next.showControlsOverlay == s.showControlsOverlay
    ensures r.seek.Some? ==> !IsLive(sess) && (i == Left || i == Right) && r.seek == Some(r.next.currentTime)
    ensures r.out == CloseSession <==> i == Back && !s.showEPG
    ensures r.out.ChangeChannel? ==> sess.hasChannelChange
  {
    match i
    case Up => RequestChannel(sess, s, Prev)
    case Down => RequestChannel(sess, s, Next)
    case Left =>
      if !IsLive(sess) && s.currentTime > SeekStep then SeekTo(s, s.currentTime - SeekStep) else Still(s)
    case Right =>
      if !IsLive(sess) && s.currentTime < s.duration - SeekStep then SeekTo(s, s.currentTime + SeekStep) else Still(s)
    case Enter => Still(s.(isPlaying := !s.isPlaying))
    case Back => BackPressed(s)
    case Menu => Still(s.(showEPG := !s.showEPG))
    case PlayPause => Still(s.(isPlaying := !s.isPlaying))
    case FastForward =>
      if !IsLive(sess) then Still(s.(rate := if s.rate + 1 < MaxRate then s.rate + 1 else MaxRate)) else Still(s)
    case Rewind =>
      if !IsLive(sess) then Still(s.(rate := if s.rate - 1 > MinRate then s.rate - 1 else MinRate)) else Still(s)
    case VolumeUp => Still(s)
    case VolumeDown => Still(s)
    case Mute => Still(s.(isMuted := !s.isMuted))
    case ChannelUp => RequestChannel(sess, s, Next)
    case ChannelDown => RequestChannel(sess, s, Prev)
    case Number(_) => Still(s)
  }

  /** The controller: the reaction of the player to one event. */
  function Step(sess: Session, s: Snapshot, e: Event): (r: Reaction)
    ensures r.seek.Some? ==> (e == End && IsLive(sess) && r.seek == Some(0)) || (e.Remote? && !IsLive(sess))
    ensures r.out == CloseSession <==> e == CloseButton || ((e == Remote(Back) || e == HardwareBack) && !s.showEPG)
    ensures r.next.duration != s.duration ==> e.Load?
    ensures r.next.error != s.error ==> e == LoadStart || e.VideoError?
    ensures r.out.ChangeChannel? ==> sess.hasChannelChange
  {
    match e
    case Remote(i) => OnIntent(sess, s, i)
    case HardwareBack => BackPressed(s)
    case LoadStart => Still(s.(isLoading := true, error := None))
    case Load(d) => Still(s.(isLoading := false, duration := d))
    case VideoError(_) => Still(s.(isLoading := false, error := Some(StreamErrorMessage)))
    case Progress(t) => Still(s.(currentTime := t))
    case End =>
      if IsLive(sess) then Reaction(s.(isPlaying := true), Quiet, Some(0))
      else Still(s.(isPlaying := false))
    case TogglePlayPause => Still(s.(isPlaying := !s.isPlaying))
    case ToggleMute => Still(s.(isMuted := !s.isMuted))
    case ToggleControls => Still(s.(showControlsOverlay := !s.showControlsOverlay))
    case CycleResizeMode => Still(s.(resizeMode := NextFitMode(s.resizeMode)))
    case Retry => Still(s.(isPlaying := true))
    case OpenGuide => Still(s.(showEPG := true))
    case CloseGuide => Still(s.(showEPG := false))
    case CloseButton => Tell(s, CloseSession)
    case ChannelButton(d) => RequestChannel(sess, s, d)   // the buttons are only shown when channel changes are wired
    case AutoHide =>
      if AutoHideArmed(s) then Still(s.(showControlsOverlay := false)) else Still(s)
  }

  /** The hide timer is armed exactly while the overlay shows and playback runs. */
  predicate AutoHideArmed(s: Snapshot) {
    s.showControlsOverlay && s.isPlaying
  }

  /** The state after a sequence of events. */
  function Run(sess: Session, s: Snapshot, events: seq<Event>): Snapshot
    decreases |events|
  {
    if events == [] then s else Run(sess, Step(sess, s, events[0]).next, events[1..])
  }

  // ---------------------------------------------------------------------
  // Properties of single reactions
  // ---------------------------------------------------------------------

  /**
    Left seeks back ten seconds only on demand and only past the first ten
    seconds; otherwise nothing changes, so the position never goes negative.
  */
  lemma LeftSeek(sess: Session, s: Snapshot)
    ensures var r := Step(sess, s, Remote(Left));
      var moves := !IsLive(sess) && s.currentTime > SeekStep;
      && (moves ==> r.next == s.(currentTime := s.currentTime - SeekStep) && r.seek == Some(r.next.currentTime))
      && (moves ==> r.next.currentTime > 0)
      && (!moves ==> r == Still(s))
      && r.out == Quiet
  {
  }

  /**
    Right seeks forward ten seconds only on demand and only while more than
    ten seconds remain; otherwise nothing changes, so the position never
    passes the duration.
  */
  lemma RightSeek(sess: Session, s: Snapshot)
    ensures var r := Step(sess, s, Remote(Right));
      var moves := !IsLive(sess) && s.currentTime < s.duration - SeekStep;
      && (moves ==> r.next == s.(currentTime := s.currentTime + SeekStep) && r.seek == Some(r.next.currentTime))
      && (moves ==> r.next.currentTime < r.next.duration)
      && (!moves ==> r == Still(s))
      && r.out == Quiet
  {
  }

  /** A position within `[0, duration]` stays within it under Left and Right. */
  lemma SeeksStayInRange(sess: Session, s: Snapshot, i: Intent)
    requires i == Left || i == Right
    requires 0 <= s.currentTime <= s.duration
    ensures var t := Step(sess, s, Remote(i)).next;
      0 <= t.currentTime <= t.duration
  {
  }

  /** FastForward adds 0.5x up to 2.0x, Rewind removes 0.5x down to 0.5x; live channels keep their rate. */
  lemma RateSteps(sess: Session, s: Snapshot)
    ensures var ff := Step(sess, s, Remote(FastForward)).next;
      ff == if IsLive(sess) then s else s.(rate := if s.rate + 1 < MaxRate then s.rate + 1 else MaxRate)
    ensures var rw := Step(sess, s, Remote(Rewind)).next;
      rw == if IsLive(sess) then s else s.(rate := if s.rate - 1 > MinRate then s.rate - 1 else MinRate)
    ensures s.rate == MaxRate ==> Step(sess, s, Remote(FastForward)).next == s
    ensures s.rate == MinRate ==> Step(sess, s, Remote(Rewind)).next == s
  {
  }

  /** On a live channel Left, Right, FastForward and Rewind change nothing at all. */
  lemma LiveIgnoresSeekAndRate(sess: Session, s: Snapshot, i: Intent)
    requires IsLive(sess)
    requires i == Left || i == Right || i == FastForward || i == Rewind
    ensures Step(sess, s, Remote(i)) == Still(s)
  {
  }

  /** Enter and PlayPause flip `isPlaying` and nothing else; Mute flips only `isMuted`; a second press undoes the first. */
  lemma Toggles(sess: Session, s: Snapshot)
    ensures Step(sess, s, Remote(Enter)) == Still(s.(isPlaying := !s.isPlaying))
    ensures Step(sess, s, Remote(PlayPause)) == Still(s.(isPlaying := !s.isPlaying))
    ensures Step(sess, s, Remote(Mute)) == Still(s.(isMuted := !s.isMuted))
    ensures Step(sess, Step(sess, s, Remote(PlayPause)).next, Remote(PlayPause)).next == s
    ensures Step(sess, Step(sess, s, Remote(Mute)).next, Remote(Mute)).next == s
  {
  }

  /**
    Back with the guide open only closes the guide; with the guide closed it
    asks the owner to close the session once. Either way the guide ends up
    closed, and the hardware back listener does the same.
  */
  lemma BackClosesGuideFirst(sess: Session, s: Snapshot)
    ensures var r := Step(sess, s, Remote(Back));
      && (s.showEPG ==> r.next == s.(showEPG := false) && r.out == Quiet)
      && (!s.showEPG ==> r.next == s && r.out == CloseSession)
      && !r.next.showEPG
    ensures Step(sess, s, HardwareBack) == Step(sess, s, Remote(Back))
  {
  }

  /** Up/ChannelDown ask for the previous channel, Down/ChannelUp for the next, when the owner wired it. */
  lemma ChannelRequests(sess: Session, s: Snapshot)
    ensures var o := if sess.hasChannelChange then ChangeChannel(Prev) else Quiet;
      Step(sess, s, Remote(Up)) == Step(sess, s, Remote(ChannelDown)) == Tell(s, o)
    ensures var o := if sess.hasChannelChange then ChangeChannel(Next) else Quiet;
      Step(sess, s, Remote(Down)) == Step(sess, s, Remote(ChannelUp)) == Tell(s, o)
  {
  }

  /**
    End of stream: a live channel is told to seek to 0 and resumes playing;
    anything else stops, and the recorded position is untouched either way.
  */
  lemma EndOfStream(sess: Session, s: Snapshot)
    ensures var r := Step(sess, s, End);
      && (IsLive(sess) ==> r.next == s.(isPlaying := true) && r.seek == Some(0))
      && (!IsLive(sess) ==> r.next == s.(isPlaying := false) && r.seek == None)
      && r.next.currentTime == s.currentTime
      && r.out == Quiet
  {
  }

  /** Video events: load start clears the error, load records the duration, an error shows a fixed message. */
  lemma VideoEvents(sess: Session, s: Snapshot, d: int, detail1: string, detail2: string)
    ensures Step(sess, s, LoadStart).next == s.(isLoading := true, error := None)
    ensures Step(sess, s, Load(d)).next == s.(isLoading := false, duration := d)
    ensures Step(sess, s, VideoError(detail1)).next.error == Some(StreamErrorMessage)
    ensures !Step(sess, s, VideoError(detail1)).next.isLoading
    ensures Step(sess, s, VideoError(detail1)) == Step(sess, s, VideoError(detail2))
  {
  }

  /**
    The retry button only resumes playback: the error message stays until the
    video surface reports a new load start.
  */
  lemma RetryLeavesError(sess: Session, s: Snapshot)
    ensures Step(sess, s, Event.Retry) == Still(s.(isPlaying := true))
    ensures Step(sess, s, Event.Retry).next.error == s.error
    ensures Step(sess, Step(sess, s, Event.Retry).next, LoadStart).next.error == None
  {
  }

  /** The timer hides the overlay only when armed, and then changes nothing else. */
  lemma AutoHideOnlyWhenArmed(sess: Session, s: Snapshot)
    ensures AutoHideArmed(s) ==> Step(sess, s, AutoHide) == Still(s.(showControlsOverlay := false))
    ensures !AutoHideArmed(s) ==> Step(sess, s, AutoHide) == Still(s)
    ensures !Step(sess, s, AutoHide).next.showControlsOverlay || !s.isPlaying
  {
  }

  /** Number keys are not bound by the player and change nothing. */
  lemma NumbersIgnored(sess: Session, s: Snapshot, n: int)
    ensures Step(sess, s, Remote(Number(n))) == Still(s)
  {
  }

  // ---------------------------------------------------------------------
  // Properties of runs
  // ---------------------------------------------------------------------

  /** The rate is one of 0.5x, 1.0x, 1.5x, 2.0x. */
  predicate RateValid(s: Snapshot) {
    MinRate <= s.rate <= MaxRate
  }

  /** Every intent keeps the rate valid; on a live channel no intent changes the rate or the position. */
  lemma IntentRate(sess: Session, s: Snapshot, i: Intent)
    ensures RateValid(s) ==> RateValid(OnIntent(sess, s, i).next)
    ensures IsLive(sess) ==> OnIntent(sess, s, i).next.rate == s.rate
    ensures IsLive(sess) ==> OnIntent(sess, s, i).next.currentTime == s.currentTime
  {
    match i
    case Left => {}
    case Right => {}
    case FastForward => {}
    case Rewind => {}
    case _ => {}
  }

  /** Every event keeps the rate valid. */
  lemma StepKeepsRate(sess: Session, s: Snapshot, e: Event)
    requires RateValid(s)
    ensures RateValid(Step(sess, s, e).next)
  {
    if e.Remote? {
      IntentRate(sess, s, e.intent);
    }
  }

  /** From mounting on, whatever happens, the rate stays in {0.5, 1.0, 1.5, 2.0}. */
  lemma {:induction false} RunKeepsRate(sess: Session, s: Snapshot, events: seq<Event>)
    requires RateValid(s)
    ensures RateValid(Run(sess, s, events))
    decreases |events|
  {
    if events != [] {
      StepKeepsRate(sess, s, events[0]);
      RunKeepsRate(sess, Step(sess, s, events[0]).next, events[1..]);
    }
  }

  /** On a live channel no single event changes the rate, and only a progress report moves the position. */
  lemma LiveStep(sess: Session, s: Snapshot, e: Event)
    requires IsLive(sess)
    ensures Step(sess, s, e).next.rate == s.rate
    ensures !e.Progress? ==> Step(sess, s, e).next.currentTime == s.currentTime
  {
    if e.Remote? {
      IntentRate(sess, s, e.intent);
    }
  }

  /** On a live channel no sequence of events changes the rate. */
  lemma {:induction false} LiveRunKeepsRate(sess: Session, s: Snapshot, events: seq<Event>)
    requires IsLive(sess)
    ensures Run(sess, s, events).rate == s.rate
    decreases |events|
  {
    if events != [] {
      LiveStep(sess, s, events[0]);
      LiveRunKeepsRate(sess, Step(sess, s, events[0]).next, events[1..]);
    }
  }

  /** On a live channel only progress reports move the recorded position. */
  lemma {:induction false} LivePositionFollowsProgressOnly(sess: Session, s: Snapshot, events: seq<Event>)
    requires IsLive(sess)
    requires forall k :: 0 <= k < |events| ==> !events[k].Progress?
    ensures Run(sess, s, events).currentTime == s.currentTime
    decreases |events|
  {
    if events != [] {
      LiveStep(sess, s, events[0]);
      LivePositionFollowsProgressOnly(sess, Step(sess, s, events[0]).next, events[1..]);
    }
  }

  // ---------------------------------------------------------------------
  // Keys reaching the player
  // ---------------------------------------------------------------------

  /** Every handler the player binds: all but `onNumber`. */
  const PlayerHandlers: set<Handler> :=
    {OnUp, OnDown, OnLeft, OnRight, OnEnter, OnBack, OnMenu, OnPlayPause, OnFastForward,
     OnRewind, OnVolumeUp, OnVolumeDown, OnMute, OnChannelUp, OnChannelDown}

  /** A key press, from code to reaction, through the hook and the player's bindings. */
  function KeyPress(sess: Session, s: Snapshot, code: int): Reaction {
    match Invoke(PlayerHandlers, code)
    case None => Still(s)
    case Some(i) => Step(sess, s, Remote(i))
  }

  /** Digit keys never change the player; the remote's OK key toggles playback. */
  lemma KeysReachingPlayer(sess: Session, s: Snapshot, code: int)
    ensures 7 <= code <= 16 && code != 13 ==> KeyPress(sess, s, code) == Still(s)
    ensures code == 23 || code == 13 || code == 66 ==> KeyPress(sess, s, code) == Still(s.(isPlaying := !s.isPlaying))
  {
    if 7 <= code <= 16 && code != 13 {
      DigitKeys(code);
    }
    EnterKeys();
  }

  // ---------------------------------------------------------------------
  // Time labels
  // ---------------------------------------------------------------------

  /** `formatTime`: `h:mm:ss` from one hour on, `m:ss` below. */
  function FormatTime(seconds: nat): (clock: string)
    ensures 4 <= |clock| && clock[|clock| - 3] == ':'
    ensures AllDigits(clock[|clock| - 2..])
  {
    var hours := seconds / 3600;
    var minutes := (seconds % 3600) / 60;
    var secs := seconds % 60;
    var lead := if hours > 0 then NatToString(hours) + ":" + PadStart2(NatToString(minutes)) else NatToString(minutes);
    PaddedSecondsLast(lead, secs);
    lead + ":" + PadStart2(NatToString(secs))
  }

  /** A label ending in a colon and a padded seconds field ends in two digits after that colon. */
  lemma PaddedSecondsLast(lead: string, secs: nat)
    requires secs < 60 && 1 <= |lead|
    ensures var clock := lead + ":" + PadStart2(NatToString(secs));
      4 <= |clock| && clock[|clock| - 3] == ':' && AllDigits(clock[|clock| - 2..])
  {
    var tail := PadStart2(NatToString(secs));
    ParsePadded(secs);
    var clock := lead + ":" + tail;
    assert clock[|clock| - 2..] == tail;
    assert clock[|clock| - 3] == ':';
  }

  /** Reads a clock label `h:mm:ss` or `m:ss` back into seconds. */
  function ParseClock(clock: string): Option<nat> {
    ClockValue(Split(clock, ':'))
  }

  /** The seconds shown by the fields of a clock label: hours, minutes and seconds, or minutes and seconds. */
  function ClockValue(fields: seq<string>): Option<nat> {
    if |fields| == 3 then
      var h, m, sec := ParseNat(fields[0]), ParseNat(fields[1]), ParseNat(fields[2]);
      if h.Some? && m.Some? && sec.Some? then Some(h.value * 3600 + m.value * 60 + sec.value) else None
    else if |fields| == 2 then
      var m, sec := ParseNat(fields[0]), ParseNat(fields[1]);
      if m.Some? && sec.Some? then Some(m.value * 60 + sec.value) else None
    else None
  }

  /** Euclidean division by 60 is determined by quotient and remainder. */
  lemma DivModSixty(n: int, q: int, r: int)
    requires 0 <= r < 60 && n == q * 60 + r
    ensures n / 60 == q && n % 60 == r
  {
  }

  lemma ClockArithmetic(n: nat)
    ensures n / 3600 * 3600 + (n % 3600) / 60 * 60 + n % 60 == n
    ensures (n % 3600) / 60 < 60 && n % 60 < 60
    ensures n / 3600 == 0 ==> (n % 3600) / 60 == n / 60
  {
    var h, r := n / 3600, n % 3600;
    var m, s := r / 60, r % 60;
    DivModSixty(n, h * 60 + m, s);
  }

  lemma SplitThree(a: string, b: string, c: string, sep: char)
    requires sep !in a && sep !in b && sep !in c
    ensures Split(a + [sep] + b + [sep] + c, sep) == [a, b, c]
  {
    assert a + [sep] + b + [sep] + c == a + [sep] + (b + [sep] + c);
    SplitFirst(a, sep, b + [sep] + c);
    SplitFirst(b, sep, c);
    SplitNone(c, sep);
  }

  lemma SplitTwo(a: string, b: string, sep: char)
    requires sep !in a && sep !in b
    ensures Split(a + [sep] + b, sep) == [a, b]
  {
    SplitFirst(a, sep, b);
    SplitNone(b, sep);
  }

  /** A padded digit field never holds the separator. */
  lemma PaddedAvoidsColon(k: nat)
    requires k < 100
    ensures ':' !in PadStart2(NatToString(k))
  {
    ParsePadded(k);
    DigitsAvoid(PadStart2(NatToString(k)), ':');
  }

  /** Three separator-free fields that read as numbers give a three-field clock value. */
  lemma ClockFieldsLong(hh: string, mm: string, ss: string, h: nat, m: nat, sec: nat)
    requires ':' !in hh && ':' !in mm && ':' !in ss
    requires ParseNat(hh) == Some(h) && ParseNat(mm) == Some(m) && ParseNat(ss) == Some(sec)
    ensures ParseClock(hh + ":" + mm + ":" + ss) == Some(h * 3600 + m * 60 + sec)
  {
    assert hh + ":" + mm + ":" + ss == hh + [':'] + mm + [':'] + ss;
    SplitThree(hh, mm, ss, ':');
    assert Split(hh + ":" + mm + ":" + ss, ':') == [hh, mm, ss];
    var fields := [hh, mm, ss];
    assert fields[0] == hh && fields[1] == mm && fields[2] == ss;
  }

  lemma ClockFieldsShort(mm: string, ss: string, m: nat, sec: nat)
    requires ':' !in mm && ':' !in ss
    requires ParseNat(mm) == Some(m) && ParseNat(ss) == Some(sec)
    ensures ParseClock(mm + ":" + ss) == Some(m * 60 + sec)
  {
    assert mm + ":" + ss == mm + [':'] + ss;
    SplitTwo(mm, ss, ':');
    assert Split(mm + ":" + ss, ':') == [mm, ss];
    var fields := [mm, ss];
    assert fields[0] == mm && fields[1] == ss;
  }

  lemma ParseClockLong(h: nat, m: nat, sec: nat)
    requires m < 100 && sec < 100
    ensures ParseClock(NatToString(h) + ":" + PadStart2(NatToString(m)) + ":" + PadStart2(NatToString(sec)))
      == Some(h * 3600 + m * 60 + sec)
  {
    ParseNatToString(h);
    ParsePadded(m);
    ParsePadded(sec);
    DigitsAvoid(NatToString(h), ':');
    PaddedAvoidsColon(m);
    PaddedAvoidsColon(sec);
    ClockFieldsLong(NatToString(h), PadStart2(NatToString(m)), PadStart2(NatToString(sec)), h, m, sec);
  }

  lemma ParseClockShort(m: nat, sec: nat)
    requires sec < 100
    ensures ParseClock(NatToString(m) + ":" + PadStart2(NatToString(sec))) == Some(m * 60 + sec)
  {
    ParseNatToString(m);
    ParsePadded(sec);
    DigitsAvoid(NatToString(m), ':');
    PaddedAvoidsColon(sec);
    ClockFieldsShort(NatToString(m), PadStart2(NatToString(sec)), m, sec);
  }

  /** The clock label reads back as the number of seconds it shows. */
  lemma FormatTimeRoundTrip(seconds: nat)
    ensures ParseClock(FormatTime(seconds)) == Some(seconds)
  {
    var h, m, sec := seconds / 3600, (seconds % 3600) / 60, seconds % 60;
    ClockArithmetic(seconds);
    var total := h * 3600 + m * 60 + sec;
    assert total == seconds;
    var clock := FormatTime(seconds);
    if h > 0 {
      assert clock == NatToString(h) + ":" + PadStart2(NatToString(m)) + ":" + PadStart2(NatToString(sec));
      ParseClockLong(h, m, sec);
      assert ParseClock(clock) == Some(total);
    } else {
      assert clock == NatToString(m) + ":" + PadStart2(NatToString(sec));
      ParseClockShort(m, sec);
      assert ParseClock(clock) == Some(total);
    }
  }

  // ---------------------------------------------------------------------
  // The player object
  // ---------------------------------------------------------------------

  /**
    One mounted player: the session it was given and its state fields. The
    owner re-renders the same player with the next channel on a channel
    change, so the stream type can change while the player stays mounted.
  */
  class StreamingPlayer {
    var streamType: string
    const hasChannelChange: bool
    var isPlaying: bool
    var isMuted: bool
    var isLoading: bool
    var error: Option<string>
    var showControlsOverlay: bool
    var duration: int
    var currentTime: int
    var rate: int
    var resizeMode: FitMode
    var showEPG: bool

    function Sess(): Session
      reads this
    {
      Session(streamType, hasChannelChange)
    }

    function Snap(): Snapshot
      reads this
    {
      Snapshot(isPlaying, isMuted, isLoading, error, showControlsOverlay, duration, currentTime, rate, resizeMode, showEPG)
    }

    /** Mounting: autoplay as asked, loading, overlay shown, rate 1.0x, contain, guide closed. */
    constructor (channel: Catalog.Channel, hasChannelChange: bool, autoPlay: bool)
      ensures Sess() == Session(channel.streamType, hasChannelChange)
      ensures Snap() == Initial(autoPlay)
    {
      streamType := channel.streamType;
      this.hasChannelChange := hasChannelChange;
      isPlaying := autoPlay;
      isMuted := false;
      isLoading := true;
      error := None;
      showControlsOverlay := true;
      duration := 0;
      currentTime := 0;
      rate := NormalRate;
      resizeMode := Contain;
      showEPG := false;
    }

    /**
      A new channel handed to the mounted player: only the session changes;
      rate, fit mode, mute, guide, playback and the recorded times carry over.
    */
    method SetChannel(channel: Catalog.Channel)
      modifies this
      ensures Sess() == Session(channel.streamType, hasChannelChange)
      ensures Snap() == old(Snap())
    {
      streamType := channel.streamType;
    }

    method OnUp() returns (out: Outward)
      modifies this
      ensures Reaction(Snap(), out, None) == Step(old(Sess()), old(Snap()), Remote(Up))
      ensures Sess() == old(Sess())
    {
      out := if hasChannelChange then ChangeChannel(Prev) else Quiet;
    }

    method OnDown() returns (out: Outward)
      modifies this
      ensures Reaction(Snap(), out, None) == Step(old(Sess()), old(Snap()), Remote(Down))
      ensures Sess() == old(Sess())
    {
      out := if hasChannelChange then ChangeChannel(Next) else Quiet;
    }

    method OnLeft() returns (seek: Option<int>)
      modifies this
      ensures Reaction(Snap(), Quiet, seek) == Step(old(Sess()), old(Snap()), Remote(Left))
      ensures Sess() == old(Sess())
    {
      seek := None;
      if streamType != "live" && currentTime > SeekStep {
        seek := SeekToPosition(currentTime - SeekStep);
      }
    }

    method OnRight() returns (seek: Option<int>)
      modifies this
      ensures Reaction(Snap(), Quiet, seek) == Step(old(Sess()), old(Snap()), Remote(Right))
      ensures Sess() == old(Sess())
    {
      seek := None;
      if streamType != "live" && currentTime < duration - SeekStep {
        seek := SeekToPosition(currentTime + SeekStep);
      }
    }

    /** `seekTo`: the surface is told to seek and the position is recorded. */
    method SeekToPosition(position: int) returns (seek: Option<int>)
      modifies this
      ensures Snap() == old(Snap()).(currentTime := position) && seek == Some(position)
      ensures Sess() == old(Sess())
    {
      currentTime := position;
      seek := Some(position);
    }

    method OnEnter()
      modifies this
      ensures Still(Snap()) == Step(old(Sess()), old(Snap()), Remote(Enter))
      ensures Sess() == old(Sess())
    {
      TogglePlayPause();
    }

    method OnBack() returns (out: Outward)
      modifies this
      ensures Reaction(Snap(), out, None) == Step(old(Sess()), old(Snap()), Remote(Back))
      ensures Sess() == old(Sess())
    {
      if showEPG {
        showEPG := false;
        out := Quiet;
      } else {
        out := CloseSession;
      }
    }

    /** The player's hardware back listener: same as Back, and always reports the press as consumed. */
    method OnHardwareBack() returns (out: Outward, consumed: bool)
      modifies this
      ensures Reaction(Snap(), out, None) == Step(old(Sess()), old(Snap()), HardwareBack)
      ensures Sess() == old(Sess())
      ensures consumed
    {
      out := OnBack();
      consumed := true;
    }

    method OnMenu()
      modifies this
      ensures Still(Snap()) == Step(old(Sess()), old(Snap()), Remote(Menu))
      ensures Sess() == old(Sess())
    {
      showEPG := !showEPG;
    }

    method OnPlayPause()
      modifies this
      ensures Still(Snap()) == Step(old(Sess()), old(Snap()), Remote(PlayPause))
      ensures Sess() == old(Sess())
    {
      TogglePlayPause();
    }

    method OnFastForward()
      modifies this
      ensures Still(Snap()) == Step(old(Sess()), old(Snap()), Remote(FastForward))
      ensures Sess() == old(Sess())
    {
      if streamType != "live" {
        rate := if rate + 1 < MaxRate then rate + 1 else MaxRate;
      }
    }

    method OnRewind()
      modifies this
      ensures Still(Snap()) == Step(old(Sess()), old(Snap()), Remote(Rewind))
      ensures Sess() == old(Sess())
    {
      if streamType != "live" {
        rate := if rate - 1 > MinRate then rate - 1 else MinRate;
      }
    }

    /** Volume keys are bound but do nothing. */
    method OnVolume(up: bool)
      ensures Still(Snap()) == Step(Sess(), Snap(), Remote(if up then VolumeUp else VolumeDown))
    {
    }

    method OnMute()
      modifies this
      ensures Still(Snap()) == Step(old(Sess()), old(Snap()), Remote(Mute))
      ensures Sess() == old(Sess())
    {
      ToggleMute();
    }

    method OnChannelUp() returns (out: Outward)
      modifies this
      ensures Reaction(Snap(), out, None) == Step(old(Sess()), old(Snap()), Remote(ChannelUp))
      ensures Sess() == old(Sess())
    {
      out := OnDown();
    }

    method OnChannelDown() returns (out: Outward)
      modifies this
      ensures Reaction(Snap(), out, None) == Step(old(Sess()), old(Snap()), Remote(ChannelDown))
      ensures Sess() == old(Sess())
    {
      out := OnUp();
    }

    method HandleLoadStart()
      modifies this
      ensures Still(Snap()) == Step(old(Sess()), old(Snap()), LoadStart)
      ensures Sess() == old(Sess())
    {
      isLoading := true;
      error := None;
    }

    method HandleLoad(d: int)
      modifies this
      ensures Still(Snap()) == Step(old(Sess()), old(Snap()), Load(d))
      ensures Sess() == old(Sess())
    {
      isLoading := false;
      duration := d;
    }

    /** The detail is only logged; the label is fixed. */
    method HandleError(detail: string)
      modifies this
      ensures Still(Snap()) == Step(old(Sess()), old(Snap()), VideoError(detail))
      ensures Sess() == old(Sess())
    {
      isLoading := false;
      error := Some(StreamErrorMessage);
    }

    method HandleProgress(t: int)
      modifies this
      ensures Still(Snap()) == Step(old(Sess()), old(Snap()), Progress(t))
      ensures Sess() == old(Sess())
    {
      currentTime := t;
    }

    method HandleEnd() returns (seek: Option<int>)
      modifies this
      ensures Reaction(Snap(), Quiet, seek) == Step(old(Sess()), old(Snap()), End)
      ensures Sess() == old(Sess())
    {
      if streamType == "live" {
        seek := Some(0);
        isPlaying := true;
      } else {
        seek := None;
        isPlaying := false;
      }
    }

    method TogglePlayPause()
      modifies this
      ensures Still(Snap()) == Step(old(Sess()), old(Snap()), Event.TogglePlayPause)
      ensures Sess() == old(Sess())
    {
      isPlaying := !isPlaying;
    }

    method ToggleMute()
      modifies this
      ensures Still(Snap()) == Step(old(Sess()), old(Snap()), Event.ToggleMute)
      ensures Sess() == old(Sess())
    {
      isMuted := !isMuted;
    }

    method ToggleControls()
      modifies this
      ensures Still(Snap()) == Step(old(Sess()), old(Snap()), Event.ToggleControls)
      ensures Sess() == old(Sess())
    {
      showControlsOverlay := !showControlsOverlay;
    }

    method CycleResizeMode()
      modifies this
      ensures Still(Snap()) == Step(old(Sess()), old(Snap()), Event.CycleResizeMode)
      ensures Sess() == old(Sess())
    {
      resizeMode := NextFitMode(resizeMode);
    }

    /** The retry button of the error panel. */
    method Retry()
      modifies this
      ensures Still(Snap()) == Step(old(Sess()), old(Snap()), Event.Retry)
      ensures Sess() == old(Sess())
    {
      isPlaying := true;
    }

    /** The guide button, and the guide's own close button. */
    method SetGuide(open: bool)
      modifies this
      ensures Still(Snap()) == Step(old(Sess()), old(Snap()), if open then OpenGuide else CloseGuide)
      ensures Sess() == old(Sess())
    {
      showEPG := open;
    }

    /** Whether the effect would arm the hide timer in the current state. */
    method ShouldArmAutoHide() returns (armed: bool)
      ensures armed <==> AutoHideArmed(Snap())
    {
      armed := showControlsOverlay && isPlaying;
    }

    /** The hide timer fires; it can only have been armed while the arming condition held. */
    method OnAutoHide()
      modifies this
      ensures Still(Snap()) == Step(old(Sess()), old(Snap()), AutoHide)
      ensures Sess() == old(Sess())
    {
      if showControlsOverlay && isPlaying {
        showControlsOverlay := false;
      }
    }
  }
}
