/**
  The remote-control input mapper: the `keydown` switch that turns a raw key
  code into at most one call of a bound handler, and the routing of the
  Android hardware back signal.
*/
module RemoteControl {
  import opened Wrappers

  /** The semantic intents a key press can produce. */
  datatype Intent =
    | Up | Down | Left | Right
    | Enter | Back | Menu
    | PlayPause | FastForward | Rewind
    | VolumeUp | VolumeDown | Mute
    | ChannelUp | ChannelDown
    | Number(digit: int)

  /** The optional callbacks a caller may bind, one per kind of intent. */
  datatype Handler =
    | OnUp | OnDown | OnLeft | OnRight
    | OnEnter | OnBack | OnMenu
    | OnPlayPause | OnFastForward | OnRewind
    | OnVolumeUp | OnVolumeDown | OnMute
    | OnChannelUp | OnChannelDown
    | OnNumber

  function HandlerOf(i: Intent): Handler {
    match i
    case Up => OnUp
    case Down => OnDown
    case Left => OnLeft
    case Right => OnRight
    case Enter => OnEnter
    case Back => OnBack
    case Menu => OnMenu
    case PlayPause => OnPlayPause
    case FastForward => OnFastForward
    case Rewind => OnRewind
    case VolumeUp => OnVolumeUp
    case VolumeDown => OnVolumeDown
    case Mute => OnMute
    case ChannelUp => OnChannelUp
    case ChannelDown => OnChannelDown
    case Number(_) => OnNumber
  }

  /** What the body of a case clause does once it is selected. */
  datatype Action =
    | Call(intent: Intent)  // call the handler of a fixed intent
    | CallNumber            // call `onNumber(keyCode - 7)`
    | CallEnterIf66         // call `onEnter` only when the code is 66

  /** The number of clauses of the `keydown` switch. */
  const CaseCount := 17
  /** Index of the clause holding the digit labels. */
  const DigitCase := 15
  /** Index of the trailing Fire Stick clause. */
  const FireStickCase := 16

  /** Whether `code` is one of the labels of clause `j` of the `keydown` switch (source order). */
  predicate Labels(j: nat, code: int)
    requires j < CaseCount
    ensures Labels(j, code) ==> code in ListedCodes
  {
    match j
    case 0 => code == 19 || code == 38
    case 1 => code == 20 || code == 40
    case 2 => code == 21 || code == 37
    case 3 => code == 22 || code == 39
    case 4 => code == 23 || code == 13
    case 5 => code == 4 || code == 27
    case 6 => code == 82
    case 7 => code == 85 || code == 179
    case 8 => code == 87 || code == 228
    case 9 => code == 88 || code == 227
    case 10 => code == 24
    case 11 => code == 25
    case 12 => code == 164
    case 13 => code == 166
    case 14 => code == 167
    case 15 => 7 <= code <= 16
    case _ => 19 <= code <= 22 || code == 66
  }

  /** The body of clause `j`. */
  function Body(j: nat): (a: Action)
    requires j < CaseCount
    ensures a == CallNumber <==> j == DigitCase
    ensures a == CallEnterIf66 <==> j == FireStickCase
    ensures a.Call? ==> !a.intent.Number?
  {
    match j
    case 0 => Call(Up)
    case 1 => Call(Down)
    case 2 => Call(Left)
    case 3 => Call(Right)
    case 4 => Call(Enter)
    case 5 => Call(Back)
    case 6 => Call(Menu)
    case 7 => Call(PlayPause)
    case 8 => Call(FastForward)
    case 9 => Call(Rewind)
    case 10 => Call(VolumeUp)
    case 11 => Call(VolumeDown)
    case 12 => Call(Mute)
    case 13 => Call(ChannelUp)
    case 14 => Call(ChannelDown)
    case 15 => CallNumber
    case _ => CallEnterIf66
  }

  /**
    The switch's first-match rule: the first clause, from clause `j` on,
    holding a label equal to `code`.
  */
  function FirstMatchFrom(j: nat, code: int): (r: Option<nat>)
    requires j <= CaseCount
    ensures r.Some? ==> j <= r.value < CaseCount && Labels(r.value, code)
    decreases CaseCount - j
  {
    if j == CaseCount then None
    else if Labels(j, code) then Some(j)
    else FirstMatchFrom(j + 1, code)
  }

  /**
    First-match, stated: the clause found has the label, no earlier clause
    has it, and nothing is found exactly when no clause has it.
  */
  lemma {:induction false} FirstMatchSpec(j: nat, code: int)
    requires j <= CaseCount
    ensures var r := FirstMatchFrom(j, code);
      && (r.Some? ==> forall k :: j <= k < r.value ==> !Labels(k, code))
      && (r.None? <==> forall k :: j <= k < CaseCount ==> !Labels(k, code))
    decreases CaseCount - j
  {
    if j < CaseCount && !Labels(j, code) {
      FirstMatchSpec(j + 1, code);
    }
  }

  /** The handler call made by the selected clause. */
  function Perform(a: Action, code: int): Option<Intent> {
    match a
    case Call(i) => Some(i)
    case CallNumber => Some(Number(code - 7))
    case CallEnterIf66 => if code == 66 then Some(Enter) else None
  }

  /**
    One `keydown` event: whether `preventDefault` is called, and which
    intent's handler the switch calls (at most one).
  */
  datatype KeyOutcome = KeyOutcome(prevented: bool, intent: Option<Intent>)

  function HandleKeyDown(code: int): (r: KeyOutcome)
    ensures r.intent.Some? ==> r.prevented
  {
    match FirstMatchFrom(0, code)
    case None => KeyOutcome(false, None)
    case Some(j) => KeyOutcome(true, Perform(Body(j), code))
  }

  /** Every label of the switch. */
  const ListedCodes: set<int> :=
    {19, 38, 20, 40, 21, 37, 22, 39, 23, 13, 4, 27, 82, 85, 179, 87, 228, 88, 227,
     24, 25, 164, 166, 167, 7, 8, 9, 10, 11, 12, 14, 15, 16, 66}

  /** A code that no clause lists is neither prevented nor handled. */
  lemma UnlistedIgnored(code: int)
    requires code !in ListedCodes
    ensures HandleKeyDown(code) == KeyOutcome(false, None)
  {
    forall j | 0 <= j < CaseCount ensures !Labels(j, code) {
    }
    FirstMatchSpec(0, code);
  }

  /** The clause selected for a code, when the first `k` clauses are known not to match. */
  lemma Selects(code: int, k: nat)
    requires k < CaseCount && Labels(k, code)
    requires forall j :: 0 <= j < k ==> !Labels(j, code)
    ensures FirstMatchFrom(0, code) == Some(k)
    ensures HandleKeyDown(code) == KeyOutcome(true, Perform(Body(k), code))
  {
    FirstMatchSpec(0, code);
  }

  /** The two device families' arrow codes are aliases of one another. */
  lemma ArrowAliases()
    ensures HandleKeyDown(19) == HandleKeyDown(38) == KeyOutcome(true, Some(Up))
    ensures HandleKeyDown(20) == HandleKeyDown(40) == KeyOutcome(true, Some(Down))
    ensures HandleKeyDown(21) == HandleKeyDown(37) == KeyOutcome(true, Some(Left))
    ensures HandleKeyDown(22) == HandleKeyDown(39) == KeyOutcome(true, Some(Right))
  {
  }

  /** OK/Enter from the remote and the keyboard; code 66 reaches Enter through the last clause. */
  lemma EnterKeys()
    ensures HandleKeyDown(23) == HandleKeyDown(13) == HandleKeyDown(66) == KeyOutcome(true, Some(Enter))
  {
    assert FirstMatchFrom(8, 66) == Some(16);
  }

  /** Back/Escape and Menu. */
  lemma BackAndMenuKeys()
    ensures HandleKeyDown(4) == HandleKeyDown(27) == KeyOutcome(true, Some(Back))
    ensures HandleKeyDown(82) == KeyOutcome(true, Some(Menu))
  {
  }

  /** Play/pause and its Windows alias. */
  lemma PlayPauseKeys()
    ensures HandleKeyDown(85) == HandleKeyDown(179) == KeyOutcome(true, Some(PlayPause))
  {
  }

  /** Fast forward and its Windows alias. */
  lemma FastForwardKeys()
    ensures HandleKeyDown(87) == HandleKeyDown(228) == KeyOutcome(true, Some(FastForward))
  {
  }

  /** Rewind and its Windows alias. */
  lemma RewindKeys()
    ensures HandleKeyDown(88) == HandleKeyDown(227) == KeyOutcome(true, Some(Rewind))
  {
  }

  /** Volume keys. */
  lemma VolumeKeys()
    ensures HandleKeyDown(24) == KeyOutcome(true, Some(VolumeUp))
    ensures HandleKeyDown(25) == KeyOutcome(true, Some(VolumeDown))
  {
    assert FirstMatchFrom(8, 24) == Some(10);
    assert FirstMatchFrom(8, 25) == Some(11);
  }

  /** Mute key. */
  lemma MuteKey()
    ensures HandleKeyDown(164) == KeyOutcome(true, Some(Mute))
  {
    assert FirstMatchFrom(8, 164) == Some(12);
  }

  /** Channel up. */
  lemma ChannelUpKey()
    ensures HandleKeyDown(166) == KeyOutcome(true, Some(ChannelUp))
  {
    assert FirstMatchFrom(8, 166) == Some(13);
  }

  /** Channel down. */
  lemma ChannelDownKey()
    ensures HandleKeyDown(167) == KeyOutcome(true, Some(ChannelDown))
  {
    assert FirstMatchFrom(8, 167) == Some(14);
  }

  /** Only the digit clause produces `Number`. */
  lemma OnlyDigitCaseNumbers(j: nat)
    requires j < CaseCount
    ensures Perform(Body(j), 13).Some? && Perform(Body(j), 13).value.Number? ==> j == DigitCase
    ensures Body(j) == CallNumber <==> j == DigitCase
    ensures Body(j).Call? ==> !Body(j).intent.Number?
  {
  }

  /** The digit codes other than 13 give `Number(code - 7)`, a digit in 0..9, in code order. */
  lemma DigitKeys(code: int)
    requires 7 <= code <= 16 && code != 13
    ensures HandleKeyDown(code) == KeyOutcome(true, Some(Number(code - 7)))
    ensures 0 <= code - 7 <= 9
  {
    Selects(code, DigitCase);
  }

  /**
    `Number` comes only from the digit clause, so its digit is `code - 7`;
    code 13 is taken by the Enter clause first, so `Number(6)` is never produced.
  */
  lemma NoDigitSix(code: int)
    ensures HandleKeyDown(code).intent.Some? && HandleKeyDown(code).intent.value.Number? ==>
      var n := HandleKeyDown(code).intent.value.digit;
      n == code - 7 && 0 <= n <= 9 && n != 6
  {
    FirstMatchSpec(0, code);
    var r := FirstMatchFrom(0, code);
    if r.Some? && r.value != DigitCase {
      OnlyDigitCaseNumbers(r.value);
    }
    if r == Some(DigitCase) {
      assert !Labels(4, code);
    }
  }

  /** Digit keys keep their order: a higher code gives a higher digit. */
  lemma DigitOrder(c1: int, c2: int)
    requires 7 <= c1 < c2 <= 16 && c1 != 13 && c2 != 13
    ensures HandleKeyDown(c1).intent.Some? && HandleKeyDown(c1).intent.value.Number?
    ensures HandleKeyDown(c2).intent.Some? && HandleKeyDown(c2).intent.value.Number?
    ensures HandleKeyDown(c1).intent.value.digit < HandleKeyDown(c2).intent.value.digit
  {
    DigitKeys(c1);
    DigitKeys(c2);
  }

  /** The labels 19..22 of the trailing clause are dead: only code 66 selects it. */
  lemma FireStickCaseOnly66(code: int)
    requires FirstMatchFrom(0, code) == Some(FireStickCase)
    ensures code == 66
  {
    FirstMatchSpec(0, code);
    assert !Labels(0, code) && !Labels(1, code);
    assert !Labels(2, code) && !Labels(3, code);
  }

  /**
    The handler actually invoked for a code, given the set of handlers the
    caller bound: `handler?.()` does nothing when the handler is absent.
  */
  function Invoke(bound: set<Handler>, code: int): (called: Option<Intent>)
    ensures called.Some? ==> called == HandleKeyDown(code).intent && HandlerOf(called.value) in bound
  {
    var i := HandleKeyDown(code).intent;
    if i.Some? && HandlerOf(i.value) in bound then i else None
  }

  /** A missing handler makes the key a no-op; a bound one is called for exactly its intent. */
  lemma InvokeBound(bound: set<Handler>, code: int)
    ensures HandleKeyDown(code).intent.Some? ==>
      (Invoke(bound, code).Some? <==> HandlerOf(HandleKeyDown(code).intent.value) in bound)
    ensures HandleKeyDown(code).intent.None? ==> Invoke(bound, code).None?
  {
  }

  datatype Platform = Android | OtherPlatform

  /** Which listeners the hook's effect installs. */
  datatype Subscription = Subscription(hardwareBack: bool, keyDown: bool)

  /**
    The effect of the hook: nothing when disabled; otherwise a hardware back
    listener on Android and document key listeners where a document exists.
  */
  function Subscribe(enabled: bool, platform: Platform, hasDocument: bool): (s: Subscription)
    ensures !enabled ==> s == Subscription(false, false)
    ensures enabled ==> s.hardwareBack == (platform == Android) && s.keyDown == hasDocument
  {
    if !enabled then Subscription(false, false)
    else Subscription(platform == Android, hasDocument)
  }

  /** The hardware back listener's effect: whether `onBack` is called, and what it returns. */
  datatype BackPress = BackPress(callsOnBack: bool, consumed: bool)

  function HardwareBackPress(s: Subscription, bound: set<Handler>): (r: Option<BackPress>)
    ensures r.Some? <==> s.hardwareBack
    ensures r.Some? ==> r.value.consumed && (r.value.callsOnBack <==> OnBack in bound)
  {
    if s.hardwareBack then Some(BackPress(OnBack in bound, true)) else None
  }

  /** A key event reaches the switch only through an installed key listener. */
  function KeyEvent(s: Subscription, bound: set<Handler>, code: int): (called: Option<Intent>)
    ensures !s.keyDown ==> called.None?
    ensures s.keyDown ==> called == Invoke(bound, code)
  {
    if s.keyDown then Invoke(bound, code) else None
  }

  /** Enabled on Android, every hardware back press calls a bound `onBack` and is consumed. */
  lemma AndroidBackAlwaysConsumed(platform: Platform, hasDocument: bool, bound: set<Handler>)
    requires platform == Android && OnBack in bound
    ensures HardwareBackPress(Subscribe(true, platform, hasDocument), bound) == Some(BackPress(true, true))
    ensures HardwareBackPress(Subscribe(false, platform, hasDocument), bound).None?
  {
  }
}
