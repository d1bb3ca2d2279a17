/** The tray session: the keyboard-hook dispatch, the current strip and
    its cycling, the gain and mute commands sent to the mixer, the strip
    names, the Toggle Mute menu item, and what the overlay is asked to
    show after each of them. */
module TrayLogic {
  import opened Text
  import opened Gain
  import opened Remote
  import opened Theme
  import opened Overlay

  const WM_KEYDOWN := 0x0100
  const WM_SYSKEYDOWN := 0x0104
  const VK_VOLUME_MUTE := 0xAD
  const VK_VOLUME_DOWN := 0xAE
  const VK_VOLUME_UP := 0xAF

  // ---------------------------------------------------------------
  // Keyboard hook dispatch
  // ---------------------------------------------------------------

  datatype KeyAction = VolumeUp | VolumeDown | Cycle | PassOn

  /** The hook's return: 1 (the key is swallowed) or CallNextHookEx. */
  datatype HookResult = Consumed | CallNext

  predicate IsKeyDown(nCode: int, wParam: int) {
    nCode >= 0 && (wParam == WM_KEYDOWN || wParam == WM_SYSKEYDOWN)
  }

  /** HookCallback's switch: only key-down events of the three volume
      keys are acted on; everything else goes down the hook chain. */
  function Dispatch(nCode: int, wParam: int, vkCode: int): (a: KeyAction)
    ensures a != PassOn <==>
      IsKeyDown(nCode, wParam) && vkCode in {VK_VOLUME_UP, VK_VOLUME_DOWN, VK_VOLUME_MUTE}
    ensures a == VolumeUp ==> vkCode == VK_VOLUME_UP
    ensures a == VolumeDown ==> vkCode == VK_VOLUME_DOWN
    ensures a == Cycle ==> vkCode == VK_VOLUME_MUTE
  {
    if !IsKeyDown(nCode, wParam) then PassOn
    else if vkCode == VK_VOLUME_UP then VolumeUp
    else if vkCode == VK_VOLUME_DOWN then VolumeDown
    else if vkCode == VK_VOLUME_MUTE then Cycle
    else PassOn
  }

  // ---------------------------------------------------------------
  // Strip cycling
  // ---------------------------------------------------------------

  /** List.IndexOf: the first position of x, or -1. */
  function IndexOf(s: seq<int>, x: int): (i: int)
    ensures -1 <= i < |s|
    ensures i == -1 <==> x !in s
    ensures i >= 0 ==> s[i] == x && forall j :: 0 <= j < i ==> s[j] != x
  {
    if s == [] then -1
    else if s[0] == x then 0
    else
      var k := IndexOf(s[1..], x);
      if k == -1 then -1 else k + 1
  }

  /** The strip CycleStrip selects after current. */
  function NextStrip(strips: seq<int>, current: int): (next: int)
    requires |strips| > 0
    ensures next in strips
    ensures current !in strips ==> next == strips[0]
    ensures forall i {:trigger strips[i], Succ(i, |strips|)} ::
      (0 <= i < |strips| && strips[i] == current
       && (forall j :: 0 <= j < i ==> strips[j] != current))
      ==> next == strips[Succ(i, |strips|)]
  {
    var i := IndexOf(strips, current);
    strips[Succ(i, |strips|)]
  }

  /** The position after i on a ring of n positions: (i + 1) % n. */
  function Succ(i: int, n: nat): (j: nat)
    requires -1 <= i < n
    ensures j < n || (i == -1 && n == 0)
  {
    if i + 1 == n then 0 else i + 1
  }

  /** x reduced to a ring of n positions: x % n. */
  function Ring(x: nat, n: nat): (r: nat)
    requires n > 0
    ensures r < n
    decreases x
  {
    if x < n then x else Ring(x - n, n)
  }

  predicate Distinct(s: seq<int>) {
    forall i, j :: 0 <= i < j < |s| ==> s[i] != s[j]
  }

  /** In a list without repeats, a strip's first position is its position,
      and the cycle key moves on to the next position. */
  lemma NextOfDistinct(strips: seq<int>, i: nat)
    requires Distinct(strips) && i < |strips|
    ensures IndexOf(strips, strips[i]) == i
    ensures NextStrip(strips, strips[i]) == strips[Succ(i, |strips|)]
  {
  }

  /** The strip selected after k presses of the cycle key. */
  function CycleN(strips: seq<int>, current: int, k: nat): int
    requires |strips| > 0
    decreases k
  {
    if k == 0 then current else CycleN(strips, NextStrip(strips, current), k - 1)
  }

  /** With distinct strips, k presses from the i-th strip select the
      (i + k)-th, wrapping around. */
  lemma {:induction false} CycleOrbit(strips: seq<int>, i: nat, k: nat)
    requires Distinct(strips) && i < |strips|
    ensures CycleN(strips, strips[i], k) == strips[Ring(i + k, |strips|)]
    decreases k
  {
    if k > 0 {
      var n := |strips|;
      var j := Succ(i, n);
      NextOfDistinct(strips, i);
      assert CycleN(strips, strips[i], k) == CycleN(strips, strips[j], k - 1);
      CycleOrbit(strips, j, k - 1);
      if i + 1 == n {
        assert j + (k - 1) == k - 1;
        assert Ring(i + k, n) == Ring(k - 1, n);
      } else {
        assert j + (k - 1) == i + k;
      }
      assert Ring(j + (k - 1), n) == Ring(i + k, n);
    }
  }

  /** Pressing the cycle key once per strip comes back to the start. */
  lemma CycleReturns(strips: seq<int>, i: nat)
    requires Distinct(strips) && i < |strips|
    ensures CycleN(strips, strips[i], |strips|) == strips[i]
  {
    CycleOrbit(strips, i, |strips|);
  }

  /** The default cycle [5, 6, 7] from strip 5: 6, 7, then 5 again. */
  lemma DefaultCycle()
    ensures CycleN([5, 6, 7], 5, 1) == 6
    ensures CycleN([5, 6, 7], 5, 2) == 7
    ensures CycleN([5, 6, 7], 5, 3) == 5
  {
    CycleOrbit([5, 6, 7], 0, 1);
    CycleOrbit([5, 6, 7], 0, 2);
    CycleOrbit([5, 6, 7], 0, 3);
  }

  // ---------------------------------------------------------------
  // Strip names
  // ---------------------------------------------------------------

  /** Voicemeeter products in the default-name table. */
  const STANDARD := 0
  const BANANA := 1
  const POTATO := 2

  /** (product, strip index, default name). */
  const STRIP_NAMES: seq<(int, int, string)> := [
    (STANDARD, 0, "Stereo Input 1"),
    (STANDARD, 1, "Stereo Input 2"),
    (STANDARD, 2, "VB-Audio Voicemeeter VAIO"),
    (BANANA, 0, "Stereo Input 1"),
    (BANANA, 1, "Stereo Input 2"),
    (BANANA, 2, "Stereo Input 3"),
    (BANANA, 3, "Stereo Input 4"),
    (BANANA, 4, "Stereo Input 5"),
    (BANANA, 5, "Voicemeeter AUX"),
    (BANANA, 6, "Voicemeeter VAIO3"),
    (POTATO, 0, "Stereo Input 1"),
    (POTATO, 1, "Stereo Input 2"),
    (POTATO, 2, "Stereo Input 3"),
    (POTATO, 3, "Stereo Input 4"),
    (POTATO, 4, "Stereo Input 5"),
    (POTATO, 5, "Voicemeeter Input"),
    (POTATO, 6, "Voicemeeter AUX"),
    (POTATO, 7, "Voicemeeter VAIO3")
  ]

  predicate Matches(entry: (int, int, string), vmType: int, index: int) {
    entry.0 == vmType && entry.1 == index
  }

  /** FirstOrDefault over the table: the name of the first entry for
      this product and index. */
  function FindName(table: seq<(int, int, string)>, vmType: int, index: int): (r: Option<string>)
    ensures r.None? <==> forall i :: 0 <= i < |table| ==> !Matches(table[i], vmType, index)
    ensures r.Some? ==>
      exists i :: 0 <= i < |table| && table[i] == (vmType, index, r.value)
        && forall j :: 0 <= j < i ==> !Matches(table[j], vmType, index)
  {
    if table == [] then None
    else if Matches(table[0], vmType, index) then Some(table[0].2)
    else
      var r := FindName(table[1..], vmType, index);
      assert forall i :: 1 <= i < |table| ==> table[i] == table[1..][i - 1];
      r
  }

  /** The Potato default name of a strip, when the table has one. */
  function DefaultName(index: int): Option<string> {
    FindName(STRIP_NAMES, POTATO, index)
  }

  lemma TableNamesNotBlank()
    ensures forall i :: 0 <= i < |STRIP_NAMES| ==> !IsBlank(STRIP_NAMES[i].2)
  {
    forall i | 0 <= i < |STRIP_NAMES|
      ensures !IsBlank(STRIP_NAMES[i].2)
    {
      assert STRIP_NAMES[i].2[0] == 'S' || STRIP_NAMES[i].2[0] == 'V';
    }
  }

  /** The table gives a Potato name to strips 0 to 7 and no other. */
  lemma DefaultNameDomain(index: int)
    ensures DefaultName(index).Some? <==> 0 <= index <= 7
  {
    if 0 <= index <= 7 {
      assert Matches(STRIP_NAMES[10 + index], POTATO, index);
    } else {
      forall i | 0 <= i < |STRIP_NAMES|
        ensures !Matches(STRIP_NAMES[i], POTATO, index)
      {
        assert STRIP_NAMES[i].0 == POTATO ==> 0 <= STRIP_NAMES[i].1 <= 7;
      }
    }
  }

  /** GetStripName: the live label when it could be read and is not
      blank, else the Potato default name, else "Strip n"; never blank. */
  function GetStripName(m: Mixer, n: int): (name: string)
    ensures !IsBlank(name)
    ensures var live := ReadLabel(m, n);
      && (live.Ok? && !IsBlank(live.value) ==> name == live.value)
      && (!(live.Ok? && !IsBlank(live.value)) && DefaultName(n).Some? ==>
            name == DefaultName(n).value)
      && (!(live.Ok? && !IsBlank(live.value)) && DefaultName(n).None? ==>
            name == "Strip " + IntText(n))
  {
    var live := ReadLabel(m, n);
    if live.Ok? && !IsBlank(live.value) then live.value
    else
      match DefaultName(n)
      case Some(d) =>
        TableNamesNotBlank();
        d
      case None =>
        var s := "Strip " + IntText(n);
        assert !IsWhiteSpace(s[0]);
        s
  }

  // ---------------------------------------------------------------
  // Reading the mixer
  // ---------------------------------------------------------------

  /** GetMuteState: muted when the read succeeds and the value is above 0.5. */
  function GetMuteState(m: Mixer, n: int): (muted: bool)
    ensures muted <==> n in m.strips && m.strips[n].mute > 50
  {
    match ReadMute(m, n)
    case Ok(v) => v > 50
    case Failed(_) => false
  }

  /** GetGain: the strip's gain, or 0 when the read fails. */
  function GetGain(m: Mixer, n: int): (g: int)
    ensures n in m.strips ==> g == m.strips[n].gain
    ensures n !in m.strips ==> g == 0
  {
    match ReadGain(m, n)
    case Ok(v) => v
    case Failed(_) => 0
  }

  /** The gain AdjustStrip shows: the previous gain plus delta, clamped,
      computed without reading the mixer back. */
  function PredictedGain(prev: int, delta: int): (g: int)
    ensures MIN_GAIN <= g <= MAX_GAIN
    ensures MIN_GAIN <= prev + delta <= MAX_GAIN ==> g == prev + delta
    ensures prev + delta < MIN_GAIN ==> g == MIN_GAIN
    ensures prev + delta > MAX_GAIN ==> g == MAX_GAIN
  {
    Clamp(prev + delta, MIN_GAIN, MAX_GAIN)
  }

  /** For a strip the mixer has, the predicted gain is exactly what the
      mixer holds after the gain command, and nothing else changes. */
  lemma PredictionMatchesMixer(m: Mixer, n: int, delta: int)
    requires n in m.strips
    ensures var (m', code) := SetParameters(m, GainCommand(n, delta));
      && code == OK
      && GetGain(m', n) == PredictedGain(GetGain(m, n), delta)
      && GetMuteState(m', n) == GetMuteState(m, n)
      && GetStripName(m', n) == GetStripName(m, n)
      && m'.strips.Keys == m.strips.Keys
      && forall k :: k in m.strips && k != n ==> m'.strips[k] == m.strips[k]
  {
    GainCommandRoundTrip(n, delta);
  }

  /** For a strip the mixer lacks, the command fails and changes nothing,
      yet the overlay is shown the clamped delta as if the gain were 0. */
  lemma PredictionWithoutStrip(m: Mixer, n: int, delta: int)
    requires n !in m.strips
    ensures var (m', code) := SetParameters(m, GainCommand(n, delta));
      && code != OK && m' == m
      && PredictedGain(GetGain(m, n), delta) == Clamp(delta, MIN_GAIN, MAX_GAIN)
  {
    GainCommandRoundTrip(n, delta);
  }

  /** Toggle Mute on a strip the mixer has flips its mute state and
      leaves its gain and name alone. */
  lemma ToggleMuteFlips(m: Mixer, n: int)
    requires n in m.strips
    ensures var was := GetMuteState(m, n);
      var (m', code) := SetParameters(m, MuteCommand(n, !was));
      && code == OK
      && GetMuteState(m', n) == !was
      && GetGain(m', n) == GetGain(m, n)
      && GetStripName(m', n) == GetStripName(m, n)
      && forall k :: k in m.strips && k != n ==> m'.strips[k] == m.strips[k]
  {
    MuteCommandRoundTrip(n, !GetMuteState(m, n));
  }

  /** The Toggle Mute menu text: "Unmute name" when muted, "Mute name"
      otherwise. */
  function MuteMenuLabel(muted: bool, name: string): (s: string)
    ensures |s| == |name| + (if muted then 7 else 5)
    ensures s[|s| - |name|..] == name
    ensures muted <==> "Unmute " <= s
    ensures !muted <==> "Mute " <= s
  {
    var s := (if muted then "Unmute" else "Mute") + " " + name;
    assert muted ==> s[..7] == "Unmute " && s[0] != 'M';
    assert !muted ==> s[..5] == "Mute " && s[0] != 'U';
    s
  }

  // ---------------------------------------------------------------
  // The tray
  // ---------------------------------------------------------------

  class Tray {
    var currentStrip: int
    const strips: seq<int>
    /** Step of one volume key press, in hundredths of a dB. */
    const amountToAdjust: int
    const overlay: OverlayForm
    /** The mixer the remote API talks to. */
    var mixer: Mixer
    /** Text of the Toggle Mute menu item. */
    var muteItemText: string

    predicate Valid()
      reads this, overlay
    {
      overlay.Valid() && |strips| > 0
    }

    /** The overlay shows strip name, gain and mute state as ShowVolume
        lays them out. */
    predicate ShowsVolume(name: string, gain: int, muted: bool)
      reads overlay
    {
      overlay.Shown() == Contents(name, VolumeSubtitle(gain, muted), true, NormalizeDb(gain), muted)
    }

    constructor (m: Mixer, wa: Rect, theme: ThemeManager)
      ensures Valid() && fresh(overlay)
      ensures overlay.Shown() == Contents("", "", false, 0.0, false)
      ensures overlay.FadeState() == Fade(0.0, INITIAL_TARGET, false, false, false)
      ensures (overlay.left, overlay.top) == Placement(wa)
      ensures overlay.palette == theme.GetPalette()
      ensures currentStrip == 5 && strips == [5, 6, 7] && amountToAdjust == 100
      ensures mixer == m && muteItemText == "Toggle Mute"
    {
      currentStrip := 5;
      strips := [5, 6, 7];
      amountToAdjust := 100;
      overlay := new OverlayForm(wa, theme);
      mixer := m;
      muteItemText := "Toggle Mute";
    }

    method ShowOverlayVolume(name: string, gain: int, muted: bool, wa: Rect)
      requires Valid()
      modifies overlay
      ensures Valid() && ShowsVolume(name, gain, muted)
      ensures overlay.FadeState() == FadeIn(old(overlay.FadeState()))
      ensures (overlay.left, overlay.top) == Placement(wa) && overlay.palette == old(overlay.palette)
    {
      overlay.ShowVolume(name, gain, muted, wa);
    }

    method AdjustStrip(delta: int, wa: Rect)
      requires Valid()
      modifies this, overlay
      ensures Valid()
      ensures currentStrip == old(currentStrip) && muteItemText == old(muteItemText)
      ensures mixer == SetParameters(old(mixer), GainCommand(currentStrip, delta)).0
      ensures ShowsVolume(GetStripName(mixer, currentStrip),
                          PredictedGain(GetGain(old(mixer), currentStrip), delta),
                          GetMuteState(mixer, currentStrip))
      ensures overlay.FadeState() == FadeIn(old(overlay.FadeState()))
      ensures (overlay.left, overlay.top) == Placement(wa) && overlay.palette == old(overlay.palette)
    {
      var strip := currentStrip;
      var prevGain := GetGain(mixer, strip);
      var reply := SetParameters(mixer, GainCommand(strip, delta));
      mixer := reply.0;
      var gain := PredictedGain(prevGain, delta);
      var muted := GetMuteState(mixer, strip);
      var name := GetStripName(mixer, strip);
      ShowOverlayVolume(name, gain, muted, wa);
    }

    method CycleStrip(wa: Rect)
      requires Valid()
      modifies this, overlay
      ensures Valid()
      ensures currentStrip == NextStrip(strips, old(currentStrip))
      ensures mixer == old(mixer) && muteItemText == old(muteItemText)
      ensures ShowsVolume(GetStripName(mixer, currentStrip), GetGain(mixer, currentStrip),
                          GetMuteState(mixer, currentStrip))
      ensures overlay.FadeState() == FadeIn(old(overlay.FadeState()))
      ensures (overlay.left, overlay.top) == Placement(wa) && overlay.palette == old(overlay.palette)
    {
      currentStrip := strips[Succ(IndexOf(strips, currentStrip), |strips|)];
      var stripName := GetStripName(mixer, currentStrip);
      var gain := GetGain(mixer, currentStrip);
      var muted := GetMuteState(mixer, currentStrip);
      ShowOverlayVolume(stripName, gain, muted, wa);
    }

    /** The gain step a volume key asks for. */
    function KeyDelta(a: KeyAction): (d: int)
      reads this
      ensures d == amountToAdjust || d == -amountToAdjust
      ensures amountToAdjust > 0 ==> (d > 0 <==> a == VolumeUp)
    {
      if a == VolumeUp then amountToAdjust else -amountToAdjust
    }

    /** The low-level keyboard hook. The key code is the vkCode field of
        the KBDLLHOOKSTRUCT behind lParam. */
    method HookCallback(nCode: int, wParam: int, vkCode: int, wa: Rect) returns (r: HookResult)
      requires Valid()
      modifies this, overlay
      ensures Valid()
      ensures r == Consumed <==> Dispatch(nCode, wParam, vkCode) != PassOn
      ensures muteItemText == old(muteItemText)
      ensures var a := Dispatch(nCode, wParam, vkCode);
        (a == VolumeUp || a == VolumeDown) ==>
          currentStrip == old(currentStrip)
          && mixer == SetParameters(old(mixer), GainCommand(currentStrip, KeyDelta(a))).0
          && ShowsVolume(GetStripName(mixer, currentStrip),
                         PredictedGain(GetGain(old(mixer), currentStrip), KeyDelta(a)),
                         GetMuteState(mixer, currentStrip))
      ensures Dispatch(nCode, wParam, vkCode) == Cycle ==>
        currentStrip == NextStrip(strips, old(currentStrip)) && mixer == old(mixer)
        && ShowsVolume(GetStripName(mixer, currentStrip), GetGain(mixer, currentStrip),
                       GetMuteState(mixer, currentStrip))
      ensures Dispatch(nCode, wParam, vkCode) != PassOn ==>
        overlay.FadeState() == FadeIn(old(overlay.FadeState()))
        && (overlay.left, overlay.top) == Placement(wa)
      ensures Dispatch(nCode, wParam, vkCode) == PassOn ==>
        currentStrip == old(currentStrip) && mixer == old(mixer)
        && overlay.Shown() == old(overlay.Shown())
        && overlay.FadeState() == old(overlay.FadeState())
        && (overlay.left, overlay.top) == old((overlay.left, overlay.top))
      ensures overlay.palette == old(overlay.palette)
    {
      var a := Dispatch(nCode, wParam, vkCode);
      if a == VolumeUp || a == VolumeDown {
        AdjustStrip(KeyDelta(a), wa);
        r := Consumed;
      } else if a == Cycle {
        CycleStrip(wa);
        r := Consumed;
      } else {
        r := CallNext;
      }
    }

    /** The Toggle Mute menu item. */
    method ToggleMute(wa: Rect)
      requires Valid()
      modifies this, overlay
      ensures Valid()
      ensures currentStrip == old(currentStrip) && muteItemText == old(muteItemText)
      ensures var wasMuted := GetMuteState(old(mixer), currentStrip);
        && mixer == SetParameters(old(mixer), MuteCommand(currentStrip, !wasMuted)).0
        && ShowsVolume(GetStripName(mixer, currentStrip), GetGain(mixer, currentStrip), !wasMuted)
      ensures overlay.FadeState() == FadeIn(old(overlay.FadeState()))
      ensures (overlay.left, overlay.top) == Placement(wa) && overlay.palette == old(overlay.palette)
    {
      var currentMute := GetMuteState(mixer, currentStrip);
      var reply := SetParameters(mixer, MuteCommand(currentStrip, !currentMute));
      mixer := reply.0;
      var gain := GetGain(mixer, currentStrip);
      var name := GetStripName(mixer, currentStrip);
      ShowOverlayVolume(name, gain, !currentMute, wa);
    }

    /** The context menu's Opening handler: relabel the Toggle Mute item. */
    method OnMenuOpening()
      modifies this`muteItemText
      ensures muteItemText == MuteMenuLabel(GetMuteState(mixer, currentStrip),
                                            GetStripName(mixer, currentStrip))
    {
      var isMuted := GetMuteState(mixer, currentStrip);
      var stripName := GetStripName(mixer, currentStrip);
      var action := if isMuted then "Unmute" else "Mute";
      muteItemText := action + " " + stripName;
    }
  }
}
