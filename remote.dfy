/** The Voicemeeter remote API as the tray sees it: the strips' gain,
    mute and label, read with result codes, and written by parameter
    scripts such as "Strip[5].Gain += 1" or "Strip[5].mute = 1".

    Gain and the mute float are integers in hundredths (100 = 1.0). */
module Remote {
  import opened Text
  import opened Gain

  /** Result code of a successful call. */
  const OK := 0
  /** VBVMR_GetParameter*: unknown parameter. */
  const UNKNOWN_PARAMETER := -3
  /** VBVMR_SetParameters: error in line 1 of the script. */
  const SCRIPT_ERROR := 1

  datatype Channel = Channel(gain: int, mute: int, name: string)

  /** The strips the running mixer has, by index. */
  datatype Mixer = Mixer(strips: map<int, Channel>)

  /** The reply of a read call: result code 0 and the value, or an error code. */
  datatype Read<T> = Ok(value: T) | Failed(code: int)

  /** VBVMR_GetParameterFloat("Strip[n].Gain"). */
  function ReadGain(m: Mixer, n: int): (r: Read<int>)
    ensures r.Ok? <==> n in m.strips
    ensures r.Ok? ==> r.value == m.strips[n].gain
  {
    if n in m.strips then Ok(m.strips[n].gain) else Failed(UNKNOWN_PARAMETER)
  }

  /** VBVMR_GetParameterFloat("Strip[n].Mute"). */
  function ReadMute(m: Mixer, n: int): (r: Read<int>)
    ensures r.Ok? <==> n in m.strips
    ensures r.Ok? ==> r.value == m.strips[n].mute
  {
    if n in m.strips then Ok(m.strips[n].mute) else Failed(UNKNOWN_PARAMETER)
  }

  /** VBVMR_GetParameterStringA("Strip[n].Label"). */
  function ReadLabel(m: Mixer, n: int): (r: Read<string>)
    ensures r.Ok? <==> n in m.strips
    ensures r.Ok? ==> r.value == m.strips[n].name
  {
    if n in m.strips then Ok(m.strips[n].name) else Failed(UNKNOWN_PARAMETER)
  }

  /** The two script commands the tray sends. */
  datatype Command = AdjustGain(strip: int, delta: int) | SetMute(strip: int, mute: bool)

  /** "Strip[n].Gain += d" for d >= 0, "Strip[n].Gain -= |d|" otherwise. */
  function GainCommand(strip: int, delta: int): (s: string)
    ensures var p := "Strip[" + IntText(strip) + "].Gain ";
      p <= s && |s| > |p| + 3
      && (s[|p|] == '+' <==> delta >= 0) && (s[|p|] == '-' <==> delta < 0)
  {
    var p := "Strip[" + IntText(strip) + "].Gain ";
    var s := "Strip[" + IntText(strip) + GainTail(delta);
    assert GainTail(delta)[..7] == "].Gain ";
    assert s == p + GainTail(delta)[7..];
    s
  }

  function GainTail(delta: int): (s: string)
    ensures s != [] && s[0] == ']'
  {
    if delta >= 0 then "].Gain += " + CentiText(delta) else "].Gain -= " + CentiText(-delta)
  }

  /** "Strip[n].mute = 1" to mute, "Strip[n].mute = 0" to unmute. */
  function MuteCommand(strip: int, mute: bool): (s: string)
    ensures var p := "Strip[" + IntText(strip) + "].mute = ";
      p <= s && |s| == |p| + 1 && (s[|p|] == '1' <==> mute) && (s[|p|] == '0' <==> !mute)
  {
    "Strip[" + IntText(strip) + "].mute = " + (if mute then "1" else "0")
  }

  function StripPrefix(p: string, s: string): (r: Option<string>)
    ensures r.Some? <==> p <= s
    ensures r.Some? ==> s == p + r.value
  {
    if p <= s then Some(s[|p|..]) else None
  }

  /** How the mixer reads one of those commands. */
  function ParseCommand(s: string): Option<Command> {
    match StripPrefix("Strip[", s)
    case None => None
    case Some(s1) =>
      match ParseInt(s1)
      case None => None
      case Some((n, s2)) => ParseAction(n, s2)
  }

  /** The part of a command after the strip index. */
  function ParseAction(n: int, s: string): Option<Command> {
    match StripPrefix("].Gain += ", s)
    case Some(amount) =>
      (match ParseCenti(amount)
       case Some(c) => Some(AdjustGain(n, c))
       case None => None)
    case None =>
      match StripPrefix("].Gain -= ", s)
      case Some(amount) =>
        (match ParseCenti(amount)
         case Some(c) => Some(AdjustGain(n, -(c as int)))
         case None => None)
      case None =>
        if s == "].mute = 1" then Some(SetMute(n, true))
        else if s == "].mute = 0" then Some(SetMute(n, false))
        else None
  }

  lemma PrefixOfAppend(p: string, r: string)
    ensures StripPrefix(p, p + r) == Some(r)
  {
    assert (p + r)[..|p|] == p;
  }

  /** Reading "Strip[n]" followed by tail comes down to reading tail. */
  lemma ParseCommandStrip(n: int, tail: string)
    requires tail != [] && tail[0] == ']'
    ensures ParseCommand("Strip[" + IntText(n) + tail) == ParseAction(n, tail)
  {
    assert "Strip[" + IntText(n) + tail == "Strip[" + (IntText(n) + tail);
    PrefixOfAppend("Strip[", IntText(n) + tail);
    ParseIntText(n, tail);
  }

  lemma GainTailRoundTrip(strip: int, delta: int)
    ensures ParseAction(strip, GainTail(delta)) == Some(AdjustGain(strip, delta))
  {
    if delta >= 0 {
      RaiseTailRoundTrip(strip, delta);
    } else {
      LowerTailRoundTrip(strip, -delta);
    }
  }

  /** "].Gain += c" reads back as a raise by c. */
  lemma RaiseTailRoundTrip(strip: int, c: nat)
    ensures ParseAction(strip, "].Gain += " + CentiText(c)) == Some(AdjustGain(strip, c))
  {
    ParseCentiText(c);
    PrefixOfAppend("].Gain += ", CentiText(c));
  }

  /** "].Gain -= c" reads back as a cut by c. */
  lemma LowerTailRoundTrip(strip: int, c: nat)
    ensures ParseAction(strip, "].Gain -= " + CentiText(c)) == Some(AdjustGain(strip, -(c as int)))
  {
    var amount := CentiText(c);
    var tail := "].Gain -= " + amount;
    ParseCentiText(c);
    assert !("].Gain += " <= tail) by {
      assert tail[7] != "].Gain += "[7];
    }
    PrefixOfAppend("].Gain -= ", amount);
  }

  /** The mixer reads a gain command as the adjustment it was built from. */
  lemma GainCommandRoundTrip(strip: int, delta: int)
    ensures ParseCommand(GainCommand(strip, delta)) == Some(AdjustGain(strip, delta))
  {
    GainTailRoundTrip(strip, delta);
    ParseCommandStrip(strip, GainTail(delta));
  }

  /** The mixer reads a mute command as the state it was built from. */
  lemma MuteCommandRoundTrip(strip: int, mute: bool)
    ensures ParseCommand(MuteCommand(strip, mute)) == Some(SetMute(strip, mute))
  {
    var tail := if mute then "].mute = 1" else "].mute = 0";
    assert !("].Gain += " <= tail) by {
      assert tail[2] != "].Gain += "[2];
    }
    assert !("].Gain -= " <= tail) by {
      assert tail[2] != "].Gain -= "[2];
    }
    assert MuteCommand(strip, mute) == "Strip[" + IntText(strip) + tail;
    ParseCommandStrip(strip, tail);
  }

  /** What a command does to a strip the mixer has: the gain moves by
      delta and stays within [-60, 12] dB; mute sets the float to 1 or 0. */
  function Apply(m: Mixer, cmd: Command): (m': Mixer)
    requires cmd.strip in m.strips
    ensures m'.strips.Keys == m.strips.Keys
    ensures forall k :: k in m.strips && k != cmd.strip ==> m'.strips[k] == m.strips[k]
    ensures var (before, after) := (m.strips[cmd.strip], m'.strips[cmd.strip]);
      after.name == before.name
      && (cmd.AdjustGain? ==>
            after.mute == before.mute
            && MIN_GAIN <= after.gain <= MAX_GAIN
            && (MIN_GAIN <= before.gain + cmd.delta <= MAX_GAIN ==> after.gain == before.gain + cmd.delta)
            && (before.gain + cmd.delta < MIN_GAIN ==> after.gain == MIN_GAIN)
            && (before.gain + cmd.delta > MAX_GAIN ==> after.gain == MAX_GAIN))
      && (cmd.SetMute? ==>
            after.gain == before.gain
            && (after.mute > 50 <==> cmd.mute)
            && (after.mute == 100 || after.mute == 0))
  {
    var ch := m.strips[cmd.strip];
    match cmd
    case AdjustGain(n, d) =>
      Mixer(m.strips[n := ch.(gain := Clamp(ch.gain + d, MIN_GAIN, MAX_GAIN))])
    case SetMute(n, b) =>
      Mixer(m.strips[n := ch.(mute := if b then 100 else 0)])
  }

  /** VBVMR_SetParametersW: the mixer after the script, and the result code.
      A script it cannot read, or one naming a strip it does not have,
      fails and changes nothing. */
  function SetParameters(m: Mixer, script: string): (r: (Mixer, int))
    ensures r.1 == OK || r.0 == m
    ensures r.1 == OK <==> ParseCommand(script).Some? && ParseCommand(script).value.strip in m.strips
    ensures r.1 == OK ==>
      ParseCommand(script).Some? && ParseCommand(script).value.strip in m.strips
      && r.0 == Apply(m, ParseCommand(script).value)
    ensures r.1 == OK || r.1 == SCRIPT_ERROR
  {
    match ParseCommand(script)
    case None => (m, SCRIPT_ERROR)
    case Some(cmd) => if cmd.strip in m.strips then (Apply(m, cmd), OK) else (m, SCRIPT_ERROR)
  }
}
