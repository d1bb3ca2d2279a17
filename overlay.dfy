/** The on-screen overlay: what it shows (title, subtitle, level bar,
    speaker icon), where it is placed, and the opacity state machine
    driven by a 16 ms fade timer and a 1400 ms hold timer.

    Gains are integers in hundredths of a dB; opacity is a real. */
module Overlay {
  import opened Text
  import opened Theme
  import opened Gain

  const FORM_WIDTH := 360
  const FORM_HEIGHT := 82
  /** Gap between the overlay and the bottom of the working area. */
  const BOTTOM_MARGIN := 40

  const FADE_STEP: real := 0.08
  /** The opacity the overlay fades in to. */
  const SHOWN_OPACITY: real := 0.95
  /** FadeInAndShow never starts a fade-in below this opacity. */
  const MIN_SHOW_OPACITY: real := 0.1
  /** The form's initial target, overwritten by the first FadeInAndShow. */
  const INITIAL_TARGET: real := 0.88

  /** Paint layout, in pixels. */
  const MARGIN := 10
  const ICON_SIZE: nat := 28
  const TEXT_GAP := 8
  const BAR_HEIGHT := 6

  function Min(a: real, b: real): real { if a <= b then a else b }
  function Max(a: real, b: real): real { if a >= b then a else b }

  // ---------------------------------------------------------------
  // Placement
  // ---------------------------------------------------------------

  /** A screen rectangle (System.Drawing.Rectangle). */
  datatype Rect = Rect(x: int, y: int, width: int, height: int) {
    function Right(): int { x + width }
    function Bottom(): int { y + height }
  }

  /** C#'s a / 2 on ints, which truncates toward zero. */
  function TruncHalf(a: int): (q: int)
    ensures a >= 0 ==> 0 <= 2 * q <= a < 2 * q + 2
    ensures a < 0 ==> 2 * q - 2 < a <= 2 * q <= 0
  {
    if a >= 0 then a / 2 else -((-a) / 2)
  }

  /** Position(): the overlay's top-left corner in the working area of
      the monitor under the cursor. */
  function Placement(wa: Rect): (p: (int, int))
    // centred horizontally; an odd pixel goes to the right-hand gap
    // when the area is wider than the form, to the left one otherwise
    ensures var gapLeft := p.0 - wa.x;
      var gapRight := wa.Right() - (p.0 + FORM_WIDTH);
      -1 <= gapLeft - gapRight <= 1
      && (wa.width >= FORM_WIDTH ==> gapLeft <= gapRight)
      && (wa.width <= FORM_WIDTH ==> gapLeft >= gapRight)
    // never above the working area
    ensures p.1 >= wa.y
    // bottom edge BOTTOM_MARGIN above the bottom of the area when it fits
    ensures wa.height >= FORM_HEIGHT + BOTTOM_MARGIN ==>
      p.1 + FORM_HEIGHT + BOTTOM_MARGIN == wa.Bottom()
    ensures wa.height < FORM_HEIGHT + BOTTOM_MARGIN ==> p.1 == wa.y
  {
    var x := wa.x + TruncHalf(wa.width - FORM_WIDTH);
    var y := wa.Bottom() - FORM_HEIGHT - BOTTOM_MARGIN;
    (x, if y < wa.y then wa.y else y)
  }

  // ---------------------------------------------------------------
  // Text and level
  // ---------------------------------------------------------------

  /** NormalizeDb: the gain clamped to [-60, 12] dB, mapped linearly
      onto [0, 1]. */
  function NormalizeDb(gain: int): (level: real)
    ensures 0.0 <= level <= 1.0
    ensures gain <= MIN_GAIN ==> level == 0.0
    ensures gain >= MAX_GAIN ==> level == 1.0
    ensures MIN_GAIN <= gain <= MAX_GAIN ==>
      level * (MAX_GAIN - MIN_GAIN) as real == (gain - MIN_GAIN) as real
  {
    var clamped := Clamp(gain, MIN_GAIN, MAX_GAIN);
    (clamped - MIN_GAIN) as real / (MAX_GAIN - MIN_GAIN) as real
  }

  lemma NormalizeDbMonotone(a: int, b: int)
    requires a <= b
    ensures NormalizeDb(a) <= NormalizeDb(b)
  {
  }

  /** Math.Round of a value given in hundredths: the nearest integer,
      halves going to the even neighbour. */
  function RoundHalfEven(c: int): (k: int)
    ensures -50 <= c - 100 * k <= 50
    ensures c - 100 * k == 50 || c - 100 * k == -50 ==> k % 2 == 0
  {
    var q := c / 100;
    var r := c % 100;
    if r < 50 then q
    else if r > 50 then q + 1
    else if q % 2 == 0 then q
    else q + 1
  }

  /** The rounding is the only integer that satisfies its contract. */
  lemma RoundHalfEvenUnique(c: int, k: int)
    requires -50 <= c - 100 * k <= 50
    requires c - 100 * k == 50 || c - 100 * k == -50 ==> k % 2 == 0
    ensures k == RoundHalfEven(c)
  {
  }

  /** FormatDb: the rounded gain, with a '+' exactly when it is
      positive, followed by " dB". */
  function FormatDb(gain: int): (s: string)
    ensures |s| >= 4 && s[|s| - 3..] == " dB"
    ensures s[0] == '+' <==> RoundHalfEven(gain) > 0
    ensures var start := if RoundHalfEven(gain) > 0 then 1 else 0;
      ParseInt(s[start..]) == Some((RoundHalfEven(gain), " dB"))
  {
    var k := RoundHalfEven(gain);
    var num := IntText(k);
    var s := (if k > 0 then "+" else "") + num + " dB";
    ParseIntText(k, " dB");
    assert s[if k > 0 then 1 else 0..] == num + " dB";
    s
  }

  /** FormatDb as the source writes it. Math.Round returns a double that
      keeps the sign of its argument, so a gain in [-0.5, 0) dB rounds to
      negative zero, and .NET prints a minus sign for it. */
  function FormatDbAsWritten(gain: int): (s: string)
    ensures |s| >= 4 && s[|s| - 3..] == " dB"
    ensures s[0] == '+' <==> RoundHalfEven(gain) > 0
    ensures s[0] == '-' <==> gain < 0 && RoundHalfEven(gain) <= 0
  {
    var k := RoundHalfEven(gain);
    var negativeZero := k == 0 && gain < 0;
    if k > 0 then "+" + IntText(k) + " dB"
    else if negativeZero then "-0 dB"
    else IntText(k) + " dB"
  }

  /** A gain just below zero reads "-0 dB"; FormatDb shows it as "0 dB". */
  lemma NegativeZeroShown(gain: int)
    requires -50 <= gain < 0
    ensures FormatDbAsWritten(gain) == "-0 dB"
    ensures FormatDb(gain) == "0 dB"
  {
    assert RoundHalfEven(gain) == 0;
    assert IntText(0) == "0";
  }

  /** Everywhere else the two agree. */
  lemma FormatDbAsWrittenAgrees(gain: int)
    requires gain < -50 || gain >= 0
    ensures FormatDbAsWritten(gain) == FormatDb(gain)
  {
    assert RoundHalfEven(gain) != 0 || gain >= 0;
  }

  /** The subtitle ShowVolume sets. */
  function VolumeSubtitle(gain: int, muted: bool): (s: string)
    ensures s == "Muted" <==> muted
    ensures !muted ==> s == FormatDb(gain)
  {
    if muted then "Muted" else FormatDb(gain)
  }

  // ---------------------------------------------------------------
  // Speaker icon and level bar (the arithmetic of OnPaint)
  // ---------------------------------------------------------------

  /** How many sound waves the speaker icon shows for a level. */
  function WaveCount(level: real): (n: nat)
    ensures n <= 3
    ensures n == 0 <==> level < 0.08
    ensures n == 1 <==> 0.08 <= level < 0.35
    ensures n == 2 <==> 0.35 <= level < 0.7
    ensures n == 3 <==> level >= 0.7
  {
    if level < 0.08 then 0 else if level < 0.35 then 1 else if level < 0.7 then 2 else 3
  }

  lemma WaveCountMonotone(a: real, b: real)
    requires a <= b
    ensures WaveCount(a) <= WaveCount(b)
  {
  }

  /** The wave count in terms of the gain: none below -54.24 dB, one
      below -34.80 dB, two below -9.60 dB, three from there up. */
  lemma WaveCountOfGain(gain: int)
    ensures WaveCount(NormalizeDb(gain)) ==
      if gain < -5424 then 0 else if gain < -3480 then 1 else if gain < -960 then 2 else 3
  {
    var level := NormalizeDb(gain);
    var c := Clamp(gain, MIN_GAIN, MAX_GAIN);
    assert level * 7200.0 == (c + 6000) as real;
  }

  /** Alpha of the i-th wave (counting from 1), capped at 255. */
  function WaveAlpha(i: nat): (a: int)
    ensures 0 < a <= 255
  {
    if 160 + i * 22 > 255 then 255 else 160 + i * 22
  }

  /** The cap never applies to the three waves drawn, and each wave is
      more opaque than the one inside it. */
  lemma WaveAlphaIncreasing(i: nat, j: nat)
    requires 1 <= i < j <= 3
    ensures WaveAlpha(i) < WaveAlpha(j) < 255
  {
  }

  /** One sound-wave arc: its alpha and the radii of its bounding box. */
  datatype Wave = Wave(alpha: int, radiusX: real, radiusY: real)

  function WaveArc(w: nat, h: nat, i: nat): Wave {
    Wave(WaveAlpha(i), w as real * (0.095 * i as real), h as real * (0.5 * i as real))
  }

  /** How far right of the icon's left edge the drawing reaches: the
      horn ends at 0.58 w; wave i reaches 0.6 w + 0.19 w i. */
  function IconExtent(w: nat, waves: nat): real {
    if waves == 0 then 0.58 * w as real else w as real * (0.6 + 0.19 * waves as real)
  }

  /** Math.Ceiling. */
  function Ceiling(r: real): (c: int)
    ensures r <= c as real < r + 1.0
  {
    if r.Floor as real == r then r.Floor else r.Floor + 1
  }

  /** Width of the icon column: Ceiling(28 * 1.3). */
  function IconColumn(): (c: int)
    ensures c == 37
    ensures ICON_SIZE as real * 1.3 <= c as real < ICON_SIZE as real * 1.3 + 1.0
  {
    Ceiling(ICON_SIZE as real * 1.3)
  }

  /** DrawSpeakerIcon for a w-by-h box: the waves it draws and the width
      it reports as used. A muted icon gets the X and no waves. */
  method DrawSpeakerIcon(w: nat, h: nat, muted: bool, level: real)
    returns (waves: seq<Wave>, used: int)
    ensures |waves| == if muted then 0 else WaveCount(level)
    ensures forall i :: 0 <= i < |waves| ==> waves[i] == WaveArc(w, h, i + 1)
    ensures used == Ceiling(IconExtent(w, |waves|))
  {
    var right := 0.0;
    right := Max(right, w as real * 0.58);
    waves := [];
    if !muted {
      var count := WaveCount(level);
      var cx := w as real * 0.60;
      var i := 1;
      while i <= count
        invariant 1 <= i <= count + 1
        invariant |waves| == i - 1
        invariant forall k :: 0 <= k < |waves| ==> waves[k] == WaveArc(w, h, k + 1)
        invariant right == IconExtent(w, i - 1)
      {
        var rx := w as real * (0.095 * i as real);
        var ry := h as real * (0.5 * i as real);
        var a := WaveAlpha(i);
        waves := waves + [Wave(a, rx, ry)];
        right := Max(right, cx + rx * 2.0);
        i := i + 1;
      }
    }
    used := Ceiling(right);
  }

  /** However many waves are drawn, the 28-pixel icon stays inside its
      column, so it never runs into the text. */
  lemma IconFitsColumn(waves: nat)
    requires waves <= 3
    ensures Ceiling(IconExtent(ICON_SIZE, waves)) <= IconColumn()
  {
    assert IconColumn() == 37;
    assert IconExtent(ICON_SIZE, waves) <= 32.76;
  }

  /** Left edge of the text and of the bar. */
  function TextLeft(): int {
    MARGIN + IconColumn() + TEXT_GAP
  }

  /** Width of the bar track for a client area of the given width. */
  function BarWidth(clientWidth: int): (w: int)
    ensures TextLeft() + w + MARGIN == clientWidth
    ensures w == clientWidth - 65
  {
    clientWidth - TextLeft() - MARGIN
  }

  /** C#'s (int) cast of a real, which truncates toward zero. */
  function Truncate(r: real): (n: int)
    ensures r >= 0.0 ==> 0 <= n && n as real <= r < n as real + 1.0
    ensures r < 0.0 ==> n <= 0 && n as real - 1.0 < r <= n as real
  {
    if r >= 0.0 then r.Floor else -((-r).Floor)
  }

  /** Width of the bar's fill: the level, clamped to [0, 1], as a share
      of the track, truncated. */
  function FillWidth(barW: int, level: real): (fill: int)
    ensures barW >= 0 ==> 0 <= fill <= barW
    ensures fill > 0 ==> barW > 0 && level > 0.0
    ensures barW >= 0 && level >= 1.0 ==> fill == barW
    ensures barW >= 0 && 0.0 <= level <= 1.0 ==>
      fill as real <= barW as real * level < fill as real + 1.0
  {
    var share := if level < 0.0 then 0.0 else if level > 1.0 then 1.0 else level;
    Truncate(barW as real * share)
  }

  /** What OnPaint draws of the bar: nothing, or the track and, when the
      fill is wider than zero, the fill at the track's left end. */
  datatype BarPaint = NoBar | Bar(track: Rect, fill: Option<Rect>)

  function PaintBar(showBar: bool, level: real, clientWidth: int, barY: int): (p: BarPaint)
    ensures p.Bar? <==> showBar
    ensures p.Bar? ==> p.track == Rect(TextLeft(), barY, BarWidth(clientWidth), BAR_HEIGHT)
    ensures p.Bar? && p.fill.Some? ==>
      var f := p.fill.value;
      f.x == p.track.x && f.y == p.track.y && f.height == p.track.height
      && 0 < f.width && (p.track.width >= 0 ==> f.width <= p.track.width)
    ensures p.Bar? && p.track.width >= 0 ==>
      (p.fill.None? <==> FillWidth(p.track.width, level) == 0)
    ensures p.Bar? && p.fill.Some? ==> p.fill.value.width == FillWidth(p.track.width, level)
  {
    if !showBar then NoBar
    else
      var barW := BarWidth(clientWidth);
      var fill := FillWidth(barW, level);
      var track := Rect(TextLeft(), barY, barW, BAR_HEIGHT);
      Bar(track, if fill > 0 then Some(Rect(TextLeft(), barY, fill, BAR_HEIGHT)) else None)
  }

  // ---------------------------------------------------------------
  // Opacity state machine
  // ---------------------------------------------------------------

  /** The fade-related state of the form. */
  datatype Fade = Fade(opacity: real, target: real, visible: bool,
                       fadeTimerOn: bool, hideTimerOn: bool)

  /** FadeInAndShow: show the window, aim for SHOWN_OPACITY, start from
      at least MIN_SHOW_OPACITY, (re)start both timers. */
  function FadeIn(f: Fade): (g: Fade)
    ensures g.visible && g.target == SHOWN_OPACITY
    ensures g.fadeTimerOn && g.hideTimerOn
    ensures f.opacity < MIN_SHOW_OPACITY ==> g.opacity == MIN_SHOW_OPACITY
    ensures MIN_SHOW_OPACITY <= f.opacity <= SHOWN_OPACITY ==> g.opacity == f.opacity
    ensures f.opacity > SHOWN_OPACITY ==> g.opacity == SHOWN_OPACITY
  {
    Fade(Min(SHOWN_OPACITY, Max(f.opacity, MIN_SHOW_OPACITY)), SHOWN_OPACITY, true, true, true)
  }

  /** BeginFadeOut: stop the hold timer, aim for 0, start the fade timer. */
  function FadeOut(f: Fade): (g: Fade)
    ensures g.target == 0.0 && g.fadeTimerOn && !g.hideTimerOn
    ensures g.opacity == f.opacity && g.visible == f.visible
  {
    f.(target := 0.0, fadeTimerOn := true, hideTimerOn := false)
  }

  /** The opacity one fade tick gives. */
  function Approach(o: real, t: real): (r: real)
    ensures o <= t ==> o <= r <= t
    ensures t <= o ==> t <= r <= o
    ensures r == t || r == o + FADE_STEP || r == o - FADE_STEP
    ensures r == t <==> (o <= t ==> t - o <= FADE_STEP) && (t <= o ==> o - t <= FADE_STEP)
  {
    if o < t then Min(t, o + FADE_STEP)
    else if o > t then Max(t, o - FADE_STEP)
    else o
  }

  /** StepFade: move the opacity one step toward the target; once there,
      stop the fade timer and hide the window if the target is 0. */
  function Step(f: Fade): (g: Fade)
    ensures g.target == f.target && g.hideTimerOn == f.hideTimerOn
    ensures f.opacity < f.target ==>
      f.opacity < g.opacity <= f.target && g.opacity - f.opacity <= FADE_STEP
    ensures f.opacity > f.target ==>
      f.target <= g.opacity < f.opacity && f.opacity - g.opacity <= FADE_STEP
    ensures f.opacity != f.target ==> g.visible == f.visible && g.fadeTimerOn == f.fadeTimerOn
    ensures f.opacity == f.target ==>
      g.opacity == f.opacity && !g.fadeTimerOn && (g.visible <==> f.visible && f.target > 0.0)
  {
    if f.opacity != f.target then f.(opacity := Approach(f.opacity, f.target))
    else f.(fadeTimerOn := false, visible := if f.target <= 0.0 then false else f.visible)
  }

  /** What holds between timer ticks and display calls. */
  predicate FadeInvariant(f: Fade) {
    && 0.0 <= f.opacity <= SHOWN_OPACITY
    && 0.0 <= f.target <= SHOWN_OPACITY
    // a hidden form is fully transparent and no timer runs
    && (!f.visible ==> f.opacity == 0.0 && !f.fadeTimerOn && !f.hideTimerOn)
    // a shown form is fading in/holding, or fading out
    && (f.visible ==> f.target == 0.0 || f.target == SHOWN_OPACITY)
    && (f.visible ==> (f.hideTimerOn <==> f.target == SHOWN_OPACITY))
    && (f.visible && f.target == 0.0 ==> f.fadeTimerOn)
    // with the fade timer stopped the opacity sits at the target
    && (f.visible && !f.fadeTimerOn ==> f.opacity == f.target)
  }

  lemma FadeInKeepsInvariant(f: Fade)
    requires 0.0 <= f.opacity <= SHOWN_OPACITY
    ensures FadeInvariant(FadeIn(f))
  {
  }

  lemma FadeOutKeepsInvariant(f: Fade)
    requires FadeInvariant(f) && f.hideTimerOn
    ensures FadeInvariant(FadeOut(f))
  {
  }

  lemma StepKeepsInvariant(f: Fade)
    requires FadeInvariant(f) && f.fadeTimerOn
    ensures FadeInvariant(Step(f))
  {
  }

  /** The phases the fields encode. */
  datatype Phase = Hidden | FadingIn | Held | FadingOut

  function PhaseOf(f: Fade): Phase {
    if !f.visible then Hidden
    else if f.target == 0.0 then FadingOut
    else if f.opacity < f.target then FadingIn
    else Held
  }

  /** A fade tick moves FadingIn to FadingIn or Held, keeps Held, and
      moves FadingOut to FadingOut or Hidden; it hides the window exactly
      when the opacity has already reached a target of 0. */
  lemma FadeTickPhases(f: Fade)
    requires FadeInvariant(f) && f.fadeTimerOn
    ensures PhaseOf(f) != Hidden
    ensures PhaseOf(f) == FadingIn ==> PhaseOf(Step(f)) in {FadingIn, Held}
    ensures PhaseOf(f) == Held ==> PhaseOf(Step(f)) == Held
    ensures PhaseOf(f) == FadingOut ==> PhaseOf(Step(f)) in {FadingOut, Hidden}
    ensures !Step(f).visible <==> f.opacity == 0.0 && f.target == 0.0
  {
  }

  /** The hold timer only runs while fading in or held, and its expiry
      starts the fade-out; a display call always leads to FadingIn, or
      Held when the overlay is already fully shown. */
  lemma TimerAndShowPhases(f: Fade)
    requires FadeInvariant(f)
    ensures f.hideTimerOn ==> PhaseOf(f) in {FadingIn, Held} && PhaseOf(FadeOut(f)) == FadingOut
    ensures PhaseOf(FadeIn(f)) in {FadingIn, Held}
    ensures PhaseOf(FadeIn(f)) == Held <==> f.opacity == SHOWN_OPACITY
  {
  }

  /** The opacity after n fade ticks, ignoring the timer. */
  function ApproachN(o: real, t: real, n: nat): real
    decreases n
  {
    if n == 0 then o else ApproachN(Approach(o, t), t, n - 1)
  }

  /** n ticks move the opacity n steps toward the target, and no further. */
  lemma {:induction false} ApproachNClosedForm(o: real, t: real, n: nat)
    ensures o <= t ==> ApproachN(o, t, n) == Min(t, o + FADE_STEP * n as real)
    ensures o >= t ==> ApproachN(o, t, n) == Max(t, o - FADE_STEP * n as real)
    decreases n
  {
    if n > 0 {
      ApproachNClosedForm(Approach(o, t), t, n - 1);
    }
  }

  /** From any opacity to any target in [0, SHOWN_OPACITY], twelve ticks
      suffice. */
  lemma FadeWithinTwelveTicks(o: real, t: real)
    requires 0.0 <= o <= SHOWN_OPACITY && 0.0 <= t <= SHOWN_OPACITY
    ensures ApproachN(o, t, 12) == t
  {
    ApproachNClosedForm(o, t, 12);
  }

  /** And eleven do not, from one extreme to the other. */
  lemma TwelveTicksNeeded()
    ensures ApproachN(0.0, SHOWN_OPACITY, 11) < SHOWN_OPACITY
    ensures ApproachN(SHOWN_OPACITY, 0.0, 11) > 0.0
  {
    ApproachNClosedForm(0.0, SHOWN_OPACITY, 11);
    ApproachNClosedForm(SHOWN_OPACITY, 0.0, 11);
  }

  /** n ticks of the fade timer; a stopped timer no longer ticks. */
  function FadeTicks(f: Fade, n: nat): Fade
    decreases n
  {
    if n == 0 || !f.fadeTimerOn then f else FadeTicks(Step(f), n - 1)
  }

  lemma {:induction false} FadeTicksApproach(f: Fade, n: nat)
    requires f.fadeTimerOn
    ensures var g := FadeTicks(f, n);
      && g.opacity == ApproachN(f.opacity, f.target, n)
      && g.target == f.target && g.hideTimerOn == f.hideTimerOn
      && (g.fadeTimerOn <==> n == 0 || ApproachN(f.opacity, f.target, n - 1) != f.target)
      && (g.visible <==> f.visible && (g.fadeTimerOn || f.target > 0.0))
    decreases n
  {
    if n > 0 {
      if f.opacity == f.target {
        ApproachNClosedForm(f.opacity, f.target, n);
        ApproachNClosedForm(f.opacity, f.target, n - 1);
      } else {
        FadeTicksApproach(Step(f), n - 1);
      }
    }
  }

  /** Once started, the fade timer brings the opacity to its target
      within twelve ticks. */
  lemma FadeSettles(f: Fade)
    requires FadeInvariant(f) && f.fadeTimerOn
    ensures FadeTicks(f, 12).opacity == f.target
  {
    FadeWithinTwelveTicks(f.opacity, f.target);
    FadeTicksApproach(f, 12);
  }

  /** The thirteenth tick at the latest stops the timer; it leaves the
      window hidden exactly when the target was 0. */
  lemma FadeStops(f: Fade)
    requires FadeInvariant(f) && f.fadeTimerOn
    ensures !FadeTicks(f, 13).fadeTimerOn
    ensures FadeTicks(f, 13).visible <==> f.target > 0.0
  {
    FadeWithinTwelveTicks(f.opacity, f.target);
    FadeTicksStopAt(f, 12);
  }

  /** Once n ticks have reached the target, tick n + 1 stops the timer. */
  lemma FadeTicksStopAt(f: Fade, n: nat)
    requires f.fadeTimerOn && ApproachN(f.opacity, f.target, n) == f.target
    ensures !FadeTicks(f, n + 1).fadeTimerOn
    ensures FadeTicks(f, n + 1).visible <==> f.visible && f.target > 0.0
  {
    FadeTicksApproach(f, n + 1);
  }

  lemma {:induction false} FadeTicksKeepInvariant(f: Fade, n: nat)
    requires FadeInvariant(f)
    ensures FadeInvariant(FadeTicks(f, n))
    decreases n
  {
    if n > 0 && f.fadeTimerOn {
      StepKeepsInvariant(f);
      FadeTicksKeepInvariant(Step(f), n - 1);
    }
  }

  // ---------------------------------------------------------------
  // The form
  // ---------------------------------------------------------------

  /** The displayed values. */
  datatype Contents = Contents(title: string, subtitle: string, showBar: bool,
                               level: real, muted: bool)

  class OverlayForm {
    var title: string
    var subtitle: string
    var showBar: bool
    var level: real
    var muted: bool
    var opacity: real
    var targetOpacity: real
    var visible: bool
    var fadeTimerOn: bool
    var hideTimerOn: bool
    /** Location of the form. */
    var left: int
    var top: int
    var palette: OverlayPalette

    function FadeState(): Fade
      reads this
    {
      Fade(opacity, targetOpacity, visible, fadeTimerOn, hideTimerOn)
    }

    function Shown(): Contents
      reads this
    {
      Contents(title, subtitle, showBar, level, muted)
    }

    predicate Valid()
      reads this
    {
      FadeInvariant(FadeState()) && 0.0 <= level <= 1.0
    }

    constructor (wa: Rect, theme: ThemeManager)
      ensures Valid()
      ensures Shown() == Contents("", "", false, 0.0, false)
      ensures FadeState() == Fade(0.0, INITIAL_TARGET, false, false, false)
      ensures (left, top) == Placement(wa)
      ensures palette == theme.GetPalette()
    {
      title, subtitle, showBar, level, muted := "", "", false, 0.0, false;
      opacity := 0.0;
      targetOpacity := INITIAL_TARGET;
      visible, fadeTimerOn, hideTimerOn := false, false, false;
      var p := Placement(wa);
      left, top := p.0, p.1;
      palette := theme.GetPalette();
    }

    method Position(wa: Rect)
      modifies this`left, this`top
      ensures (left, top) == Placement(wa)
    {
      var x := wa.x + TruncHalf(wa.width - FORM_WIDTH);
      var y := wa.Bottom() - FORM_HEIGHT - BOTTOM_MARGIN;
      if y < wa.y {
        y := wa.y;
      }
      left, top := x, y;
    }

    method ShowVolume(stripName: string, gain: int, isMuted: bool, wa: Rect)
      requires Valid()
      modifies this
      ensures Valid()
      ensures Shown() == Contents(stripName, VolumeSubtitle(gain, isMuted), true,
                                  NormalizeDb(gain), isMuted)
      ensures FadeState() == FadeIn(old(FadeState()))
      ensures (left, top) == Placement(wa) && palette == old(palette)
    {
      FadeInKeepsInvariant(FadeState());
      title := stripName;
      subtitle := if isMuted then "Muted" else FormatDb(gain);
      muted := isMuted;
      showBar := true;
      level := NormalizeDb(gain);
      Position(wa);
      FadeInAndShow();
    }

    method ShowMessage(message: string, wa: Rect)
      requires Valid()
      modifies this
      ensures Valid()
      ensures Shown() == old(Shown()).(title := message, subtitle := "", showBar := false,
                                       muted := false)
      ensures FadeState() == FadeIn(old(FadeState()))
      ensures (left, top) == Placement(wa) && palette == old(palette)
    {
      FadeInKeepsInvariant(FadeState());
      title := message;
      subtitle := "";
      showBar := false;
      muted := false;
      Position(wa);
      FadeInAndShow();
    }

    method FadeInAndShow()
      modifies this`opacity, this`targetOpacity, this`visible, this`fadeTimerOn,
               this`hideTimerOn
      ensures FadeState() == FadeIn(old(FadeState()))
    {
      hideTimerOn := false;
      fadeTimerOn := false;
      if !visible {
        visible := true;
      }
      targetOpacity := SHOWN_OPACITY;
      opacity := Min(targetOpacity, Max(opacity, MIN_SHOW_OPACITY));
      fadeTimerOn := true;
      hideTimerOn := true;
    }

    method BeginFadeOut()
      modifies this`targetOpacity, this`fadeTimerOn, this`hideTimerOn
      ensures FadeState() == FadeOut(old(FadeState()))
    {
      hideTimerOn := false;
      targetOpacity := 0.0;
      fadeTimerOn := true;
    }

    method StepFade()
      modifies this`opacity, this`visible, this`fadeTimerOn
      ensures FadeState() == Step(old(FadeState()))
    {
      var step := FADE_STEP;
      if opacity < targetOpacity {
        opacity := Min(targetOpacity, opacity + step);
      } else if opacity > targetOpacity {
        opacity := Max(targetOpacity, opacity - step);
      } else {
        fadeTimerOn := false;
        if targetOpacity <= 0.0 {
          visible := false;
        }
      }
    }

    /** The hold timer's Tick handler; the timer only ticks while running. */
    method HideTimerTick()
      requires Valid() && hideTimerOn
      modifies this
      ensures Valid()
      ensures FadeState() == FadeOut(old(FadeState()))
      ensures Shown() == old(Shown()) && (left, top) == old((left, top)) && palette == old(palette)
    {
      FadeOutKeepsInvariant(FadeState());
      BeginFadeOut();
    }

    /** The fade timer's Tick handler; the timer only ticks while running. */
    method FadeTimerTick()
      requires Valid() && fadeTimerOn
      modifies this
      ensures Valid()
      ensures FadeState() == Step(old(FadeState()))
      ensures Shown() == old(Shown()) && (left, top) == old((left, top)) && palette == old(palette)
    {
      StepKeepsInvariant(FadeState());
      StepFade();
    }

    /** ThemeChanged subscriber: take the new palette. */
    method OnThemeChanged(theme: ThemeManager)
      modifies this`palette
      ensures palette == theme.GetPalette()
    {
      palette := theme.GetPalette();
    }
  }
}
