# Voicemeeter media controls — a Dafny model

The program is a Windows tray utility. It takes over the keyboard's volume
keys and turns them into commands for one Voicemeeter input strip:

- Volume Up and Volume Down move the strip's gain by 1 dB.
- Volume Mute cycles through the virtual inputs 5, 6 and 7.

After each key, a small borderless overlay fades in near the bottom of the
screen. It shows the strip's name, its gain (or "Muted"), a level bar and a
speaker icon, stays for a while, then fades out. The tray menu has a
"Toggle Mute" item whose text names the current strip. The overlay's colours
follow the Windows light/dark app theme.

This project models the three core classes:

- `OverlayForm` is `Overlay` in `overlay.dfy`.
- `Tray` is `TrayLogic` in `tray.dfy`, with the mixer it talks to in `Remote`
  (`remote.dfy`).
- `ThemeManager` is `Theme` in `theme.dfy`.

Two support modules hold shared code:

- `Text` (`text.dfy`) prints and parses integers and decimal amounts.
- `Gain` (`gain.dfy`) holds the [-60, 12] dB range and the clamp.

## Representation

- Gains are integers in hundredths of a dB: -600 is -6 dB. This makes
  `Math.Round` (half to even), the `+= 1` / `-= 1` command text and its
  parsing exact. The mute float is in hundredths too: 100 is 1.0, and a
  strip counts as muted above 50.
- Opacity, the level and the icon geometry are reals.
- The overlay and the theme manager are classes whose fields the methods
  update in place. Each method is proved against a function of the old state:
  - `FadeIn`, `FadeOut` and `Step` for the fade state;
  - `Placement` for the location;
  - `PreferenceChanged` for the theme cache.
- `FadeInvariant` holds between every timer tick and display call.
- The two timers are boolean fields. A tick is a method that requires its
  timer to be running.
- The Voicemeeter DLL is a value: a map from strip index to gain, mute and
  label.
  - Reads return a result code.
  - `SetParameters` parses the script text the tray builds. A script it
    cannot read, or one naming a strip the mixer does not have, fails and
    changes nothing.
  - The tray's fields `currentStrip`, `mixer` and `muteItemText` are updated
    by its methods.
- The working area of the monitor under the cursor is a parameter of the
  methods that place the overlay. The registry value a theme read returns is a
  parameter too.

## Model

| member | source | states |
|---|---|---|
| Gain.Clamp | voicemeeter-media-controls/OverlayForm.cs:251 | the result lies in [lo, hi]; it equals v inside the range and the nearer bound outside it |
| Text.ParseIntText | voicemeeter-media-controls/Tray.cs:150-152 | an int printed as C# interpolation prints it reads back as the same int, whatever non-digit text follows |
| Text.ParseNatText | voicemeeter-media-controls/Tray.cs:150-152 | a natural number's decimal digits read back as that number |
| Text.ParseNegativeText | voicemeeter-media-controls/Tray.cs:150-152 | a minus sign followed by the digits of n reads back as -n |
| Text.NatTextValue | voicemeeter-media-controls/Tray.cs:150-152 | the digits printed for n denote n |
| Text.DigitSpanOfDigits | voicemeeter-media-controls/Tray.cs:150-152 | the digit run at the start of a number followed by a non-digit is exactly the number's digits |
| Text.DigitSpan | voicemeeter-media-controls/Tray.cs:150-152 | the length of the longest digit prefix: all of it are digits and the next character is not |
| Text.ParseCentiText | voicemeeter-media-controls/Tray.cs:150-153 | an amount printed as .NET prints a float with at most two decimals ("1", "0.5", "2.25") reads back as the same amount |
| Text.CentiText | voicemeeter-media-controls/Tray.cs:151-153 | a step amount prints as .NET prints a float: it starts with a digit, and it is the bare whole number exactly when it has no hundredths |
| Text.IntText | voicemeeter-media-controls/Tray.cs:151 | the printed int is non-empty and starts with a minus sign or a digit |
| Overlay.Placement | voicemeeter-media-controls/OverlayForm.cs:62-70 | the overlay is centred in the working area with the odd pixel on the side C#'s truncating division gives; its bottom edge is 40 px above the area's bottom when the area is tall enough, and it is never above the area's top |
| Overlay.TruncHalf | voicemeeter-media-controls/OverlayForm.cs:65 | C#'s integer a / 2 truncates toward zero: bounds on 2q for both signs |
| Overlay.NormalizeDb | voicemeeter-media-controls/OverlayForm.cs:249-253 | the level is in [0, 1], 0 at or below -60 dB, 1 at or above 12 dB, and linear in between |
| Overlay.NormalizeDbMonotone | voicemeeter-media-controls/OverlayForm.cs:249-253 | a louder gain never gives a lower level |
| Overlay.RoundHalfEven | voicemeeter-media-controls/OverlayForm.cs:257 | Math.Round: the result is within half a unit of the value, and a tie goes to the even neighbour |
| Overlay.RoundHalfEvenUnique | voicemeeter-media-controls/OverlayForm.cs:257 | only one integer meets that contract, so the rounding is fully determined by it |
| Overlay.FormatDb | voicemeeter-media-controls/OverlayForm.cs:255-259 | the text ends in " dB"; it starts with '+' exactly when the rounded gain is positive; the number after the optional '+' reads back as the rounded gain |
| Overlay.FormatDbAsWritten | voicemeeter-media-controls/OverlayForm.cs:255-259 | the code as written: the text ends in " dB", starts with '+' exactly when the rounded gain is positive, and starts with '-' exactly when the gain is negative and does not round to a positive value (so also for negative zero) |
| Overlay.NegativeZeroShown | voicemeeter-media-controls/OverlayForm.cs:255-259 | a gain in [-0.5, 0) dB is shown as "-0 dB" by the code as written, while FormatDb shows "0 dB" |
| Overlay.FormatDbAsWrittenAgrees | voicemeeter-media-controls/OverlayForm.cs:255-259 | for every other gain the code as written and FormatDb give the same text |
| Overlay.VolumeSubtitle | voicemeeter-media-controls/OverlayForm.cs:75 | the subtitle is "Muted" exactly when muted, and the FormatDb text otherwise |
| Overlay.WaveCount | voicemeeter-media-controls/OverlayForm.cs:230 | at most 3 waves: none exactly below level 0.08, one exactly in [0.08, 0.35), two exactly in [0.35, 0.7), three exactly from 0.7 |
| Overlay.WaveCountMonotone | voicemeeter-media-controls/OverlayForm.cs:230 | a higher level never shows fewer waves |
| Overlay.WaveCountOfGain | voicemeeter-media-controls/OverlayForm.cs:230 | the wave count in dB: 0 below -54.24, 1 below -34.80, 2 below -9.60, 3 from there up |
| Overlay.WaveAlpha | voicemeeter-media-controls/OverlayForm.cs:238-239 | a wave's alpha is positive and capped at 255 |
| Overlay.WaveAlphaIncreasing | voicemeeter-media-controls/OverlayForm.cs:238-239 | among the three waves drawn the cap never applies and each outer wave is more opaque |
| Overlay.Ceiling | voicemeeter-media-controls/OverlayForm.cs:150 | Math.Ceiling: the least integer not below the value |
| Overlay.DrawSpeakerIcon | voicemeeter-media-controls/OverlayForm.cs:201-247 | no waves when muted, else WaveCount(level) waves; wave i has the alpha and radii of arc i; the width reported is the ceiling of the rightmost point of the horn and the waves (the mute X is not counted, as in the program) |
| Overlay.IconColumn | voicemeeter-media-controls/OverlayForm.cs:150 | the icon column is 37 px wide: the least whole number of pixels not below 1.3 × 28 |
| Overlay.IconFitsColumn | voicemeeter-media-controls/OverlayForm.cs:149-151 | with any number of waves up to 3, the 28 px icon stays within its 37 px column |
| Overlay.BarWidth | voicemeeter-media-controls/OverlayForm.cs:169-170 | the track starts at the text column (55 px) and ends 10 px before the right edge, so its width is clientWidth − 65 |
| Overlay.Truncate | voicemeeter-media-controls/OverlayForm.cs:175 | the (int) cast truncates toward zero, for both signs |
| Overlay.FillWidth | voicemeeter-media-controls/OverlayForm.cs:175 | the fill lies in [0, barW]; it is non-zero only for a positive level; it is the whole track at level 1 or more, and otherwise the level's share of the track truncated |
| Overlay.PaintBar | voicemeeter-media-controls/OverlayForm.cs:164-186 | the bar is drawn exactly when showBar is set; the track starts at the text column; the fill is drawn only when its width is non-zero, at the track's left end, with the track's height, and its width is FillWidth of the track width and the level |
| Overlay.FadeIn | voicemeeter-media-controls/OverlayForm.cs:93-103 | after FadeInAndShow the form is visible, aims for 0.95 with both timers running, and its opacity is the old opacity raised to at least 0.1 and capped at 0.95 |
| Overlay.FadeOut | voicemeeter-media-controls/OverlayForm.cs:105-110 | BeginFadeOut aims for 0, starts the fade timer, stops the hold timer and leaves opacity and visibility alone |
| Overlay.Approach | voicemeeter-media-controls/OverlayForm.cs:115-122 | one tick moves the opacity toward the target, never past it, by exactly 0.08 unless it lands on the target, which it does exactly when the target is within 0.08 |
| Overlay.Step | voicemeeter-media-controls/OverlayForm.cs:112-131 | one fade tick moves the opacity toward the target by at most 0.08 without passing it; at the target it stops the fade timer and hides the form exactly when the target is 0 |
| Overlay.FadeInKeepsInvariant | voicemeeter-media-controls/OverlayForm.cs:93-103 | FadeInAndShow establishes the fade invariant from any opacity in range |
| Overlay.FadeOutKeepsInvariant | voicemeeter-media-controls/OverlayForm.cs:105-110 | the hold timer's expiry keeps the fade invariant |
| Overlay.StepKeepsInvariant | voicemeeter-media-controls/OverlayForm.cs:112-131 | a fade tick keeps the fade invariant |
| Overlay.FadeTickPhases | voicemeeter-media-controls/OverlayForm.cs:112-131 | a fade tick moves fading-in to fading-in or held, keeps held, moves fading-out to fading-out or hidden, and hides the form exactly when opacity and target are both 0 |
| Overlay.TimerAndShowPhases | voicemeeter-media-controls/OverlayForm.cs:93-110 | the hold timer only runs while fading in or held and its expiry starts the fade-out; a display call leads to fading-in, or to held exactly when already fully shown |
| Overlay.ApproachNClosedForm | voicemeeter-media-controls/OverlayForm.cs:112-122 | n fade ticks move the opacity n steps of 0.08 toward the target and stop there |
| Overlay.FadeWithinTwelveTicks | voicemeeter-media-controls/OverlayForm.cs:112-122 | from any opacity to any target in [0, 0.95], twelve ticks reach the target |
| Overlay.TwelveTicksNeeded | voicemeeter-media-controls/OverlayForm.cs:112-122 | eleven ticks are not enough from 0 to 0.95 or from 0.95 to 0 |
| Overlay.FadeTicksApproach | voicemeeter-media-controls/OverlayForm.cs:112-131 | n ticks of the running fade timer give the n-step opacity; the timer is still on exactly while the target has not been reached one tick earlier; the form stays visible unless it reached a target of 0 |
| Overlay.FadeSettles | voicemeeter-media-controls/OverlayForm.cs:112-131 | once started, the fade timer brings the opacity to its target within twelve ticks |
| Overlay.FadeStops | voicemeeter-media-controls/OverlayForm.cs:112-131 | the thirteenth tick at the latest stops the fade timer, and leaves the form hidden exactly when the target was 0 |
| Overlay.FadeTicksStopAt | voicemeeter-media-controls/OverlayForm.cs:123-130 | the tick after the one that reaches the target stops the timer |
| Overlay.FadeTicksKeepInvariant | voicemeeter-media-controls/OverlayForm.cs:112-131 | any number of fade ticks keep the fade invariant |
| Overlay.OverlayForm.constructor | voicemeeter-media-controls/OverlayForm.cs:16-38 | the new form is hidden and transparent with target 0.88 and no timer running, placed by Placement, with the theme's palette |
| Overlay.OverlayForm.Position | voicemeeter-media-controls/OverlayForm.cs:62-70 | the location becomes Placement(working area); nothing else changes |
| Overlay.OverlayForm.ShowVolume | voicemeeter-media-controls/OverlayForm.cs:72-81 | title, subtitle ("Muted" or FormatDb), bar, level and mute flag are set; the fade state becomes FadeIn of the old; the form is re-placed; the invariant is kept |
| Overlay.OverlayForm.ShowMessage | voicemeeter-media-controls/OverlayForm.cs:83-91 | the title is the message, with no subtitle, no bar and no mute mark, and the level is kept; the fade state becomes FadeIn of the old; the invariant is kept |
| Overlay.OverlayForm.FadeInAndShow | voicemeeter-media-controls/OverlayForm.cs:93-103 | the fade fields become FadeIn of the old fade state |
| Overlay.OverlayForm.BeginFadeOut | voicemeeter-media-controls/OverlayForm.cs:105-110 | the fade fields become FadeOut of the old fade state |
| Overlay.OverlayForm.StepFade | voicemeeter-media-controls/OverlayForm.cs:112-131 | the fade fields become Step of the old fade state |
| Overlay.OverlayForm.HideTimerTick | voicemeeter-media-controls/OverlayForm.cs:28-29 | a hold-timer tick starts the fade-out and keeps the invariant; contents, location and palette are unchanged |
| Overlay.OverlayForm.FadeTimerTick | voicemeeter-media-controls/OverlayForm.cs:30-31 | a fade-timer tick takes one Step and keeps the invariant; contents, location and palette are unchanged |
| Overlay.OverlayForm.OnThemeChanged | voicemeeter-media-controls/OverlayForm.cs:269-278 | the form takes the theme's current palette |
| Remote.ReadGain | voicemeeter-media-controls/Tray.cs:242-260 | the gain read succeeds exactly for a strip the mixer has, and gives its gain |
| Remote.ReadMute | voicemeeter-media-controls/Tray.cs:222-240 | the mute read succeeds exactly for a strip the mixer has, and gives its mute value |
| Remote.ReadLabel | voicemeeter-media-controls/Tray.cs:178-186 | the label read succeeds exactly for a strip the mixer has, and gives its label |
| Remote.GainCommand | voicemeeter-media-controls/Tray.cs:151-153 | the command is "Strip[n].Gain " followed by an operator and an amount; the operator starts with '+' exactly when delta >= 0 and with '-' exactly when delta < 0 |
| Remote.MuteCommand | voicemeeter-media-controls/Tray.cs:206-208 | the command is "Strip[n].mute = " followed by one character: '1' exactly when muting, '0' exactly when unmuting |
| Remote.GainTail | voicemeeter-media-controls/Tray.cs:150-152 | the text after the strip index starts with ']' |
| Remote.GainTailRoundTrip | voicemeeter-media-controls/Tray.cs:150-152 | "].Gain += d" or "].Gain -= -d" reads back as an adjustment by exactly d |
| Remote.RaiseTailRoundTrip | voicemeeter-media-controls/Tray.cs:151-152 | "].Gain += c" reads back as a raise by exactly c |
| Remote.LowerTailRoundTrip | voicemeeter-media-controls/Tray.cs:151-153 | "].Gain -= c" reads back as a cut by exactly c |
| Remote.GainCommandRoundTrip | voicemeeter-media-controls/Tray.cs:150-152 | the gain command the tray builds reads back as the strip and delta it was built from, for either sign |
| Remote.MuteCommandRoundTrip | voicemeeter-media-controls/Tray.cs:206-208 | the mute command reads back as the strip and mute state it was built from |
| Remote.ParseCommandStrip | voicemeeter-media-controls/Tray.cs:150-152 | reading "Strip[n]" then a tail starting with ']' comes down to reading the tail for strip n |
| Remote.PrefixOfAppend | voicemeeter-media-controls/Tray.cs:150-152 | stripping a prefix from prefix + rest leaves rest |
| Remote.StripPrefix | voicemeeter-media-controls/Tray.cs:150-152 | a prefix is stripped exactly when it is one, and the rest is what follows it |
| Remote.Apply | voicemeeter-media-controls/Tray.cs:153 | a command changes only its own strip and keeps the label; a gain command moves the gain by delta, clamped to [-60, 12] dB, and keeps mute; a mute command sets the mute value to 1 or 0 and keeps the gain |
| Remote.SetParameters | voicemeeter-media-controls/Tray.cs:153 | the call succeeds exactly when the script reads as a command for a strip the mixer has, and then the new mixer is Apply of that command; a failing call returns 1 and changes nothing |
| TrayLogic.Dispatch | voicemeeter-media-controls/Tray.cs:124-143 | only key-down or system-key-down events with nCode >= 0 of Volume Up (0xAF), Volume Down (0xAE) or Volume Mute (0xAD) are acted on, each to its own action |
| TrayLogic.IndexOf | voicemeeter-media-controls/Tray.cs:171 | List.IndexOf: -1 exactly when absent, otherwise the first position holding the value |
| TrayLogic.NextStrip | voicemeeter-media-controls/Tray.cs:169-176 | the next strip is one of the list; from a strip not in the list it is the first; otherwise it is the one after the first occurrence, wrapping around |
| TrayLogic.NextOfDistinct | voicemeeter-media-controls/Tray.cs:171 | in a list without repeats, a strip's first position is its own, and the next strip is at the next position |
| TrayLogic.CycleOrbit | voicemeeter-media-controls/Tray.cs:169-176 | k presses from the i-th strip select the (i + k)-th, modulo the list length |
| TrayLogic.CycleReturns | voicemeeter-media-controls/Tray.cs:169-176 | one press per strip comes back to the starting strip |
| TrayLogic.DefaultCycle | voicemeeter-media-controls/Tray.cs:11-12 | from strip 5 the mute key selects 6, then 7, then 5 again |
| TrayLogic.FindName | voicemeeter-media-controls/Tray.cs:188-198 | FirstOrDefault: no result exactly when no entry matches, else the name of the first matching entry |
| TrayLogic.TableNamesNotBlank | voicemeeter-media-controls/Tray.cs:15-35 | no default name in the table is blank |
| TrayLogic.DefaultNameDomain | voicemeeter-media-controls/Tray.cs:15-35 | the table has a Potato name exactly for strips 0 to 7 |
| TrayLogic.GetStripName | voicemeeter-media-controls/Tray.cs:178-200 | the name is the live label when it reads and is not blank; else the Potato default name; else "Strip n"; it is never blank |
| TrayLogic.GetMuteState | voicemeeter-media-controls/Tray.cs:222-240 | muted exactly when the read succeeds and the value is above 0.5 |
| TrayLogic.GetGain | voicemeeter-media-controls/Tray.cs:242-260 | the strip's gain, or 0 when the read fails |
| TrayLogic.PredictedGain | voicemeeter-media-controls/Tray.cs:159 | the shown gain is the previous gain plus delta when that is in [-60, 12] dB, -60 dB below the range and 12 dB above it |
| TrayLogic.PredictionMatchesMixer | voicemeeter-media-controls/Tray.cs:145-168 | under the modelled mixer (it clamps to [-60, 12] dB and applies a command at once, see Left out), for a strip the mixer has, the gain shown after a volume key is exactly the gain the mixer holds afterwards; mute, name and other strips are unchanged |
| TrayLogic.PredictionWithoutStrip | voicemeeter-media-controls/Tray.cs:145-168 | for a strip the mixer lacks, the command fails and changes nothing, yet the overlay shows the clamped delta as the gain |
| TrayLogic.ToggleMuteFlips | voicemeeter-media-controls/Tray.cs:46-53 | Toggle Mute flips the strip's mute state and keeps its gain, its name and the other strips |
| TrayLogic.MuteMenuLabel | voicemeeter-media-controls/Tray.cs:55-61 | the menu text starts with "Unmute " exactly when muted and with "Mute " exactly when not, ends with the strip name, and has nothing else between them |
| TrayLogic.Tray.constructor | voicemeeter-media-controls/Tray.cs:11-14 | the tray starts on strip 5, cycles [5, 6, 7], steps by 1 dB, with the menu item reading "Toggle Mute"; its new overlay is hidden and transparent with target 0.88, no timer running, placed by Placement and with the theme's palette |
| TrayLogic.Tray.ShowOverlayVolume | voicemeeter-media-controls/Tray.cs:262-272 | the overlay shows the name, gain and mute state, fades in, moves to Placement of the working area and keeps its palette |
| TrayLogic.Tray.AdjustStrip | voicemeeter-media-controls/Tray.cs:145-168 | the mixer receives the gain command for the current strip; the overlay shows the live name and mute state with the predicted gain, fades in, moves to Placement of the working area and keeps its palette |
| TrayLogic.Tray.CycleStrip | voicemeeter-media-controls/Tray.cs:169-176 | the current strip becomes NextStrip of the old; the overlay shows its name, gain and mute state, fades in, moves to Placement of the working area and keeps its palette; the mixer is untouched |
| TrayLogic.Tray.KeyDelta | voicemeeter-media-controls/Tray.cs:131-136 | a volume key's step is plus or minus the configured amount, and for a positive amount it raises the gain exactly for Volume Up |
| TrayLogic.Tray.HookCallback | voicemeeter-media-controls/Tray.cs:124-143 | the key is consumed exactly when Dispatch acts on it: Volume Up or Down sends the gain command for plus or minus the step and shows the predicted gain, Volume Mute cycles and shows the new strip, and both fade the overlay in at Placement of the working area; anything else changes neither the strip, the mixer nor the overlay; the palette is always kept |
| TrayLogic.Tray.ToggleMute | voicemeeter-media-controls/Tray.cs:46-53 | the mixer receives the mute command with the opposite of the state read; the overlay shows that new state with the live name and gain, fades in, moves to Placement of the working area and keeps its palette |
| TrayLogic.Tray.OnMenuOpening | voicemeeter-media-controls/Tray.cs:55-61 | the menu item reads MuteMenuLabel of the current strip's live mute state and name |
| Theme.Palette | voicemeeter-media-controls/ThemeManager.cs:46-78 | both palettes are valid ARGB colours; the mute mark is red in both; the light palette has a light background and dark title, the dark palette the reverse |
| Theme.PalettesDiffer | voicemeeter-media-controls/ThemeManager.cs:46-78 | the two palettes have different backgrounds and the same mute mark |
| Theme.IsLightTheme | voicemeeter-media-controls/ThemeManager.cs:28-44 | the theme is dark exactly when the registry value is the int 0; a missing key or value, another kind of value or a failed read all mean light |
| Theme.PreferenceChanged | voicemeeter-media-controls/ThemeManager.cs:18-26 | the cached flag becomes the freshly read one, and the change event fires exactly when it differs from the old flag |
| Theme.PreferenceChangedIdempotent | voicemeeter-media-controls/ThemeManager.cs:18-26 | a second notification with the same registry value changes nothing and fires nothing |
| Theme.ThemeManager.constructor | voicemeeter-media-controls/ThemeManager.cs:10-14 | the cache starts from one registry read, with no notification raised |
| Theme.ThemeManager.IsLight | voicemeeter-media-controls/ThemeManager.cs:16 | the property is the cached flag, and it is true exactly when its palette is the light one |
| Theme.ThemeManager.GetPalette | voicemeeter-media-controls/ThemeManager.cs:46-78 | the palette is the one for the cached theme |
| Theme.ThemeManager.OnUserPreferenceChanged | voicemeeter-media-controls/ThemeManager.cs:18-26 | the cache and the notification count follow PreferenceChanged; at most one notification per event |

## Left out

- UpdateManager.cs (the update check) is not part of this model.
- GDI+ drawing is not modelled: rounded paths, brushes, fonts, the window region, `CreateParams` and the no-activation flags. The arithmetic `OnPaint` and `DrawSpeakerIcon` compute from the state is modelled.
- The bar's vertical position depends on font heights, so `PaintBar` takes it as a parameter.
- `Screen.FromPoint(Cursor.Position)` becomes a working-area parameter.
- The registry read becomes a `RegistryRead` parameter.
- Thread marshalling (`InvokeRequired` / `BeginInvoke`) and the event subscriptions are not modelled. Calls are modelled as running on the UI thread.
- Timer periods (16 ms, 1400 ms) are not modelled. Ticks are method calls that require their timer to run, so the model says nothing about how long the overlay stays.
- P/Invoke is not modelled: the hook installation in `OnShown`, `CallNextHookEx`, `LoadLibrary`, Voicemeeter login and logout, and `OnFormClosing`. `HookCallback` takes the key code directly instead of reading the `KBDLLHOOKSTRUCT` behind `lParam`.
- The Voicemeeter DLL's behaviour is modelled, since it cannot be read from the repository. It clamps the gain to [-60, 12] dB, reads the tray's scripts, and fails with result code 1 on an unreadable script or unknown strip. `VBVMR_IsParametersDirty` is not modelled.
- Exceptions caught in `AdjustStrip`, `MuteStrip`, `GetStripName`, `GetMuteState`, `GetGain` and `GetIsLightTheme` are not modelled, apart from the failure results they lead to. The `Debug.WriteLine` logging is not modelled either.
- Overlay.NormalizeDb: IEEE single precision is not modelled. Gains are exact hundredths of a dB and levels exact reals, so rounding in `(clamped + 60f) / 72f` and float/double comparisons (`0.95f` against the double `Opacity`) are not captured.
- TrayLogic.GetGain: gains with more than two decimals cannot be represented. The model uses hundredths.
- Overlay.FormatDb: formatting assumes the invariant culture.
- Overlay.OverlayForm.ShowVolume: the subtitle uses the corrected `FormatDb`, so the modelled overlay shows "0 dB" where the program shows "-0 dB" for gains in [-0.5, 0) dB (see Findings; `FormatDbAsWritten` keeps the program's text).
- TrayLogic.PredictionMatchesMixer: holds only for the modelled mixer. The DLL is assumed to clamp to [-60, 12] dB and to apply a command before the next read; `VBVMR_IsParametersDirty` and any delay in applying it are not modelled.
- Remote.ReadLabel: the 512-character buffer limit of `VBVMR_GetParameterStringA` is not modelled.
- `Form.Opacity` quantisation by the layered window is not modelled.
- The "Exit" menu item and tray icon setup are not modelled.

## Findings

| source | as written | input that shows it | evidently intended | confidence | as-written member | corrected member |
|---|---|---|---|---|---|---|
| voicemeeter-media-controls/OverlayForm.cs:255-259 | `Math.Round` of a gain in [-0.5, 0) dB returns negative zero, and .NET prints it with a minus sign | a gain of -0.3 dB is shown as "-0 dB" | "0 dB" | medium, not executed | Overlay.NegativeZeroShown | Overlay.FormatDb |
