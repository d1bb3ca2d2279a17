/** The theme provider: a cached light/dark flag read from the
    AppsUseLightTheme registry value, a change notification fired only
    when the flag flips, and the two overlay palettes. */
module Theme {

  /** A colour as Color.FromArgb(alpha, red, green, blue). */
  datatype Color = Argb(a: int, r: int, g: int, b: int)

  predicate IsColor(c: Color) {
    0 <= c.a <= 255 && 0 <= c.r <= 255 && 0 <= c.g <= 255 && 0 <= c.b <= 255
  }

  /** Color.Red. */
  const RED: Color := Argb(255, 255, 0, 0)

  datatype OverlayPalette = OverlayPalette(
    background: Color,
    border: Color,
    title: Color,
    subtitle: Color,
    icon: Color,
    muteX: Color,
    barBack: Color,
    barFillStart: Color,
    barFillEnd: Color)

  predicate IsPalette(p: OverlayPalette) {
    IsColor(p.background) && IsColor(p.border) && IsColor(p.title) && IsColor(p.subtitle)
    && IsColor(p.icon) && IsColor(p.muteX) && IsColor(p.barBack)
    && IsColor(p.barFillStart) && IsColor(p.barFillEnd)
  }

  /** The palette for the light theme (isLight) or the dark theme. */
  function Palette(isLight: bool): (p: OverlayPalette)
    ensures IsPalette(p)
    ensures p.muteX == RED
    ensures isLight ==> p.background.r > 128 && p.title.r < 128
    ensures !isLight ==> p.background.r < 128 && p.title.r > 128
  {
    if isLight then
      OverlayPalette(
        background := Argb(220, 245, 245, 245),
        border := Argb(60, 0, 0, 0),
        title := Argb(255, 20, 20, 20),
        subtitle := Argb(255, 60, 60, 60),
        icon := Argb(255, 20, 20, 20),
        muteX := RED,
        barBack := Argb(120, 0, 0, 0),
        barFillStart := Argb(255, 0, 120, 240),
        barFillEnd := Argb(255, 0, 90, 210))
    else
      OverlayPalette(
        background := Argb(220, 18, 18, 18),
        border := Argb(45, 255, 255, 255),
        title := Argb(255, 255, 255, 255),
        subtitle := Argb(230, 210, 210, 210),
        icon := Argb(255, 255, 255, 255),
        muteX := RED,
        barBack := Argb(70, 255, 255, 255),
        barFillStart := Argb(255, 100, 150, 255),
        barFillEnd := Argb(255, 0, 120, 240))
  }

  /** The two palettes are told apart by their background. */
  lemma PalettesDiffer()
    ensures Palette(true).background != Palette(false).background
    ensures Palette(true).muteX == Palette(false).muteX
  {
  }

  /** What reading HKCU\...\Themes\Personalize\AppsUseLightTheme can give. */
  datatype RegistryRead =
    | KeyMissing        // OpenSubKey returned null
    | ValueMissing      // GetValue returned null
    | DWord(i: int)     // the value is an int
    | OtherKind         // the value is present but not an int
    | Unreadable        // the registry access threw

  /** GetIsLightTheme: light unless the value is the int 0. */
  function IsLightTheme(v: RegistryRead): (light: bool)
    ensures !light <==> v == DWord(0)
  {
    match v
    case DWord(i) => i != 0
    case _ => true
  }

  /** The cached flag after a preference-change event, and whether
      ThemeChanged fired. */
  function PreferenceChanged(cached: bool, v: RegistryRead): (r: (bool, bool))
    ensures r.0 == IsLightTheme(v)
    ensures r.1 <==> r.0 != cached
  {
    var light := IsLightTheme(v);
    if light != cached then (light, true) else (cached, false)
  }

  /** A second event with the same registry value changes nothing and
      fires nothing. */
  lemma PreferenceChangedIdempotent(cached: bool, v: RegistryRead)
    ensures var (light, _) := PreferenceChanged(cached, v);
      PreferenceChanged(light, v) == (light, false)
  {
  }

  /** The process-wide theme cache (a static class in the C# program). */
  class ThemeManager {
    var isLight: bool
    /** How many times ThemeChanged has been raised. */
    var notifications: nat

    /** The static constructor: reads the preference once. */
    constructor (v: RegistryRead)
      ensures isLight == IsLightTheme(v) && notifications == 0
    {
      isLight := IsLightTheme(v);
      notifications := 0;
    }

    /** The cached preference: light exactly when the overlay uses the
        light palette. */
    function IsLight(): (b: bool)
      reads this
      ensures b == isLight
      ensures b <==> Palette(b) == Palette(true)
    {
      isLight
    }

    function GetPalette(): (p: OverlayPalette)
      reads this
      ensures p == Palette(IsLight())
    {
      Palette(isLight)
    }

    /** SystemEvents.UserPreferenceChanged handler. */
    method OnUserPreferenceChanged(v: RegistryRead)
      modifies this
      ensures (isLight, notifications != old(notifications)) == PreferenceChanged(old(isLight), v)
      ensures notifications == old(notifications) || notifications == old(notifications) + 1
    {
      var light := IsLightTheme(v);
      if light != isLight {
        isLight := light;
        notifications := notifications + 1;
      }
    }
  }
}
