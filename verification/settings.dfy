/** The plugin's configuration bridge: a twelve-value resolution option bound
    under section "MApi", key "Resolution", the table mapping each value to a
    pixel pair, and the reaction to a changed setting. */
module Settings {
  import opened Geometry
  import opened Wrappers

  /** The selectable resolutions, in declaration order. */
  datatype Resolution =
    | Res256x144 | Res320x180 | Res426x240 | Res640x360
    | Res848x480 | Res960x540 | Res1280x720 | Res1600x900
    | Res1920x1080 | Res2560x1440 | Res3200x1800 | Res3840x2160

  /** The enum's underlying integer, i.e. the `(int)` cast used to index the table. */
  function Ordinal(r: Resolution): (i: nat)
    ensures i < 12
  {
    match r
    case Res256x144 => 0
    case Res320x180 => 1
    case Res426x240 => 2
    case Res640x360 => 3
    case Res848x480 => 4
    case Res960x540 => 5
    case Res1280x720 => 6
    case Res1600x900 => 7
    case Res1920x1080 => 8
    case Res2560x1440 => 9
    case Res3200x1800 => 10
    case Res3840x2160 => 11
  }

  /** The enum member with a given underlying integer. */
  function FromOrdinal(i: nat): (r: Resolution)
    requires i < 12
    ensures Ordinal(r) == i
  {
    [Res256x144, Res320x180, Res426x240, Res640x360,
     Res848x480, Res960x540, Res1280x720, Res1600x900,
     Res1920x1080, Res2560x1440, Res3200x1800, Res3840x2160][i]
  }

  /** The `Description` label attached to each member, shown by the configuration UI. */
  function Description(r: Resolution): (text: string) {
    match r
    case Res256x144 => "256x144"
    case Res320x180 => "320x180"
    case Res426x240 => "426x240"
    case Res640x360 => "640x360"
    case Res848x480 => "848x480"
    case Res960x540 => "960x540"
    case Res1280x720 => "1280x720"
    case Res1600x900 => "1600x900"
    case Res1920x1080 => "1920x1080"
    case Res2560x1440 => "2560x1440"
    case Res3200x1800 => "3200x1800"
    case Res3840x2160 => "3840x2160"
  }

  /** The pixel pairs, one per member, at the member's ordinal. */
  const Resolutions: seq<Vec2> := [
    Vec2(256.0, 144.0),
    Vec2(320.0, 180.0),
    Vec2(426.0, 240.0),
    Vec2(640.0, 360.0),
    Vec2(848.0, 480.0),
    Vec2(960.0, 540.0),
    Vec2(1280.0, 720.0),
    Vec2(1600.0, 900.0),
    Vec2(1920.0, 1080.0),
    Vec2(2560.0, 1440.0),
    Vec2(3200.0, 1800.0),
    Vec2(3840.0, 2160.0)
  ]

  /** Decimal digits of a natural number, most significant first. */
  function Decimal(n: nat): (s: string)
    ensures |s| > 0
    decreases n
  {
    var d := (n % 10 + '0' as int) as char;
    if n < 10 then [d] else Decimal(n / 10) + [d]
  }

  /** The "WIDTHxHEIGHT" label for a pixel pair. */
  function DimsLabel(w: nat, h: nat): (text: string) {
    Decimal(w) + "x" + Decimal(h)
  }

  /** Truncation toward zero, the C# `(int)` conversion of a float. */
  function TruncToInt(x: real): (n: int)
    ensures x >= 0.0 ==> n as real <= x < n as real + 1.0
    ensures x < 0.0 ==> n as real - 1.0 < x <= n as real
  {
    if x >= 0.0 then x.Floor else -((-x).Floor)
  }

  /** Why a lookup or an unboxing failed: the C# enum is open, so a stored or
      notified value may lie outside the table (`IndexOutOfRangeException`),
      and unboxing a value of another type fails (`InvalidCastException`). */
  datatype SettingsError = IndexOutOfRange | InvalidCast

  /** Table lookup by the enum's underlying integer. It succeeds exactly for
      the underlying values of the twelve declared members; any other value
      indexes outside the table. A successful pair is positive and whole. */
  function GetRes(raw: int): (r: Result<Vec2, SettingsError>)
    ensures r.Success? <==> 0 <= raw < 12
    ensures r.Failure? ==> r.error == IndexOutOfRange
    ensures r.Success? ==> r.value.x > 0.0 && r.value.y > 0.0
    ensures r.Success? ==> TruncToInt(r.value.x) as real == r.value.x && TruncToInt(r.value.y) as real == r.value.y
  {
    if 0 <= raw < |Resolutions| then Success(Resolutions[raw]) else Failure(IndexOutOfRange)
  }

  lemma EntryMatchesLabel(r: Resolution, w: nat, h: nat)
    requires Resolutions[Ordinal(r)] == Vec2(w as real, h as real)
    requires Description(r) == DimsLabel(w, h)
    ensures Description(r) == DimsLabel(TruncToInt(Resolutions[Ordinal(r)].x), TruncToInt(Resolutions[Ordinal(r)].y))
  {
    assert TruncToInt(w as real) == w && TruncToInt(h as real) == h;
  }

  // The twelve label checks are grouped two at a time only to keep each
  // proof obligation small: rendering the digits is costly for the solver.

  lemma LabelsUpTo320x180(r: Resolution)
    requires Ordinal(r) < 2
    ensures Description(r) == DimsLabel(TruncToInt(Resolutions[Ordinal(r)].x), TruncToInt(Resolutions[Ordinal(r)].y))
  {
    match r
    case Res256x144 => EntryMatchesLabel(r, 256, 144);
    case Res320x180 => EntryMatchesLabel(r, 320, 180);
  }

  lemma LabelsUpTo640x360(r: Resolution)
    requires 2 <= Ordinal(r) < 4
    ensures Description(r) == DimsLabel(TruncToInt(Resolutions[Ordinal(r)].x), TruncToInt(Resolutions[Ordinal(r)].y))
  {
    match r
    case Res426x240 => EntryMatchesLabel(r, 426, 240);
    case Res640x360 => EntryMatchesLabel(r, 640, 360);
  }

  lemma LabelsUpTo960x540(r: Resolution)
    requires 4 <= Ordinal(r) < 6
    ensures Description(r) == DimsLabel(TruncToInt(Resolutions[Ordinal(r)].x), TruncToInt(Resolutions[Ordinal(r)].y))
  {
    match r
    case Res848x480 => EntryMatchesLabel(r, 848, 480);
    case Res960x540 => EntryMatchesLabel(r, 960, 540);
  }

  lemma LabelsUpTo1600x900(r: Resolution)
    requires 6 <= Ordinal(r) < 8
    ensures Description(r) == DimsLabel(TruncToInt(Resolutions[Ordinal(r)].x), TruncToInt(Resolutions[Ordinal(r)].y))
  {
    match r
    case Res1280x720 => EntryMatchesLabel(r, 1280, 720);
    case Res1600x900 => EntryMatchesLabel(r, 1600, 900);
  }

  lemma LabelsUpTo2560x1440(r: Resolution)
    requires 8 <= Ordinal(r) < 10
    ensures Description(r) == DimsLabel(TruncToInt(Resolutions[Ordinal(r)].x), TruncToInt(Resolutions[Ordinal(r)].y))
  {
    match r
    case Res1920x1080 => EntryMatchesLabel(r, 1920, 1080);
    case Res2560x1440 => EntryMatchesLabel(r, 2560, 1440);
  }

  lemma LabelsUpTo3840x2160(r: Resolution)
    requires 10 <= Ordinal(r) < 12
    ensures Description(r) == DimsLabel(TruncToInt(Resolutions[Ordinal(r)].x), TruncToInt(Resolutions[Ordinal(r)].y))
  {
    match r
    case Res3200x1800 => EntryMatchesLabel(r, 3200, 1800);
    case Res3840x2160 => EntryMatchesLabel(r, 3840, 2160);
  }

  /** The width and height of each table entry are the ones written in the
      `Description` label of the member whose underlying value indexes it. */
  lemma TableMatchesLabels(r: Resolution)
    ensures Description(r) == DimsLabel(TruncToInt(Resolutions[Ordinal(r)].x), TruncToInt(Resolutions[Ordinal(r)].y))
  {
    if Ordinal(r) < 2 {
      LabelsUpTo320x180(r);
    } else if Ordinal(r) < 4 {
      LabelsUpTo640x360(r);
    } else if Ordinal(r) < 6 {
      LabelsUpTo960x540(r);
    } else if Ordinal(r) < 8 {
      LabelsUpTo1600x900(r);
    } else if Ordinal(r) < 10 {
      LabelsUpTo2560x1440(r);
    } else {
      LabelsUpTo3840x2160(r);
    }
  }

  /** The resolution bound when the configuration file holds none. */
  const DefaultResolution: Resolution := Res1920x1080

  /** The display state that `Screen.SetResolution` changes. */
  datatype Screen = Screen(width: int, height: int, fullScreen: bool)

  /** Apply a pixel pair as the display resolution: each coordinate is
      truncated to an integer, and the full-screen mode is kept. */
  function ChangeResolution(screen: Screen, res: Vec2): (s: Screen)
    ensures s.fullScreen == screen.fullScreen
    ensures res.x >= 0.0 ==> s.width as real <= res.x < s.width as real + 1.0
    ensures res.y >= 0.0 ==> s.height as real <= res.y < s.height as real + 1.0
  {
    Screen(TruncToInt(res.x), TruncToInt(res.y), screen.fullScreen)
  }

  /** For every table entry the truncation is exact: the display gets exactly
      the table's pixel pair. */
  lemma ApplyIsExact(screen: Screen, raw: int)
    requires GetRes(raw).Success?
    ensures ChangeResolution(screen, GetRes(raw).value).width as real == GetRes(raw).value.x
    ensures ChangeResolution(screen, GetRes(raw).value).height as real == GetRes(raw).value.y
  {
  }

  /** Widths and heights both grow strictly with the enum's underlying value. */
  lemma TableStrictlyIncreasing(i: int, j: int)
    requires 0 <= i < j < 12
    ensures GetRes(i).value.x < GetRes(j).value.x
    ensures GetRes(i).value.y < GetRes(j).value.y
  {
  }

  lemma GetResDefault()
    ensures Ordinal(DefaultResolution) == 8
    ensures GetRes(Ordinal(DefaultResolution)) == Success(Vec2(1920.0, 1080.0))
  {
  }

  /** The identity of a configuration entry. */
  datatype ConfigDefinition = ConfigDefinition(section: string, key: string)

  const ResolutionDefinition: ConfigDefinition := ConfigDefinition("MApi", "Resolution")

  /** The boxed value carried by a change notification: a value of the
      resolution enum, given by its underlying integer (which need not be one
      of the declared members), or a value of some other type. */
  datatype BoxedValue = BoxedResolution(raw: int) | BoxedOther

  datatype SettingChanged = SettingChanged(definition: ConfigDefinition, boxedValue: BoxedValue)

  /** Look up and apply the resolution with a given underlying value. */
  function ApplyRaw(screen: Screen, raw: int): (r: Result<Screen, SettingsError>)
    ensures r.Success? <==> 0 <= raw < 12
    ensures r.Failure? ==> r.error == IndexOutOfRange
    ensures r.Success? ==>
              && r.value.fullScreen == screen.fullScreen
              && r.value.width >= 0 && r.value.height >= 0
              && Description(FromOrdinal(raw)) == DimsLabel(r.value.width, r.value.height)
  {
    match GetRes(raw)
    case Success(v) =>
      TableMatchesLabels(FromOrdinal(raw));
      Success(ChangeResolution(screen, v))
    case Failure(err) => Failure(err)
  }

  /** Start-up: bind the option (keeping the value already stored in the
      configuration file, else the default) and apply it at once. A stored
      value outside the declared members makes the lookup fail. */
  function InitSettings(stored: Option<int>, screen: Screen): (r: Result<Screen, SettingsError>)
    ensures stored.None? ==> r == Success(Screen(1920, 1080, screen.fullScreen))
    ensures stored.Some? ==> (r.Success? <==> 0 <= stored.value < 12)
    ensures r.Failure? ==> r.error == IndexOutOfRange
    ensures r.Success? ==> r.value.fullScreen == screen.fullScreen
    ensures r.Success? && stored.Some? ==>
              && r.value.width >= 0 && r.value.height >= 0
              && Description(FromOrdinal(stored.value)) == DimsLabel(r.value.width, r.value.height)
  {
    ApplyRaw(screen, stored.GetOr(Ordinal(DefaultResolution)))
  }

  /** The change handler: only the ("MApi", "Resolution") entry is acted on;
      its boxed value is unboxed to the enum and applied. */
  function OnSettingChanged(screen: Screen, e: SettingChanged): (r: Result<Screen, SettingsError>)
    ensures e.definition != ResolutionDefinition ==> r == Success(screen)
    ensures e.definition == ResolutionDefinition ==>
              (r.Success? <==> e.boxedValue.BoxedResolution? && 0 <= e.boxedValue.raw < 12)
    ensures e.definition == ResolutionDefinition && e.boxedValue.BoxedOther? ==> r == Failure(InvalidCast)
    ensures e.definition == ResolutionDefinition && e.boxedValue.BoxedResolution? && r.Failure? ==>
              r.error == IndexOutOfRange
    ensures r.Success? && e.definition == ResolutionDefinition ==>
              && r.value.fullScreen == screen.fullScreen
              && r.value.width >= 0 && r.value.height >= 0
              && Description(FromOrdinal(e.boxedValue.raw)) == DimsLabel(r.value.width, r.value.height)
  {
    if e.definition == ResolutionDefinition then
      match e.boxedValue
      case BoxedResolution(raw) => ApplyRaw(screen, raw)
      case BoxedOther => Failure(InvalidCast)
    else
      Success(screen)
  }

  /** Delivering the same notification twice leaves the display as once. */
  lemma OnSettingChangedIdempotent(screen: Screen, e: SettingChanged)
    requires OnSettingChanged(screen, e).Success?
    ensures OnSettingChanged(OnSettingChanged(screen, e).value, e) == OnSettingChanged(screen, e)
  {
  }
}
