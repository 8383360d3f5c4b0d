/** The record shapes of `types.ts` and the application table `APPS` of
    `App.tsx`. */
module Types {
  import Strings

  /** A nullable value (`T | null` in the source). */
  datatype Option<T> = None | Some(value: T)

  /** `enum AppID`. */
  datatype AppId =
    | SharkBrain | DeepNotes | OceanGallery | SystemStatus | Settings
    | PlayStore | PlantsVsZombies | VideoPlayer | SharkShare | MusicPlayer

  /** The string value of each `AppID` member. */
  function AppIdName(a: AppId): string {
    match a
    case SharkBrain => "SHARK_BRAIN"
    case DeepNotes => "DEEP_NOTES"
    case OceanGallery => "OCEAN_GALLERY"
    case SystemStatus => "SYSTEM_STATUS"
    case Settings => "SETTINGS"
    case PlayStore => "PLAY_STORE"
    case PlantsVsZombies => "PLANTS_VS_ZOMBIES"
    case VideoPlayer => "VIDEO_PLAYER"
    case SharkShare => "SHARK_SHARE"
    case MusicPlayer => "MUSIC_PLAYER"
  }

  /** `interface AppConfig` (the icon name is left out: it only selects a
      picture). */
  datatype AppConfig = AppConfig(id: AppId, title: string, defaultWidth: int, defaultHeight: int)

  /** `interface WindowState`. */
  datatype WindowState = WindowState(
    id: string,
    appId: AppId,
    title: string,
    x: int,
    y: int,
    width: int,
    height: int,
    zIndex: int,
    isMinimized: bool,
    isMaximized: bool)

  /** The `APPS` record: every application's title and default size. */
  function Apps(a: AppId): (c: AppConfig)
    ensures c.id == a && c.defaultWidth > 0 && c.defaultHeight > 0
  {
    match a
    case SharkBrain => AppConfig(a, "Shark Brain", 400, 600)
    case DeepNotes => AppConfig(a, "Deep Notes", 600, 400)
    case OceanGallery => AppConfig(a, "Gallery", 700, 500)
    case SystemStatus => AppConfig(a, "System Info", 400, 450)
    case Settings => AppConfig(a, "Settings", 700, 500)
    case PlayStore => AppConfig(a, "Play Store", 900, 650)
    case PlantsVsZombies => AppConfig(a, "Plants vs Zombies", 800, 600)
    case VideoPlayer => AppConfig(a, "Video Player", 800, 550)
    case SharkShare => AppConfig(a, "Shark Share", 600, 550)
    case MusicPlayer => AppConfig(a, "Music", 800, 600)
  }

  /** The instance id `${appId}-${Date.now()}` given to a window opened at
      time `now` (in milliseconds). */
  function WindowIdFor(a: AppId, now: nat): string {
    AppIdName(a) + "-" + Strings.NatToString(now)
  }

  /** Reads an `AppID` string value back. */
  function AppIdOfName(s: string): AppId {
    if s == "SHARK_BRAIN" then SharkBrain
    else if s == "DEEP_NOTES" then DeepNotes
    else if s == "OCEAN_GALLERY" then OceanGallery
    else if s == "SYSTEM_STATUS" then SystemStatus
    else if s == "SETTINGS" then Settings
    else if s == "PLAY_STORE" then PlayStore
    else if s == "PLANTS_VS_ZOMBIES" then PlantsVsZombies
    else if s == "VIDEO_PLAYER" then VideoPlayer
    else if s == "SHARK_SHARE" then SharkShare
    else MusicPlayer
  }

  lemma AppIdNameRoundTrip(a: AppId)
    ensures AppIdOfName(AppIdName(a)) == a
  {
    match a
    case SharkBrain =>
    case DeepNotes =>
    case OceanGallery =>
    case SystemStatus =>
    case Settings =>
    case PlayStore =>
    case PlantsVsZombies =>
    case VideoPlayer =>
    case SharkShare =>
    case MusicPlayer =>
  }

  /** Length of the run of decimal digits at the end of `s`. */
  function DigitSuffix(s: string): (k: nat)
    ensures k <= |s|
  {
    if s != [] && Strings.IsDigit(s[|s| - 1]) then 1 + DigitSuffix(s[..|s| - 1]) else 0
  }

  lemma {:induction false} DigitSuffixOfJoin(n: string, d: string)
    requires Strings.AllDigits(d)
    ensures DigitSuffix(n + "-" + d) == |d|
  {
    var s := n + "-" + d;
    if d != [] {
      var d' := d[..|d| - 1];
      assert s[..|s| - 1] == n + "-" + d';
      DigitSuffixOfJoin(n, d');
    } else {
      assert s[|s| - 1] == '-';
    }
  }

  /** A name joined by a dash to a run of digits can be split back at that
      dash: the digits are the whole digit run at the end. */
  lemma SplitAtDash(n1: string, d1: string, n2: string, d2: string)
    requires Strings.AllDigits(d1) && Strings.AllDigits(d2)
    requires n1 + "-" + d1 == n2 + "-" + d2
    ensures n1 == n2 && d1 == d2
  {
    var id := n1 + "-" + d1;
    DigitSuffixOfJoin(n1, d1);
    DigitSuffixOfJoin(n2, d2);
    assert n1 == id[..|n1|] && n2 == id[..|n2|];
    assert d1 == id[|n1| + 1..] && d2 == id[|n2| + 1..];
  }

  /** Two windows opened for different applications, or at different
      milliseconds, get different ids; the same application opened twice in
      the same millisecond gets the same id. */
  lemma WindowIdInjective(a1: AppId, t1: nat, a2: AppId, t2: nat)
    ensures WindowIdFor(a1, t1) == WindowIdFor(a2, t2) <==> a1 == a2 && t1 == t2
  {
    var n1, n2 := AppIdName(a1), AppIdName(a2);
    var d1, d2 := Strings.NatToString(t1), Strings.NatToString(t2);
    var id1, id2 := WindowIdFor(a1, t1), WindowIdFor(a2, t2);
    if id1 == id2 {
      AppIdNameRoundTrip(a1);
      AppIdNameRoundTrip(a2);
      SplitAtDash(n1, d1, n2, d2);
      Strings.NatToStringInjective(t1, t2);
    }
  }
}
