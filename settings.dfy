/** The state updates the Settings application (`apps/Settings.tsx`) hands to
    the shell: desktop and taskbar list toggles, the custom wallpaper and the
    clock switches. */
module Settings {
  import opened Types
  import Seqs
  import Strings

  /** toggleDesktopApp / togglePinnedApp: drop every occurrence of a listed id,
      or append an unlisted one at the end. */
  function Toggle(list: seq<AppId>, id: AppId): (r: seq<AppId>)
    ensures id in r <==> id !in list
    ensures forall other :: other != id ==> (other in r <==> other in list)
  {
    if id in list then Seqs.RemoveAll(list, id) else list + [id]
  }

  /** Removing keeps the other entries in their relative order: the new list
      is what is left of each part of the old one. */
  lemma ToggleListedKeepsOrder(a: seq<AppId>, b: seq<AppId>, id: AppId)
    requires id in a + b
    ensures Toggle(a + b, id) == Seqs.RemoveAll(a, id) + Seqs.RemoveAll(b, id)
  {
    Seqs.RemoveAllAppend(a, b, id);
  }

  /** Toggling an unlisted id twice gives the original list back. */
  lemma ToggleTwiceUnlisted(list: seq<AppId>, id: AppId)
    requires id !in list
    ensures Toggle(Toggle(list, id), id) == list
  {
    Seqs.RemoveAllAppend(list, [id], id);
    assert Seqs.RemoveAll([id], id) == [];
  }

  /** Toggling a listed id twice moves it to the end, once, after the others
      in their order. */
  lemma ToggleTwiceListed(list: seq<AppId>, id: AppId)
    requires id in list
    ensures Toggle(Toggle(list, id), id) == Seqs.RemoveAll(list, id) + [id]
  {
  }

  /** A list without repeats stays without repeats. */
  lemma ToggleDistinct(list: seq<AppId>, id: AppId)
    requires Seqs.Distinct(list)
    ensures Seqs.Distinct(Toggle(list, id))
  {
    if id in list {
      Seqs.RemoveAllDistinct(list, id);
    } else {
      Seqs.AppendDistinct(list, id);
    }
  }

  /** handleCustomUrlSubmit: the wallpaper after submitting `input`. A blank
      entry changes nothing; otherwise the trimmed URL is applied. */
  function CustomWallpaper(current: string, input: string): (r: string)
    ensures (forall k :: 0 <= k < |input| ==> Strings.IsSpace(input[k])) ==> r == current
    ensures (exists k :: 0 <= k < |input| && !Strings.IsSpace(input[k])) ==>
      r == Strings.Trim(input) && r != [] && !Strings.IsSpace(r[0]) && !Strings.IsSpace(r[|r| - 1])
  {
    Strings.TrimEmptyIff(input);
    Strings.TrimShape(input);
    var url := Strings.Trim(input);
    if url != [] then url else current
  }

  /** Submitting the URL that was just applied applies the same URL again. */
  lemma CustomWallpaperStable(current: string, other: string, input: string)
    requires exists k :: 0 <= k < |input| && !Strings.IsSpace(input[k])
    ensures var w := CustomWallpaper(current, input);
      CustomWallpaper(other, w) == w
  {
    Strings.TrimEmptyIff(input);
    Strings.TrimIdempotent(input);
  }

  /** `interface ClockConfig`. */
  datatype ClockConfig = ClockConfig(is24Hour: bool, showSeconds: bool, showDate: bool)

  /** The clock configuration the shell starts with. */
  const InitialClock: ClockConfig := ClockConfig(false, false, true)

  /** The three switches of the Date & Time page. */
  datatype ClockOption = Hour24 | Seconds | Date

  function ClockGet(c: ClockConfig, o: ClockOption): bool {
    match o
    case Hour24 => c.is24Hour
    case Seconds => c.showSeconds
    case Date => c.showDate
  }

  /** `setClockConfig({...clockConfig, <field>: checked})`: the chosen switch
      takes the new value and the other two keep theirs. */
  function SetClockOption(c: ClockConfig, o: ClockOption, checked: bool): (r: ClockConfig)
    ensures ClockGet(r, o) == checked
    ensures forall p :: p != o ==> ClockGet(r, p) == ClockGet(c, p)
  {
    match o
    case Hour24 => c.(is24Hour := checked)
    case Seconds => c.(showSeconds := checked)
    case Date => c.(showDate := checked)
  }

  /** A configuration is determined by its three switches, so switches on
      different options can be flipped in either order. */
  lemma SetClockOptionsCommute(c: ClockConfig, o1: ClockOption, b1: bool, o2: ClockOption, b2: bool)
    requires o1 != o2
    ensures SetClockOption(SetClockOption(c, o1, b1), o2, b2) ==
            SetClockOption(SetClockOption(c, o2, b2), o1, b1)
  {
    var l := SetClockOption(SetClockOption(c, o1, b1), o2, b2);
    var r := SetClockOption(SetClockOption(c, o2, b2), o1, b1);
    assert ClockGet(l, Hour24) == ClockGet(r, Hour24);
    assert ClockGet(l, Seconds) == ClockGet(r, Seconds);
    assert ClockGet(l, Date) == ClockGet(r, Date);
  }
}
