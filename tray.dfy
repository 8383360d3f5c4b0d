/** The pure rules behind the shell's system tray in `App.tsx`: the volume
    icon and mute rule, and the Wi-Fi network records. */
module Tray {
  import Strings
  import opened Types

  /** The icon names getVolumeIcon returns. */
  datatype VolumeIcon = VolumeX | Volume | Volume1 | Volume2

  /** getVolumeIcon: crossed out when muted or silent, otherwise one, two or
      three waves for volumes below 30, below 70 and from 70 on. */
  function VolumeIconFor(muted: bool, volume: int): (icon: VolumeIcon)
    ensures icon == VolumeX <==> muted || volume == 0
  {
    if muted || volume == 0 then VolumeX
    else if volume < 30 then Volume
    else if volume < 70 then Volume1
    else Volume2
  }

  /** How many waves an icon shows. */
  function Waves(icon: VolumeIcon): nat {
    match icon
    case VolumeX => 0
    case Volume => 1
    case Volume1 => 2
    case Volume2 => 3
  }

  /** Turning the volume up never shows fewer waves, on the slider's range. */
  lemma VolumeIconMonotone(muted: bool, v1: int, v2: int)
    requires 0 <= v1 <= v2 <= 100
    ensures Waves(VolumeIconFor(muted, v1)) <= Waves(VolumeIconFor(muted, v2))
  {
  }

  /** The thresholds: each icon covers exactly its band of the slider. */
  lemma VolumeIconBands(v: int)
    requires 0 < v <= 100
    ensures VolumeIconFor(false, v) == Volume <==> v < 30
    ensures VolumeIconFor(false, v) == Volume1 <==> 30 <= v < 70
    ensures VolumeIconFor(false, v) == Volume2 <==> 70 <= v
    ensures VolumeIconFor(true, v) == VolumeX
  {
  }

  /** The muted flag after handleVolumeChange sets the slider to `newVolume`:
      silence mutes, any positive volume unmutes. */
  function MutedAfterChange(wasMuted: bool, newVolume: int): (muted: bool)
    requires newVolume >= 0
    ensures muted <==> newVolume == 0
  {
    var m := if newVolume > 0 && wasMuted then false else wasMuted;
    if newVolume == 0 then true else m
  }

  /** An entry of the Wi-Fi network list. */
  datatype Network = Network(ssid: string, secured: bool)

  /** `INITIAL_NETWORKS`. */
  const InitialNetworks: seq<Network> := [
    Network("Blue Shark Net", true),
    Network("Deep Sea Link", true),
    Network("Coral Reef Guest", false),
    Network("Atlantis Public", true),
    Network("Mariana Trench Research", true)
  ]

  /** The network the shell joins at start and after Wi-Fi is turned on. */
  const DefaultNetwork: string := "Blue Shark Net"

  /** The network handleAddNetwork builds from the form, or `None` when the
      name is blank: the name is trimmed, and the network is secured exactly
      when the trimmed password is non-empty. */
  function NetworkFromForm(ssidInput: string, passInput: string): (n: Option<Network>)
    ensures n.None? <==> forall k :: 0 <= k < |ssidInput| ==> Strings.IsSpace(ssidInput[k])
    ensures n.Some? ==> n.value.ssid == Strings.Trim(ssidInput) && n.value.ssid != []
    ensures n.Some? ==> (n.value.secured <==> exists k :: 0 <= k < |passInput| && !Strings.IsSpace(passInput[k]))
  {
    Strings.TrimEmptyIff(ssidInput);
    Strings.TrimEmptyIff(passInput);
    var ssid := Strings.Trim(ssidInput);
    if ssid == [] then None else Some(Network(ssid, Strings.Trim(passInput) != []))
  }
}
