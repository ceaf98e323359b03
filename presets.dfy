/** The preset table that both timer pages declare as `timerPresets`. */
module Presets {
  /** A preset button: its label and its duration in minutes. */
  datatype Preset = Preset(name: string, duration: nat)

  const FocusName: string := "Focus"
  const ShortBreakName: string := "Short Break"
  const LongBreakName: string := "Long Break"

  const TimerPresets: seq<Preset> :=
    [Preset(FocusName, 25), Preset(ShortBreakName, 5), Preset(LongBreakName, 15)]

  /** The table's names are distinct, so a name picks one preset, and every duration is positive. */
  lemma PresetTableWellFormed()
    ensures |TimerPresets| == 3
    ensures forall i, j :: 0 <= i < j < |TimerPresets| ==> TimerPresets[i].name != TimerPresets[j].name
    ensures forall i :: 0 <= i < |TimerPresets| ==> TimerPresets[i].duration > 0
  {
  }

}
