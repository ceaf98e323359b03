/**
 * The solo timer page: a local countdown driven by the page's own effect,
 * with the same preset table as the shared room but no server.
 */
module SoloTimer {
  import opened Presets

  /** The reset button's choice: Focus, Short Break, and anything else as a long break. */
  function ResetSeconds(activePreset: string): (r: nat)
    ensures r == 1500 || r == 300 || r == 900
    ensures activePreset == FocusName <==> r == 1500
    ensures activePreset == ShortBreakName <==> r == 300
  {
    if activePreset == FocusName then 25 * 60
    else if activePreset == ShortBreakName then 5 * 60
    else 15 * 60
  }

  /** For a name from the preset table, reset agrees with choosing that preset. */
  lemma ResetMatchesPresetTable(i: nat)
    requires i < |TimerPresets|
    ensures ResetSeconds(TimerPresets[i].name) == TimerPresets[i].duration * 60
  {
  }

  /** The page's state: seconds left, whether it counts down, and the selected preset. */
  class Timer {
    var time: int
    var isRunning: bool
    var activePreset: string

    /** The countdown never goes below zero. */
    predicate Valid()
      reads this
    {
      time >= 0
    }

    /** Whether the effect has an interval installed: only while running with time left. */
    predicate Ticking()
      reads this
    {
      isRunning && time > 0
    }

    /** The page as mounted: 25 minutes, stopped, Focus. */
    constructor ()
      ensures Valid() && time == 1500 && !isRunning && activePreset == FocusName
    {
      time := 25 * 60;
      isRunning := false;
      activePreset := FocusName;
    }

    /** One second of the effect's interval; without an interval nothing happens. */
    method Second()
      requires Valid()
      modifies this
      ensures Valid()
      ensures old(Ticking()) ==> time == old(time) - 1
      ensures !old(Ticking()) ==> time == old(time)
      ensures isRunning == old(isRunning) && activePreset == old(activePreset)
    {
      if isRunning && time > 0 {
        time := time - 1;
      }
    }

    /** `setTimerPreset(preset)`. */
    method SetTimerPreset(p: Preset)
      modifies this
      ensures Valid()
      ensures time == p.duration * 60 && activePreset == p.name && !isRunning
    {
      time := p.duration * 60;
      activePreset := p.name;
      isRunning := false;
    }

    /** The reset button. */
    method Reset()
      modifies this
      ensures Valid()
      ensures time == ResetSeconds(old(activePreset))
      ensures isRunning == old(isRunning) && activePreset == old(activePreset)
    {
      time := ResetSeconds(activePreset);
    }

    /** The start/pause button. */
    method ToggleRunning()
      requires Valid()
      modifies this
      ensures Valid()
      ensures isRunning == !old(isRunning)
      ensures time == old(time) && activePreset == old(activePreset)
    {
      isRunning := !isRunning;
    }
  }
}
