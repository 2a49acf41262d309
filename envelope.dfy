/** The operating envelope: the battery gates and the altitude limits. */
module Envelope {
  import opened Tello

  /** battery_check: a Land command when the battery is below the operating
      minimum, nothing otherwise. */
  function BatteryGate(battery: int, minOperating: int): seq<Command> {
    if battery < minOperating then [Land] else []
  }

  /** takeoff: a Takeoff command only when the battery is strictly above the
      takeoff minimum. */
  function TakeoffCommands(battery: int, minTakeoff: int): seq<Command> {
    if battery > minTakeoff then [Takeoff] else []
  }

  /** fly_up refuses when the altitude has reached the ceiling. */
  predicate AscentRefused(ceiling: int, altitude: int) {
    ceiling - altitude <= 0
  }

  /** fly_down refuses when the altitude has reached the floor. */
  predicate DescentRefused(floor: int, altitude: int) {
    floor - altitude >= 0
  }

  /** The number of 20 cm steps flyto_mission_ceiling climbs for a gap to the
      ceiling: `gap // 20 + 1`, or none when that is not positive. It is the
      least number of steps that ends strictly above the ceiling, so from at
      or below the ceiling the climb overshoots by more than 0 and at most
      20 cm. */
  function ClimbSteps(gap: int): (k: nat)
    ensures gap < 20 * k
    ensures k > 0 ==> 20 * (k - 1) <= gap
    ensures gap >= 0 ==> gap < 20 * k <= gap + 20
  {
    var time := gap / 20;
    if time + 1 > 0 then time + 1 else 0
  }

  /** The 20 cm climb from an altitude at or below the ceiling commands the
      gap plus an overshoot of more than 0 and at most 20 cm; from above the
      ceiling it commands nothing. */
  lemma ClimbReachesCeiling(ceiling: int, altitude: int)
    ensures var climb := CommandedCm(Repeat(Move(Up, 20), ClimbSteps(ceiling - altitude)));
      && (altitude <= ceiling ==> ceiling < altitude + climb <= ceiling + 20)
      && (altitude > ceiling ==> climb == 0)
  {
    CommandedCmRepeat(Up, 20, ClimbSteps(ceiling - altitude));
  }
}
