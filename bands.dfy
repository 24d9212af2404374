/**
 * The three-band colour choice of each status command: a value is compared against two
 * fixed thresholds and gets one of green, gold or red from the palette.
 */
module Bands {
  import opened Palette

  /** How alarming a band colour is: green < gold < red. */
  function Severity(c: Colour): nat
  {
    match c
    case Green => 0
    case Gold => 1
    case Red => 2
    case _ => 3
  }

  /** Memory load: red above 80, gold above 40, green otherwise. */
  function MemColor(percent: int): (c: Colour)
    ensures c == Red <==> percent > 80
    ensures c == Gold <==> 40 < percent <= 80
    ensures c == Green <==> percent <= 40
  {
    if percent > 80 then Red
    else if percent > 40 then Gold
    else Green
  }

  /** CPU load: the same thresholds as memory, written out again in the command. */
  function CpuColor(percent: int): (c: Colour)
    ensures c == Red <==> percent > 80
    ensures c == Gold <==> 40 < percent <= 80
    ensures c == Green <==> percent <= 40
  {
    if percent > 80 then Red
    else if percent > 40 then Gold
    else Green
  }

  /** Output volume: red above 90, gold above 50, green otherwise. */
  function VolumeColor(vol: int): (c: Colour)
    ensures c == Red <==> vol > 90
    ensures c == Gold <==> 50 < vol <= 90
    ensures c == Green <==> vol <= 50
  {
    if vol > 90 then Red
    else if vol > 50 then Gold
    else Green
  }

  /** Battery charge, inverted: a full battery is green, gold above 50, red at 50 and below. */
  function BatteryLevelColor(percent: int): (c: Colour)
    ensures c == Green <==> percent > 80
    ensures c == Gold <==> 50 < percent <= 80
    ensures c == Red <==> percent <= 50
  {
    if percent > 80 then Green
    else if percent > 50 then Gold
    else Red
  }

  /** Any state other than "Discharging" (charging, full, unknown) overrides the level with green. */
  function BatteryColor(state: string, percent: int): (c: Colour)
    ensures state != "Discharging" ==> c == Green
    ensures state == "Discharging" ==> c == BatteryLevelColor(percent)
  {
    var level := BatteryLevelColor(percent);
    if state != "Discharging" then Green else level
  }

  /** Every band colour is one of green, gold and red: no input falls outside the three bands. */
  lemma BandsAreThreeColours(p: int)
    ensures MemColor(p) in {Green, Gold, Red}
    ensures CpuColor(p) in {Green, Gold, Red}
    ensures VolumeColor(p) in {Green, Gold, Red}
    ensures BatteryLevelColor(p) in {Green, Gold, Red}
  {
  }

  /** For every percentage the CPU and memory commands choose the same colour. */
  lemma CpuMatchesMem(p: int)
    ensures CpuColor(p) == MemColor(p)
  {
  }

  /** Only a discharging battery below 81% is ever shown in anything but green. */
  lemma BatteryAlarmOnlyWhenDischarging(state: string, p: int)
    ensures BatteryColor(state, p) != Green <==> state == "Discharging" && p <= 80
  {
  }

  /** A higher load never gives a less alarming colour; a fuller battery never a more alarming one. */
  lemma BandsMonotone(p: int, q: int)
    requires p <= q
    ensures Severity(MemColor(p)) <= Severity(MemColor(q))
    ensures Severity(VolumeColor(p)) <= Severity(VolumeColor(q))
    ensures Severity(BatteryLevelColor(p)) >= Severity(BatteryLevelColor(q))
  {
  }

  /** The authored boundaries: each threshold belongs to the lower band. */
  lemma Boundaries()
    ensures MemColor(40) == Green && MemColor(41) == Gold && MemColor(80) == Gold && MemColor(81) == Red
    ensures VolumeColor(50) == Green && VolumeColor(51) == Gold && VolumeColor(90) == Gold && VolumeColor(91) == Red
    ensures BatteryColor("Discharging", 50) == Red && BatteryColor("Discharging", 51) == Gold
    ensures BatteryColor("Discharging", 80) == Gold && BatteryColor("Discharging", 81) == Green
    ensures BatteryColor("Discharging", 55) == Gold && BatteryColor("Charging", 5) == Green
  {
  }
}
