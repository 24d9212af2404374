/**
 * The status commands end to end, from the values they gather to the line they print.
 * The gathering itself (psutil, amixer, acpi and the regular expressions over their output)
 * is outside the model: each command takes the numbers or the captured groups as parameters,
 * with a failed match as None. Python's uncaught exceptions become Failure values, raised in
 * the order in which the command's lines would meet them.
 */
module Commands {
  import opened Wrappers
  import opened Decimal
  import opened Bands
  import opened Palette
  import opened StatusLines

  /** The exceptions that end a status command. */
  datatype Fault =
    | NotALiteral  // int() of an empty captured group (ValueError)
    | NoMatch      // .group() called on a failed re.search (AttributeError)
    | Unbound      // the volume read although the Master pattern did not match (UnboundLocalError)

  /** mem: psutil reports a float percentage, which int() truncates before it is classified. */
  function Mem(reading: real): (line: string)
    requires reading >= 0.0
    ensures ReadMetricLine(line) == Some((Hex(MemColor(reading.Floor)), "MEM", reading.Floor))
  {
    MemLineReadBack(reading.Floor);
    MemLine(reading.Floor)
  }

  /** cpu: as mem, over the CPU percentage. */
  function Cpu(reading: real): (line: string)
    requires reading >= 0.0
    ensures ReadMetricLine(line) == Some((Hex(CpuColor(reading.Floor)), "CPU", reading.Floor))
  {
    CpuLineReadBack(reading.Floor);
    CpuLine(reading.Floor)
  }

  /** A reading just above 80 is truncated to 80 first, so it is still shown in gold. */
  lemma TruncationDecidesBand(reading: real)
    requires 80.0 < reading < 81.0
    ensures Mem(reading) == MemLine(80)
    ensures ReadMetricLine(Mem(reading)) == Some((Hex(Gold), "MEM", 80))
  {
    assert reading.Floor == 80;
  }

  /** The two groups of the Master pattern: the volume digits and the on/off switch. */
  datatype MasterCapture = MasterCapture(volume: string, status: string)

  predicate WellFormedMaster(m: MasterCapture)
  {
    IsDigits(m.volume) && (m.status == "on" || m.status == "off")
  }

  /**
   * volume: master is the Master match (None when the pattern fails), headphone the switch
   * captured from the Headphone control (None when that pattern fails).
   */
  function Volume(master: Option<MasterCapture>, headphone: Option<string>): (r: Result<string, Fault>)
    requires master.Some? ==> WellFormedMaster(master.value)
    ensures r == Failure(NotALiteral) <==> master.Some? && master.value.volume == []
    ensures r == Failure(NoMatch) <==> (master.None? || master.value.volume != []) && headphone.None?
    ensures r == Failure(Unbound) <==> master.None? && headphone.Some?
    ensures r.Success? ==>
      master.Some? && headphone.Some? &&
      var vol := Value(master.value.volume);
      ReadVolumeLine(r.value)
        == Some((Hex(VolumeColor(vol)), DeviceLabel(headphone.value),
                 if master.value.status == "off" then None else Some(vol)))
  {
    if master.Some? && master.value.volume == [] then Failure(NotALiteral)
    else if headphone.None? then Failure(NoMatch)
    else if master.None? then Failure(Unbound)
    else
      var vol := Value(master.value.volume);
      VolumeLineReadBack(master.value.status, vol, headphone.value);
      Success(VolumeLine(master.value.status, vol, headphone.value))
  }

  /** The four groups of the acpi pattern: state, charge digits, and two-digit hour and minute. */
  datatype BatteryCapture = BatteryCapture(state: string, percent: string, hour: string, minute: string)

  predicate WellFormedBattery(b: BatteryCapture)
  {
    && IsDigits(b.percent)
    && |b.hour| == 2 && IsDigits(b.hour)
    && |b.minute| == 2 && IsDigits(b.minute)
  }

  /** battery: capture is the acpi match, None when the pattern fails. */
  function Battery(capture: Option<BatteryCapture>): (r: Result<string, Fault>)
    requires capture.Some? ==> WellFormedBattery(capture.value)
    ensures r == Failure(NoMatch) <==> capture.None?
    ensures r == Failure(NotALiteral) <==> capture.Some? && capture.value.percent == []
    ensures r.Success? ==>
      capture.Some? &&
      var b := capture.value;
      var p := Value(b.percent);
      ReadBatteryLine(r.value) == Some((Hex(BatteryColor(b.state, p)), "BAT", p, b.hour, b.minute))
  {
    match capture
    case None => Failure(NoMatch)
    case Some(b) =>
      if b.percent == [] then Failure(NotALiteral)
      else
        var p := Value(b.percent);
        BatteryLineReadBack(b.state, p, b.hour, b.minute);
        Success(BatteryLine(b.state, p, b.hour, b.minute))
  }

  /** int() drops leading zeros: "007" is shown as "  7", the same line as "7". */
  lemma LeadingZerosDropped(state: string, hour: string, minute: string)
    requires |hour| == 2 && IsDigits(hour) && |minute| == 2 && IsDigits(minute)
    ensures Battery(Some(BatteryCapture(state, "007", hour, minute)))
         == Battery(Some(BatteryCapture(state, "7", hour, minute)))
  {
    assert "007"[..2] == "00" && "00"[..1] == "0" && "0"[..0] == [];
    assert Value("007") == 7;
    assert Value("7") == 7;
  }

  /** A charging battery reads back green whatever its charge. */
  lemma ChargingIsGreen(b: BatteryCapture)
    requires WellFormedBattery(b) && b.percent != [] && b.state != "Discharging"
    ensures Battery(Some(b)).Success?
    ensures ReadBatteryLine(Battery(Some(b)).value).Some?
    ensures ReadBatteryLine(Battery(Some(b)).value).value.0 == Hex(Green)
  {
  }
}
