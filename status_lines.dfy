/**
 * The one line of Pango markup each status command prints, and readers that take a printed
 * line apart again. The readers are the partners of the builders: reading a built line gives
 * back exactly the colour, tag and value it was built from.
 */
module StatusLines {
  import opened Wrappers
  import opened Palette
  import opened Decimal
  import opened Bands

  const SpanOpen: string := "<span color='"
  const SpanClose: string := "</span>"

  /** <span color='HEX'>TEXT</span> */
  function Span(hex: string, text: string): string
  {
    SpanOpen + hex + "'>" + text + SpanClose
  }

  /** The tag of a metric line followed by its value, white, as a width-3 percentage. */
  function MetricLine(colour: Colour, tag: string, percent: nat): string
  {
    Span(Hex(colour), tag) + Span(Hex(White), Field(percent) + "%")
  }

  function MemLine(percent: nat): string
  {
    MetricLine(MemColor(percent), "MEM", percent)
  }

  function CpuLine(percent: nat): string
  {
    MetricLine(CpuColor(percent), "CPU", percent)
  }

  /** The output device named by the Headphone control's switch. */
  function DeviceLabel(headphoneStatus: string): (d: string)
    ensures d == "HEADPHONE" <==> headphoneStatus == "on"
    ensures d == "SPEAKER" <==> headphoneStatus != "on"
  {
    if headphoneStatus == "on" then "HEADPHONE" else "SPEAKER"
  }

  /** The device in the volume colour, then " mute" when Master is off, else the volume. */
  function VolumeLine(status: string, vol: nat, headphoneStatus: string): string
  {
    Span(Hex(VolumeColor(vol)), DeviceLabel(headphoneStatus))
      + (if status == "off" then " mute" else Field(vol) + "%")
  }

  /** BAT in the battery colour, then the unstyled charge and the remaining time HH:MM. */
  function BatteryLine(state: string, percent: nat, hour: string, minute: string): string
  {
    Span(Hex(BatteryColor(state, percent)), "BAT") + (Field(percent) + "% (" + hour + ":" + minute + ")")
  }

  // ---------------------------------------------------------------------
  // Reading lines back

  /** Splits s before the first occurrence of ch. */
  function SplitAt(s: string, ch: char): (r: (string, string))
    ensures r.0 + r.1 == s && ch !in r.0
    ensures r.1 == [] || r.1[0] == ch
  {
    if s == [] then ([], [])
    else if s[0] == ch then ([], s)
    else
      var r := SplitAt(s[1..], ch);
      ([s[0]] + r.0, r.1)
  }

  /** The split point is unique: any t free of ch followed by a u starting at ch is the split. */
  lemma {:induction false} SplitAtUnique(t: string, u: string, ch: char)
    requires ch !in t
    requires u == [] || u[0] == ch
    ensures SplitAt(t + u, ch) == (t, u)
  {
    if t != [] {
      var s := t + u;
      assert s[0] == t[0] != ch;
      assert s[1..] == t[1..] + u;
      assert ch !in t[1..];
      SplitAtUnique(t[1..], u, ch);
      assert SplitAt(s, ch) == ([s[0]] + t[1..], u);
      assert [t[0]] + t[1..] == t;
    } else {
      assert t + u == u;
    }
  }

  /** What follows the literal lit at the front of s, if s starts with it. */
  function Expect(s: string, lit: string): (r: Option<string>)
    ensures r.Some? ==> s == lit + r.value
  {
    if |lit| <= |s| && s[..|lit|] == lit then Some(s[|lit|..]) else None
  }

  lemma ExpectPrefix(lit: string, rest: string)
    ensures Expect(lit + rest, lit) == Some(rest)
  {
    assert (lit + rest)[..|lit|] == lit;
    assert (lit + rest)[|lit|..] == rest;
  }

  /** Takes one span off the front of s: its colour code, its text and what follows. */
  function ReadSpan(s: string): Option<(string, string, string)>
  {
    match Expect(s, SpanOpen)
    case None => None
    case Some(r0) =>
      var split1 := SplitAt(r0, '\'');
      match Expect(split1.1, "'>")
      case None => None
      case Some(r1) =>
        var split2 := SplitAt(r1, '<');
        match Expect(split2.1, SpanClose)
        case None => None
        case Some(r2) => Some((split1.0, split2.0, r2))
  }

  lemma SpanReadBack(hex: string, text: string, rest: string)
    requires '\'' !in hex && '<' !in text
    ensures ReadSpan(Span(hex, text) + rest) == Some((hex, text, rest))
  {
    var r2 := SpanClose + rest;
    var r1 := text + r2;
    var q := "'>" + r1;
    var r0 := hex + q;
    assert Span(hex, text) + rest == SpanOpen + r0;
    ExpectPrefix(SpanOpen, r0);
    SplitAtUnique(hex, q, '\'');
    ExpectPrefix("'>", r1);
    SplitAtUnique(text, r2, '<');
    ExpectPrefix(SpanClose, rest);
  }

  lemma HexHasNoQuote(c: Colour)
    ensures '\'' !in Hex(c)
  {
    var h := Hex(c);
    assert forall i :: 0 <= i < |h| ==> h[i] != '\'';
  }

  lemma FieldHasNo(n: nat, ch: char)
    requires ch != ' ' && !IsDigit(ch)
    ensures ch !in Field(n)
  {
    var f := Field(n);
    assert forall i :: 0 <= i < |f| ==> f[i] != ch;
  }

  /** Splits a trailing '%' off a value. */
  function DropPercent(s: string): Option<string>
  {
    if s != [] && s[|s| - 1] == '%' then Some(s[..|s| - 1]) else None
  }

  /** Reads a MEM/CPU line: the colour code of the tag, the tag and the percentage. */
  function ReadMetricLine(line: string): Option<(string, string, nat)>
  {
    match ReadSpan(line)
    case None => None
    case Some((hex, tag, rest)) =>
      match ReadSpan(rest)
      case None => None
      case Some((white, value, tail)) =>
        if tail != [] || white != Hex(White) then None
        else
          match DropPercent(value)
          case None => None
          case Some(digits) =>
            match ReadField(digits)
            case None => None
            case Some(p) => Some((hex, tag, p))
  }

  /** ReadMetricLine in terms of the two spans it takes off the line. */
  lemma ReadTwoSpans(line: string, hex: string, tag: string, rest: string, value: string)
    requires ReadSpan(line) == Some((hex, tag, rest))
    requires ReadSpan(rest) == Some((Hex(White), value, []))
    ensures ReadMetricLine(line)
         == match DropPercent(value)
            case None => None
            case Some(digits) =>
              match ReadField(digits)
              case None => None
              case Some(p) => Some((hex, tag, p))
  {
  }

  /** The value span of a metric line reads back as its colour and the field followed by '%'. */
  lemma ValueSpanReadBack(w: string, p: nat)
    requires '\'' !in w
    ensures ReadSpan(Span(w, Field(p) + "%")) == Some((w, Field(p) + "%", []))
  {
    var value := Field(p) + "%";
    FieldHasNo(p, '<');
    SpanReadBack(w, value, []);
    assert Span(w, value) + [] == Span(w, value);
  }

  /** ReadMetricLine of a line whose two spans are known. */
  lemma ReadMetricSpans(line: string, h: string, w: string, tag: string, p: nat)
    requires w == Hex(White)
    requires ReadSpan(line) == Some((h, tag, Span(w, Field(p) + "%")))
    requires ReadSpan(Span(w, Field(p) + "%")) == Some((w, Field(p) + "%", []))
    ensures ReadMetricLine(line) == Some((h, tag, p))
  {
    ReadTwoSpans(line, h, tag, Span(w, Field(p) + "%"), Field(p) + "%");
    assert DropPercent(Field(p) + "%") == Some(Field(p));
    ReadFieldOfField(p);
  }

  /** A label span in colour h followed by a value span in colour w reads back as h, the tag and the percentage. */
  lemma MetricLineReadBack(h: string, w: string, tag: string, p: nat)
    requires '\'' !in h && '\'' !in w && '<' !in tag
    requires w == Hex(White)
    ensures ReadMetricLine(Span(h, tag) + Span(w, Field(p) + "%")) == Some((h, tag, p))
  {
    SpanReadBack(h, tag, Span(w, Field(p) + "%"));
    ValueSpanReadBack(w, p);
    ReadMetricSpans(Span(h, tag) + Span(w, Field(p) + "%"), h, w, tag, p);
  }

  /** The memory line carries exactly the code of its band colour, the tag MEM and the percentage. */
  lemma MemLineReadBack(p: nat)
    ensures ReadMetricLine(MemLine(p)) == Some((Hex(MemColor(p)), "MEM", p))
  {
    HexHasNoQuote(MemColor(p));
    HexHasNoQuote(White);
    MetricLineReadBack(Hex(MemColor(p)), Hex(White), "MEM", p);
  }

  /** The CPU line carries exactly the code of its band colour, the tag CPU and the percentage. */
  lemma CpuLineReadBack(p: nat)
    ensures ReadMetricLine(CpuLine(p)) == Some((Hex(CpuColor(p)), "CPU", p))
  {
    HexHasNoQuote(CpuColor(p));
    HexHasNoQuote(White);
    MetricLineReadBack(Hex(CpuColor(p)), Hex(White), "CPU", p);
  }

  /** Reads a volume line: colour code, device, and the volume, or None for a muted line. */
  function ReadVolumeLine(line: string): Option<(string, string, Option<nat>)>
  {
    match ReadSpan(line)
    case None => None
    case Some((hex, device, rest)) =>
      match DropPercent(rest)
      case None => if rest == " mute" then Some((hex, device, None)) else None
      case Some(digits) =>
        match ReadField(digits)
        case None => None
        case Some(v) => Some((hex, device, Some(v)))
  }

  /** ReadVolumeLine in terms of the span it takes off the line. */
  lemma ReadVolumeSpan(line: string, hex: string, device: string, rest: string)
    requires ReadSpan(line) == Some((hex, device, rest))
    ensures ReadVolumeLine(line)
         == match DropPercent(rest)
            case None => if rest == " mute" then Some((hex, device, None)) else None
            case Some(digits) =>
              match ReadField(digits)
              case None => None
              case Some(v) => Some((hex, device, Some(v)))
  {
  }

  lemma MutedPartsReadBack(h: string, device: string)
    requires '\'' !in h && '<' !in device
    ensures ReadVolumeLine(Span(h, device) + " mute") == Some((h, device, None))
  {
    SpanReadBack(h, device, " mute");
    ReadVolumeSpan(Span(h, device) + " mute", h, device, " mute");
    assert DropPercent(" mute") == None;
  }

  lemma VolumePartsReadBack(h: string, device: string, vol: nat)
    requires '\'' !in h && '<' !in device
    ensures ReadVolumeLine(Span(h, device) + (Field(vol) + "%")) == Some((h, device, Some(vol)))
  {
    var rest := Field(vol) + "%";
    SpanReadBack(h, device, rest);
    ReadVolumeSpan(Span(h, device) + rest, h, device, rest);
    assert DropPercent(rest) == Some(Field(vol));
    ReadFieldOfField(vol);
  }

  /** The volume line carries the volume colour, the device, and the volume exactly when Master is not off. */
  lemma VolumeLineReadBack(status: string, vol: nat, headphoneStatus: string)
    ensures ReadVolumeLine(VolumeLine(status, vol, headphoneStatus))
         == Some((Hex(VolumeColor(vol)), DeviceLabel(headphoneStatus), if status == "off" then None else Some(vol)))
  {
    var h := Hex(VolumeColor(vol));
    var device := DeviceLabel(headphoneStatus);
    HexHasNoQuote(VolumeColor(vol));
    assert '<' !in device;
    if status == "off" {
      MutedPartsReadBack(h, device);
    } else {
      VolumePartsReadBack(h, device, vol);
    }
  }

  /** A muted volume line shows no percentage: it ends in " mute" and has no '%' at all. */
  lemma MutedLineHasNoPercent(vol: nat, headphoneStatus: string)
    ensures var line := VolumeLine("off", vol, headphoneStatus);
      |line| >= 5 && line[|line| - 5..] == " mute" && '%' !in line
  {
    var h := Hex(VolumeColor(vol));
    var device := DeviceLabel(headphoneStatus);
    var span := Span(h, device);
    var line := VolumeLine("off", vol, headphoneStatus);
    assert line == span + " mute";
    assert forall i :: 0 <= i < |h| ==> h[i] != '%';
    assert '%' !in h && '%' !in device && '%' !in SpanOpen && '%' !in SpanClose && '%' !in "'>";
    assert '%' !in span;
    assert line[|line| - 5..] == " mute";
  }

  /** Reads a battery line: colour code, tag, charge, and the hour and minute of the remaining time. */
  function ReadBatteryLine(line: string): Option<(string, string, nat, string, string)>
  {
    match ReadSpan(line)
    case None => None
    case Some((hex, tag, rest)) =>
      if |rest| < 9 then None
      else
        var tail := rest[|rest| - 9..];
        if tail[0] != '%' || tail[1] != ' ' || tail[2] != '(' || tail[5] != ':' || tail[8] != ')' then None
        else
          match ReadField(rest[..|rest| - 9])
          case None => None
          case Some(p) => Some((hex, tag, p, tail[3..5], tail[6..8]))
  }

  /** ReadBatteryLine in terms of the span it takes off the line. */
  lemma ReadBatterySpan(line: string, hex: string, tag: string, rest: string)
    requires ReadSpan(line) == Some((hex, tag, rest))
    requires |rest| >= 9
    ensures var tail := rest[|rest| - 9..];
      ReadBatteryLine(line)
        == if tail[0] != '%' || tail[1] != ' ' || tail[2] != '(' || tail[5] != ':' || tail[8] != ')' then None
           else
             match ReadField(rest[..|rest| - 9])
             case None => None
             case Some(p) => Some((hex, tag, p, tail[3..5], tail[6..8]))
  {
  }

  /** The nine characters "% (HH:MM)" that end a battery line. */
  lemma TimeSuffix(field: string, hour: string, minute: string)
    requires |hour| == 2 && |minute| == 2
    ensures var rest := field + "% (" + hour + ":" + minute + ")";
      && |rest| >= 9
      && rest[..|rest| - 9] == field
      && var tail := rest[|rest| - 9..];
         && tail[0] == '%' && tail[1] == ' ' && tail[2] == '(' && tail[5] == ':' && tail[8] == ')'
         && tail[3..5] == hour && tail[6..8] == minute
  {
    var time := "% (" + hour + ":" + minute + ")";
    var rest := field + time;
    assert |time| == 9;
    assert rest[..|rest| - 9] == field;
    assert rest[|rest| - 9..] == time;
    assert time[3..5] == hour && time[6..8] == minute;
  }

  /** ReadBatteryLine in terms of the span it takes off the line and what follows it. */
  lemma ReadBatteryParts(line: string, hex: string, tag: string, field: string, hour: string, minute: string)
    requires |hour| == 2 && |minute| == 2
    requires ReadSpan(line) == Some((hex, tag, field + "% (" + hour + ":" + minute + ")"))
    ensures ReadBatteryLine(line)
         == match ReadField(field)
            case None => None
            case Some(p) => Some((hex, tag, p, hour, minute))
  {
    TimeSuffix(field, hour, minute);
    ReadBatterySpan(line, hex, tag, field + "% (" + hour + ":" + minute + ")");
  }

  /** A BAT span in colour h followed by the charge and the time reads back as all four. */
  lemma BatteryPartsReadBack(h: string, p: nat, hour: string, minute: string)
    requires '\'' !in h
    requires |hour| == 2 && |minute| == 2
    ensures ReadBatteryLine(Span(h, "BAT") + (Field(p) + "% (" + hour + ":" + minute + ")"))
         == Some((h, "BAT", p, hour, minute))
  {
    var rest := Field(p) + "% (" + hour + ":" + minute + ")";
    SpanReadBack(h, "BAT", rest);
    ReadBatteryParts(Span(h, "BAT") + rest, h, "BAT", Field(p), hour, minute);
    ReadFieldOfField(p);
  }

  /** The battery line carries the battery colour, BAT, the charge and the HH:MM it was given. */
  lemma BatteryLineReadBack(state: string, p: nat, hour: string, minute: string)
    requires |hour| == 2 && |minute| == 2
    ensures ReadBatteryLine(BatteryLine(state, p, hour, minute))
         == Some((Hex(BatteryColor(state, p)), "BAT", p, hour, minute))
  {
    HexHasNoQuote(BatteryColor(state, p));
    BatteryPartsReadBack(Hex(BatteryColor(state, p)), p, hour, minute);
  }

  /** Memory at 85%: the label in red, the value " 85%" in white. */
  lemma MemAt85()
    ensures MemLine(85) == Span("#e71d36", "MEM") + Span("#fdfffc", " 85%")
  {
    assert Digits(85) == "85";
    assert Field(85) == " 85";
  }

  /** Battery at 55% while discharging: the label in gold. */
  lemma BatteryAt55Discharging()
    ensures BatteryLine("Discharging", 55, "01", "23") == Span("#efc88b", "BAT") + " 55% (01:23)"
  {
    assert Digits(55) == "55";
    assert Field(55) == " 55";
  }

  /** A charging battery is green even when nearly empty. */
  lemma BatteryChargingAt5()
    ensures BatteryLine("Charging", 5, "00", "40") == Span("#2ec4b6", "BAT") + "  5% (00:40)"
  {
    assert Digits(5) == "5";
    assert Field(5) == "  5";
  }

  lemma VolumeAt100Parts()
    ensures VolumeLine("on", 100, "off") == Span(Hex(VolumeColor(100)), DeviceLabel("off")) + (Field(100) + "%")
    ensures Span(Hex(VolumeColor(100)), DeviceLabel("off")) == Span("#e71d36", "SPEAKER")
  {
  }

  lemma FieldOf100()
    ensures Field(100) + "%" == "100%"
  {
    assert Digits(10) == "10";
    assert Digits(100) == "100";
  }

  /** Full volume on the speaker: three digits fill the field, no padding. */
  lemma VolumeAt100()
    ensures VolumeLine("on", 100, "off") == Span("#e71d36", "SPEAKER") + "100%"
  {
    VolumeAt100Parts();
    FieldOf100();
  }

  /** Master off: the headphone label in its volume colour, then " mute". */
  lemma VolumeMuted()
    ensures VolumeLine("off", 40, "on") == Span("#2ec4b6", "HEADPHONE") + " mute"
  {
  }
}
