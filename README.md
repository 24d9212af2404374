# perc status-bar snippets, modelled in Dafny

`perc` is a personal command-line tool. Its status-bar commands `mem`, `cpu`, `volume` and
`battery` each gather one value: a percentage, a mixer switch, or a battery state. Each command
then sorts the value into one of three colour bands from the fixed `COLORS` palette and prints one
line of Pango `<span>` markup. This project models the classify-and-format step of those four
commands as pure functions and proves what the printed line means.

Modules, one concern each:

- `Wrappers` (`wrappers.dfy`): `Option` and `Result`.
- `Palette` (`palette.dfy`): the `COLORS` dictionary, the code of each colour, and the reverse
  lookup from a code to its colour.
- `Decimal` (`decimal.dfy`): `str(n)` of a non-negative integer and `int()` of a captured group of
  digits (the empty group is a `ValueError`). It also holds the format spec `{n:>3}`: left-pad with
  spaces to three characters and never truncate. A reader takes the padded field back to its number.
- `Bands` (`bands.dfy`): the threshold chains of `mem`/`cpu` (80/40), `volume` (90/50) and
  `battery` (80/50, inverted). It also holds the battery override: any state other than
  `Discharging` is green.
- `StatusLines` (`status_lines.dfy`): the four line builders and the device label. Each builder has
  a reader partner. The read-back lemmas prove that reading a built line gives back exactly the
  colour code, the label and the value it was built from. So the line shape is unambiguous and
  nothing is lost in formatting. This module also holds concrete end-to-end scenarios.
- `Commands` (`commands.dfy`): each command end to end, from the gathered values or regex captures
  to the printed line. A failed match or an empty digit group becomes a `Failure` carrying the
  exception Python would raise. When several faults apply, the one returned is the one the source
  lines reach first.

## Model

| member | source | states |
|---|---|---|
| `Palette.Hex` | perc/cli.py:7-16 | every palette colour has a code of the form `#` plus six lower-case hex digits |
| `Palette.PaletteEntries` | perc/cli.py:7-16 | every colour's key is in `COLORS`, and `COLORS.get(key)` gives that colour's code |
| `Palette.ColourOfHex` | perc/cli.py:7-16 | a code that is read back names a colour whose code it is |
| `Palette.ColourOfHexInverse` | perc/cli.py:7-16 | reading a colour's code gives that colour back: no two palette entries share a code |
| `Palette.HexInjective` | perc/cli.py:7-16 | distinct colours render as distinct codes |
| `Bands.MemColor` | perc/cli.py:42-47 | red iff percent > 80, gold iff 40 < percent ≤ 80, green iff percent ≤ 40 |
| `Bands.CpuColor` | perc/cli.py:53-58 | the same three bands as memory, for the CPU percentage |
| `Bands.VolumeColor` | perc/cli.py:73-78 | red iff vol > 90, gold iff 50 < vol ≤ 90, green iff vol ≤ 50 |
| `Bands.BatteryLevelColor` | perc/cli.py:91-96 | green iff percent > 80, gold iff 50 < percent ≤ 80, red iff percent ≤ 50 |
| `Bands.BatteryColor` | perc/cli.py:91-99 | any state other than "Discharging" gives green whatever the percent; when discharging, the level colour |
| `Bands.BandsAreThreeColours` | perc/cli.py:42-96 | every input gets one of green, gold, red in each classifier |
| `Bands.CpuMatchesMem` | perc/cli.py:42-58 | for every percentage cpu and mem choose the same colour |
| `Bands.BatteryAlarmOnlyWhenDischarging` | perc/cli.py:91-99 | the battery is not green iff it is discharging at 80% or less |
| `Bands.BandsMonotone` | perc/cli.py:42-96 | more load or volume never gives a less alarming colour; more charge never a more alarming one |
| `Bands.Boundaries` | perc/cli.py:42-99 | each threshold value falls in the lower band (40, 80, 50, 90); 55% discharging is gold; 5% charging is green |
| `Decimal.Digits` | perc/cli.py:48 | `str(n)` is non-empty, all ASCII digits, with no leading zero unless n = 0 |
| `Decimal.ParseInt` | perc/cli.py:67 | `int()` of a digit group fails exactly on the empty group |
| `Decimal.ValueOfDigits` | perc/cli.py:86 | the numeral `str(n)` denotes n |
| `Decimal.ParseDigits` | perc/cli.py:86 | `int(str(n)) == n` |
| `Decimal.DigitsInjective` | perc/cli.py:48 | distinct numbers have distinct numerals |
| `Decimal.DigitsLength` | perc/cli.py:48 | n has at most k digits iff n < 10^k |
| `Decimal.RightJustify` | perc/cli.py:48 | `>width`: length max(width, len), the string kept whole as a suffix, spaces before it |
| `Decimal.Field` | perc/cli.py:48 | `{n:>3}` is max(3, digits) characters long, ends with `str(n)`, and everything before the numeral is a space |
| `Decimal.FieldWidth` | perc/cli.py:48 | the field is exactly 3 characters iff n < 1000 (so for every percentage 0..100) |
| `Decimal.ReadFieldOfField` | perc/cli.py:48 | reading the padded field back gives n: `{n:>3}` loses nothing |
| `Decimal.ReadFieldWidth` | perc/cli.py:48 | a field that reads back is at least three characters, and padded with spaces only up to three |
| `Decimal.UnpaddedIsNotAField` | perc/cli.py:48 | an unpadded "85" is not accepted as a field, so the read-back lemmas fix the width of three |
| `Decimal.FieldInjective` | perc/cli.py:48 | distinct numbers give distinct fields |
| `StatusLines.DeviceLabel` | perc/cli.py:72 | "HEADPHONE" iff the headphone switch is "on", otherwise "SPEAKER" |
| `StatusLines.SpanReadBack` | perc/cli.py:48 | `<span color='H'>T</span>` followed by anything reads back as H, T and the rest, when H has no quote and T no `<` |
| `StatusLines.MetricLineReadBack` | perc/cli.py:48 | a label span followed by the white value span reads back as the label colour, the label and the percentage |
| `StatusLines.MemLineReadBack` | perc/cli.py:48 | the MEM line carries exactly the code of `MemColor(p)`, the label MEM and p, in the white second span |
| `StatusLines.CpuLineReadBack` | perc/cli.py:59 | the CPU line carries exactly the code of `CpuColor(p)`, the label CPU and p |
| `StatusLines.VolumeLineReadBack` | perc/cli.py:72-79 | the volume line carries the volume-band colour and the device label, and carries the percentage iff Master is not "off" |
| `StatusLines.MutedLineHasNoPercent` | perc/cli.py:79 | with Master "off" the line ends in " mute" and contains no `%` at all |
| `StatusLines.BatteryLineReadBack` | perc/cli.py:101 | the battery line carries the battery colour, BAT, the percentage and the given HH and MM, with no white value span |
| `StatusLines.MemAt85` | perc/cli.py:42-48 | memory at 85% prints MEM in `#e71d36` and " 85%" in `#fdfffc` |
| `StatusLines.BatteryAt55Discharging` | perc/cli.py:91-101 | 55% discharging prints BAT in gold `#efc88b`, then " 55% (01:23)" |
| `StatusLines.BatteryChargingAt5` | perc/cli.py:98-101 | 5% charging prints BAT in green `#2ec4b6`, then "  5% (00:40)" |
| `StatusLines.VolumeAt100` | perc/cli.py:72-79 | 100% on the speaker prints SPEAKER in red, then "100%" with no padding |
| `StatusLines.VolumeMuted` | perc/cli.py:72-79 | Master off at 40% on headphones prints HEADPHONE in the green volume colour, then " mute" |
| `Commands.Mem` | perc/cli.py:41-48 | the printed line reads back as the memory colour of the truncated reading, MEM, and the truncated reading |
| `Commands.Cpu` | perc/cli.py:52-59 | the same for the CPU reading and label CPU |
| `Commands.TruncationDecidesBand` | perc/cli.py:41-48 | a reading strictly between 80 and 81 is truncated to 80 and shown in gold, not red |
| `Commands.Volume` | perc/cli.py:63-79 | fails with ValueError iff Master matched with an empty volume group. Fails with AttributeError iff that did not happen and the Headphone pattern failed. Fails with UnboundLocalError iff Master did not match but Headphone did. Otherwise the line reads back as the volume colour, the device, and the volume unless muted |
| `Commands.Battery` | perc/cli.py:83-101 | fails with AttributeError iff the acpi pattern did not match, and with ValueError iff the percent group is empty. Otherwise the line reads back as the battery colour, BAT, `int(percent)`, hour and minute |
| `Commands.LeadingZerosDropped` | perc/cli.py:86-101 | a percent group "007" prints the same line as "7": `int()` drops the zeros before formatting |
| `Commands.ChargingIsGreen` | perc/cli.py:91-101 | a well-formed battery capture in any state other than Discharging succeeds, and its line shows the green code |

Facts about the code that the lemmas pin down:

- A muted volume line keeps the device label in the colour of its volume band (perc/cli.py:73-79).
  `VolumeLineReadBack` and `VolumeMuted` state this.
- A battery that is not discharging keeps the label `BAT`; only the colour is forced to green
  (perc/cli.py:98-101). `ChargingIsGreen` and `BatteryChargingAt5` state this.
- The Master switch, not the Headphone switch, turns the value into " mute" (perc/cli.py:79). The
  Headphone switch only picks the label. `VolumeLineReadBack` states this.

Reader helpers carry no source citation: they exist only to read the built lines back.
`Decimal.TrimLeft` drops leading spaces, and `Decimal.TrimSpaces` proves it drops exactly the
leading run. `StatusLines.SplitAt` splits a string at the first occurrence of a character, and
`StatusLines.SplitAtUnique` proves that split is the only one.

## Left out

- Reading live values is left out. That means `psutil.virtual_memory`, `psutil.cpu_percent(interval=1)`,
  and the `amixer` and `acpi` calls through `check_output` (perc/cli.py:41, 52, 63, 69, 83). These are
  operating-system and external-process I/O. Their results are parameters: a real reading for `mem`
  and `cpu`, and the captured groups for `volume` and `battery`.
- The regular expressions (perc/cli.py:64, 70, 84) are left out. This covers `re.search` semantics,
  the `[A-z]` range quirk and `\s`/`\w` classes. A failed match is `None`, and a successful one gives
  its groups. The groups are assumed to have the shape the pattern forces: ASCII digits for the
  numbers, `on`/`off` for the Master switch, two digits each for hour and minute.
- `Commands.Battery`: Python's `\d` also matches non-ASCII decimal digits, and `int()` accepts them.
  The model admits ASCII digits only.
- `Commands.Mem`, `Commands.Cpu`: psutil's percentages are taken as non-negative reals. `int()`
  truncation is modelled as the floor, which is the same for non-negative values. Negative
  readings do not occur.
- `StatusLines.ReadMetricLine`, `StatusLines.ReadVolumeLine`, `StatusLines.ReadBatteryLine`: the
  readers return the colour's code rather than the colour. `Palette.ColourOfHexInverse` maps the code
  back to the one colour it belongs to.
- `hello`, `date` and `time` (perc/cli.py:24-37) are left out. They are a greeting and
  `datetime.now().strftime`: wall clock plus library formatting.
- The `click` group, command registration and `click.echo` (perc/cli.py:18-22 and every command) are
  left out. The model produces the line's text; the trailing newline `echo` adds is not part of it.
- `Decimal.ParseInt`, `Commands.Volume`, `Commands.Battery`: CPython 3.11 and later (and the
  3.10.7, 3.9.14, 3.8.14 and 3.7.14 backports) also raise ValueError from `int()` on a digit group
  longer than `sys.int_max_str_digits` (4300 by default). The model does not have this limit, so it
  parses such a group. `amixer` and `acpi` never print groups that long.
