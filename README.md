# Hurricane track analysis — a Dafny model

`Hurricane-Data.py` reads the HURDAT2 best-track file of Atlantic storms. Each
storm is a header line (`id, name, number of data lines,`) followed by that many
data lines. Each data line holds a date, a time, a record identifier (`L` marks
a landfall), a status, a latitude and a longitude with hemisphere letters,
then integers: the maximum sustained wind, the central pressure, and twelve
wind radii (34, 50 and 64 kt, each for the NE, SE, SW and NW quadrants; -999
means missing).

The script parses one storm at a time from an open file. It then computes:

- the storm's peak wind and when it first occurred;
- its number of landfalls;
- the length of each track segment in nautical miles;
- the propagation speed of each segment;
- a per-storm report.

It also tests a hypothesis: the largest wind extent lies 45 to 90 degrees
clockwise of the storm's heading. For each segment it compares the quadrant
that the heading predicts with the quadrant of the largest radius in the wind
radii, and it tallies the agreements.

The model has seven modules:

- `Common`: Option and Result. The error cases mirror the Python exception
  classes that the script raises (IndexError, ValueError).
- `Text`: the parts of Python's `str` the parser relies on. These are
  `split`, `strip`, `int()`, substring search and a formatting round trip.
- `Compass`: `flip_direction`, `degree_normalized` and `degree_2_quadrant`.
- `Geodesy`: `myLatLon` and its longitude normalisation. The ellipsoidal
  distance and bearing are an `Earth` value of two functions.
- `Hurdat`:
  - the open file is the class `LineReader`, with a cursor that `ReadLine`
    advances;
  - `read_n_parse_a_storm` is the method `ReadNParseAStorm`. It is proved
    equal to the functional reader `ReadStorm`;
  - the in-place rewriting of a data row is the method `ArrangeRow`.
- `Track`: the per-storm metrics and `storm_report`.
- `Quadrants`: the hypothetical and actual quadrants, the accuracy rate, and
  the per-storm tally of the main program.

Some behaviour is specified by the code rather than by the doc strings:

- In `actual_quadrant`, a 64-kt tier whose radii sum above zero does not pick
  a quadrant. It stops the scan, and the row is NA. The doc string says the
  highest non-zero tier decides. The model follows the code; `Quadrants.TierRule`
  and `Quadrants.TierRuleExamples` state the rule.
- The 50-kt tier decides unless its four radii are equal.
- The 34-kt tier is used only after an all-equal 50-kt tier whose radii sum to
  zero or less.

## Model

| member | source | states |
|---|---|---|
| Compass.FlipDirection | Hurricane-Data.py:5-29 | Succeeds exactly on N, E, S, W. The result is a different cardinal letter. Anything else raises ValueError with the script's message. |
| Compass.FlipInvolution | Hurricane-Data.py:5-29 | Flipping twice returns the letter. E and W stay on the east–west axis. |
| Compass.FlipRejectsIntercardinal | Hurricane-Data.py:15-29 | "SE" and "" are rejected. |
| Geodesy.NormalizeLongitude | Hurricane-Data.py:54-57 | A longitude of at most 180 degrees is kept. Above 180 it succeeds iff the letter is cardinal, and the result is at most 180. |
| Geodesy.NormalizeLongitudeSamePoint | Hurricane-Data.py:54-57 | For E/W, reflecting to 360 - value with the flipped letter changes the signed longitude by a whole turn, so it is the same meridian. |
| Geodesy.NormalizeLongitudeNeedsLetter | Hurricane-Data.py:47-56 | A longitude over 180 with no hemisphere letter raises. |
| Geodesy.MyLatLon | Hurricane-Data.py:31-58 | An empty longitude raises IndexError. Otherwise the trailing E or W is split off, and a number `float()` cannot read raises its ValueError. A readable number is normalised: the result is the position with that normalised longitude, or the normalisation's error. A built position keeps the latitude and has a longitude of at most 180 with hemisphere E, W or none. |
| Geodesy.LonLetter | Hurricane-Data.py:47-53 | The hemisphere is the text's last character when that is E or W, and none otherwise. |
| Geodesy.LonNumber | Hurricane-Data.py:48-53 | The number part followed by the letter gives back the longitude text. |
| Geodesy.MyLatLonWrapsWest | Hurricane-Data.py:37-43 | The doc-string example: 358.0W and 2.0E give the same position. |
| Compass.DegreeNormalized | Hurricane-Data.py:102-115 | As written: the result is coterminal with the input. It is in [0, 360) for non-negative input and in (-360, 0] for negative input. |
| Compass.DegreeNormalizedMissesRange | Hurricane-Data.py:102-115 | -420 gives -60 and -90 stays out of range. The corrected reduction gives 300 for -420. |
| Compass.NormalizeDegree | Hurricane-Data.py:102-115 | The intended reduction: the result is in [0, 360) and coterminal with the input. It agrees with the code for every non-negative degree. |
| Compass.NormalizeDegreeTurns | Hurricane-Data.py:102-115 | The reduction is idempotent and ignores whole turns. |
| Compass.DocExamples | Hurricane-Data.py:102-140 | 420 gives 60; 45 is NE; 300 is NW; 365 and -1 are NA. |
| Compass.DegreeToQuadrant | Hurricane-Data.py:117-140 | [0, 90) is NE, [90, 180) is SE, [180, 270) is SW and [270, 360) is NW. Anything outside [0, 360) is NA. |
| Compass.QuarterTurn | Hurricane-Data.py:117-140 | Adding 90 degrees moves the quadrant one step clockwise. |
| Track.HoursElapsed | Hurricane-Data.py:60-70 | The result is non-negative. It is zero iff the times are equal, and for ordered times it is the difference in minutes divided by 60. |
| Track.HoursElapsedSymmetric | Hurricane-Data.py:60-70 | The result is symmetric, and it adds up over consecutive intervals. |
| Track.HoursElapsedDocExample | Hurricane-Data.py:66-67 | Six days and six hours give 150 hours. |
| Text.Split | Hurricane-Data.py:161 | `str.split`: at least one piece, and no piece holds the separator. |
| Text.JoinSplit | Hurricane-Data.py:161 | Joining the pieces with the separator restores the line. |
| Text.TrimLeft | Hurricane-Data.py:161 | Removes exactly the leading whitespace. |
| Text.TrimRight | Hurricane-Data.py:161 | Removes exactly the trailing whitespace. |
| Text.Strip | Hurricane-Data.py:161 | The result is the text with a whitespace prefix and a whitespace suffix removed, and it neither starts nor ends with whitespace. That pins it down to `strip()`. |
| Text.Fields | Hurricane-Data.py:161 | One field per comma-separated piece, and field k is piece k stripped. |
| Text.ContainsAt | Hurricane-Data.py:170 | `storm_ID in line` holds iff the id occurs at some offset. |
| Text.ParseInt | Hurricane-Data.py:164 | `int()` of a stripped field succeeds iff the field is an optional sign followed by one or more digits and nothing else. |
| Text.ParseFormatInt | Hurricane-Data.py:164 | Parsing the decimal text of any integer gives that integer back. |
| Text.DigitsValueOfFormat | Hurricane-Data.py:164 | A natural number's digit string has that value. |
| Hurdat.ParseInts | Hurricane-Data.py:189-190 | Succeeds iff every column is an integer. It then gives one integer per column, each that column's `int()`. |
| Hurdat.ParseReady | Hurricane-Data.py:184-191 | Succeeds iff the date and time parse, there are at least six fields, `myLatLon` accepts the latitude and longitude, and every later field is an integer. An unparsable timestamp raises the `strptime` ValueError, and too few fields raise IndexError. A row carries the id and name, the merged timestamp, columns 2 and 3 as text, the `myLatLon` position, and one `int()` per later column. |
| Hurdat.ParseRecord | Hurricane-Data.py:183-191 | A parsed line has at least 7 stripped comma fields. The row is built from all but the last of them: the id and name, the timestamp of fields 0 and 1, fields 2 and 3, the position of fields 4 and 5, and one integer per field from 6 up to the second-to-last. |
| Hurdat.EmptyLineIsNoRecord | Hurricane-Data.py:182-185 | Reading past the end of the file (an empty line) raises, never yields a row. |
| Hurdat.ConvertNumbers | Hurricane-Data.py:189-190 | The integer-forcing loop fails iff some column is not an integer, with `int()`'s ValueError. Otherwise it keeps the first four cells and turns each later cell into its integer. |
| Hurdat.ArrangeRow | Hurricane-Data.py:185-191 | The in-place edits of `line_ready` (assign, `del`, assign, `del`, convert) produce exactly `ParseReady`, including which of the modelled errors comes first. |
| Hurdat.PlaceRow | Hurricane-Data.py:187-191 | Once the timestamp is in place, the row is built iff `myLatLon` accepts the latitude and longitude and every later column is an integer. A built row's position is that `myLatLon` result. Its two text columns are kept, and it has one integer per later column, each that column's `int()`. |
| Hurdat.BuildRow | Hurricane-Data.py:189-191 | After the position: the row is built iff every later column is an integer, with the id and name leading and one integer per column. |
| Hurdat.PlaceStep | Hurricane-Data.py:187-191 | Replacing slot 3 by the position, deleting slot 4 and converting the rest gives exactly `PlaceRow`. |
| Hurdat.FinishRow | Hurricane-Data.py:189-191 | Converting slots 4 onward in place and prefixing id and name gives exactly `BuildRow`. |
| Hurdat.ParseDataLine | Hurricane-Data.py:182-191 | Reading one data line is exactly `ParseRecord`. |
| Hurdat.LineReader.constructor | Hurricane-Data.py:142 | A fresh reader is at the start of the file. |
| Hurdat.LineReader.ReadLine | Hurricane-Data.py:158 | `readline` returns the next line and advances. At the end it returns "" and stays, and "" means the end. |
| Hurdat.ParseHeader | Hurricane-Data.py:159-164 | A header parses iff it has three fields and the third is an integer. The id and name are stripped fields 0 and 1, and the count is `int()` of field 2. Fewer than three fields raise IndexError. |
| Hurdat.RecordParser | Hurricane-Data.py:182-191 | The parser of one storm's data lines rejects the empty line. |
| Hurdat.ParserApplies | Hurricane-Data.py:182-191 | That parser is `ParseRecord` for the storm's id and name. |
| Hurdat.ReadRows | Hurricane-Data.py:181-192 | The cursor only moves forward. A successful block has as many rows as the header's count (none for a count ≤ 0), and the cursor ends one line per row further on. |
| Hurdat.ReadBlock | Hurricane-Data.py:181-192 | Once a header has been read, the result is a storm or an error, never None. |
| Hurdat.ReadRowsAt | Hurricane-Data.py:181-191 | Row k of a successful block is the parse of line p + k. |
| Hurdat.Prepend | Hurricane-Data.py:191 | The rows already read come first and the rest's rows follow them. An error passes through unchanged. The cursor is where the rest left it. |
| Hurdat.DataLineStep | Hurricane-Data.py:181-191 | One iteration of the data loop: a failing line ends the read with its error, otherwise the row goes in front of the rest. |
| Hurdat.NoMoreLines | Hurricane-Data.py:181 | A count of zero reads nothing. |
| Hurdat.FindHeader | Hurricane-Data.py:168-180 | The search stops at the first line holding the id, past lines without it. It fails iff no line holds it. |
| Hurdat.ReadDataLine | Hurricane-Data.py:182-191 | One `readline` plus parse: the cursor advances one line and the row is that line's parse. |
| Hurdat.ReadDataLines | Hurricane-Data.py:181-192 | The data loop leaves the rows and the cursor exactly as `ReadRows` says. |
| Hurdat.ReadNParseAStorm | Hurricane-Data.py:142-192 | Both cases of `read_n_parse_a_storm` (the next storm, or the storm with a given id) return what `ReadStorm` returns and leave the file where it says. |
| Hurdat.SequentialNoneAtEnd | Hurricane-Data.py:157-166 | Reading the next storm gives None iff the file is exhausted, and then the cursor stays. |
| Hurdat.SequentialStorm | Hurricane-Data.py:157-164 | A storm read in order starts with a header line at the cursor. |
| Hurdat.SequentialBlock | Hurricane-Data.py:157-192 | That storm has as many rows as its header counts, and the cursor moves past the header and the rows. |
| Hurdat.BlockRowAt | Hurricane-Data.py:181-191 | Row k of a block is `ParseRecord` of its line. |
| Hurdat.BlockRowsLabelled | Hurricane-Data.py:191 | Every row carries the storm's id and name. |
| Hurdat.LookupNoneWhenAbsent | Hurricane-Data.py:168-178 | A lookup by id returns None when no remaining line holds the id. |
| Hurdat.LookupBlock | Hurricane-Data.py:168-192 | A lookup by id reads the block after the first line holding the id. |
| Track.Segments | Hurricane-Data.py:204-237 | A storm of n rows has n - 1 segments. |
| Track.PeakWind | Hurricane-Data.py:72-88 | The peak wind is never negative. |
| Track.PeakWindBounds | Hurricane-Data.py:72-88 | It bounds every row's wind, and a positive peak is some row's wind. |
| Track.PeakTime | Hurricane-Data.py:72-88 | The time is None iff no row's wind is positive. |
| Track.PeakTimeIsFirst | Hurricane-Data.py:72-88 | The time is that of the first row reaching the peak, because the comparison is strict. |
| Track.GetMaxWindAndDatetime | Hurricane-Data.py:72-88 | The loop returns the peak wind and its first time. The wind bounds all rows and is never negative, and the time is None iff the wind is 0. |
| Track.LandfallsIn | Hurricane-Data.py:90-100 | The count is at most the number of rows. |
| Track.LandfallsAppend | Hurricane-Data.py:90-100 | The count adds up over concatenated tracks. |
| Track.LandfallsExtremes | Hurricane-Data.py:90-100 | The count is 0 iff no row is marked L. It equals the row count iff every row is marked L. |
| Track.GetCountLandfall | Hurricane-Data.py:90-100 | The loop returns the landfall count. |
| Track.Positions | Hurricane-Data.py:194-202 | One position per row, in order. |
| Track.SegmentDistance | Hurricane-Data.py:204-218 | A segment length is non-negative, 0 where the geodesy raises, and otherwise the metres divided by 1852. |
| Track.Distances | Hurricane-Data.py:204-218 | One length per segment, between consecutive positions. |
| Track.PathDistance | Hurricane-Data.py:204-218 | The loop returns those lengths, all non-negative. |
| Track.Speed | Hurricane-Data.py:231-235 | A speed is non-negative. It is 0 for a zero time span (the ZeroDivisionError case), and otherwise speed × hours = distance. |
| Track.SegmentSpeed | Hurricane-Data.py:220-237 | A segment's speed is its length over the hours between its two rows, or 0 for a zero span, and it is never negative. |
| Track.Speeds | Hurricane-Data.py:220-237 | One speed per segment. |
| Track.PathPropagationSpeed | Hurricane-Data.py:220-237 | The loops return those speeds, all non-negative. |
| Track.MaxOf | Hurricane-Data.py:271 | `max` of a non-empty list is an element and bounds them all. |
| Track.SumBetween | Hurricane-Data.py:276 | A sum of values in [0, b] lies between 0 and n·b. |
| Track.MeanBetween | Hurricane-Data.py:276 | A mean of values in [0, b] lies in [0, b]. |
| Track.AddUp | Hurricane-Data.py:267-270 | The summing loop returns the sum. |
| Track.SpeedSummary | Hurricane-Data.py:271-278 | The max and the mean are None iff there are no speeds. The max is a speed bounding all of them. Mean × count = sum, and 0 ≤ mean ≤ max. |
| Track.StormReport | Hurricane-Data.py:239-285 | The report carries the id, the name, and the first and last times. Its peak wind and time, landfall count, total distance and speed summary agree with the definitions above. The speeds are None iff the storm has one row. |
| Track.TotalDistanceNonNegative | Hurricane-Data.py:267-270 | The total distance is never negative. |
| Quadrants.Max4 | Hurricane-Data.py:327 | `max` of four integers is one of them and bounds them all. |
| Quadrants.ArgMax | Hurricane-Data.py:327-344 | The chosen quadrant has the largest radius. Every quadrant tested before it has a strictly smaller one, so ties go NE, SE, SW, NW. |
| Quadrants.TierRuleUndetermined | Hurricane-Data.py:323-344 | A row is NA iff its 64-kt sum is positive, or its 50-kt radii are equal and either sum positive or the 34-kt radii are equal too. |
| Quadrants.TierRuleMaximal | Hurricane-Data.py:323-344 | A determined quadrant comes with a 64-kt sum ≤ 0. It holds the largest radius of the deciding tier (50 kt, else 34 kt), with ties going to the earlier quadrant. |
| Quadrants.TierRuleIgnores34 | Hurricane-Data.py:323-344 | When the 50-kt radii differ, the 34-kt radii do not matter. |
| Quadrants.TierRuleExamples | Hurricane-Data.py:310-345 | Concrete rows: 64-kt radii make the row NA, the same 50-kt radii alone decide SE, a tie goes to NE, missing tiers fall through to 34 kt, and equal radii are NA. |
| Quadrants.ClassifyRow | Hurricane-Data.py:319-345 | The scan over one row's radii (the while loop with `continue` and `break`) returns the tier rule's quadrant. |
| Quadrants.Actuals | Hurricane-Data.py:310-346 | One quadrant per segment: the rule applied to the row that ends it. |
| Quadrants.ActualQuadrant | Hurricane-Data.py:310-346 | The loop over the rows after the first returns exactly those quadrants. |
| Quadrants.SegmentBearing | Hurricane-Data.py:297-300 | The heading is the geodesic bearing, or 0 where the library raises. |
| Quadrants.HypoBoundsAdjacent | Hurricane-Data.py:301-304 | Both hypothetical bounds are real quadrants. The upper one is the lower one or the next one clockwise. |
| Quadrants.HypoBoundsOfZero | Hurricane-Data.py:297-304 | A failed bearing gives NE and SE. |
| Quadrants.HypoBoundsAsWritten | Hurricane-Data.py:301-302 | On every heading the script produces, the corrected reduction equals `degree_normalized` as written. |
| Quadrants.HypotheticalQuadrant | Hurricane-Data.py:287-308 | One lower and one upper quadrant per segment, from that segment's bearing + 45 and + 90 (exactly `Lowers` and `Uppers`), never NA. |
| Quadrants.Lowers | Hurricane-Data.py:297-306 | One lower bound per segment: the quadrant of its bearing + 45. |
| Quadrants.Uppers | Hurricane-Data.py:297-307 | One upper bound per segment: the quadrant of its bearing + 90. |
| Quadrants.Known | Hurricane-Data.py:357-365 | The number of determined quadrants is at most the length. |
| Quadrants.Hits | Hurricane-Data.py:357-365 | The successes never exceed the determined quadrants. |
| Quadrants.KnownZeroIffUndetermined | Hurricane-Data.py:357-365 | Nothing is counted iff every quadrant is NA. |
| Quadrants.HitsAllIffAgree | Hurricane-Data.py:357-365 | Every determined quadrant is a success iff each one equals its lower or upper bound. |
| Quadrants.AccuracyRate | Hurricane-Data.py:348-366 | Returns (successes, determined), with successes ≤ determined ≤ length. |
| Quadrants.StormTally | Hurricane-Data.py:404-409 | A storm adds its determined-quadrant count to the total. It adds to the successes the number of determined segments whose quadrant matches that segment's lower or upper bound. The successes never exceed the count, and the count never exceeds the segments. |

## Left out

- The geodesic computations (Vincenty distance and initial bearing on WGS-84, from a foreign library) are the two functions in `Geodesy.Earth`. Their `None` stands for the library's ValueError.
- The position constructor `ev.LatLon(lat, lon)` (Hurricane-Data.py:58) is treated as total. The ValueError it raises on an unreadable latitude, or on a longitude below -180 such as "-200.0", is not modelled. In the model such a line parses to a `Geodesy.Position`, where the script raises while reading the storm.
- Geodesy.Bearing: bearings are assumed to lie in [0, 360), as the library returns them. `Quadrants.HypotheticalQuadrant`'s "never NA" rests on that assumption.
- `datetime.strptime` and `float()` are parameters (`Hurdat.Library` and the `parseFloat` of `Geodesy.MyLatLon`). Times are whole minutes. The report's `strftime` date formatting is not modelled; the report holds the times themselves.
- Floating point: distances, bearings, hours and speeds are exact reals, so float rounding is not modelled.
- `Text.ParseInt` accepts ASCII digits with an optional sign and surrounding whitespace already stripped. It does not model the Unicode digits and underscores that `int()` also accepts.
- The interactive `__main__` block (prompts, `print`, file opening, FileNotFoundError, the per-storm detail printing and the by-year summary) is not modelled. Only its per-storm tally (`Quadrants.StormTally`) is. Its final division `storm_correct / storm_total` raises ZeroDivisionError when no quadrant was determined; `Quadrants.KnownZeroIffUndetermined` states when that happens.
- The message printed when a storm id is not found is not modelled. The model returns None as the script does.
- `Hurdat.ReadRows` and `Hurdat.ReadDataLines` take the row parser as a parameter, and `Hurdat.RecordParser` supplies `ParseRecord`. This keeps the proofs small and changes no behaviour.
- Track.StormReport: requires a storm of at least one row whose rows all carry a wind column. On an empty storm or a short row the script raises IndexError, which is not modelled.
- Track.GetMaxWindAndDatetime: requires every row to carry a wind column. The script raises IndexError otherwise.
- Quadrants.ActualQuadrant: requires every row after the first to carry twelve radii. On a shorter row the script reads whatever columns sit at those negative offsets. Depending on them it raises TypeError, raises IndexError, or returns a quadrant without error: a row of 4 to 11 integers whose last four sum above 0 gives NA. None of that is modelled. The unreachable `if len(storm) == 1: continue` inside the loop over `storm[1:]` is omitted.
- Quadrants.ClassifyRow: the final `else: continue` of the quadrant chain cannot be reached (the maximum is one of the four radii), and the model proves it unreachable.
- Quadrants.AccuracyRate: requires both hypothesis lists to be at least as long as the actual list. The script indexes them only at determined positions, and the script always passes lists of equal length.
- Quadrants.HypotheticalQuadrant uses the corrected `Compass.NormalizeDegree`. `Quadrants.HypoBoundsAsWritten` proves that it agrees with the code's `degree_normalized` on every heading the script feeds it.
- `hypothetical_quadrant` is called twice per storm in the main program. The model calls it once, since both calls return the same lists.

## Findings

| source | as written | input that shows it | evidently intended | confidence | as-written member | corrected member |
|---|---|---|---|---|---|---|
| Hurricane-Data.py:102-115 | For a negative degree, `degree_normalized` adds `360 * (abs(degree) // 360)`, which leaves the result in (-360, 0]. | -420 gives -60 (and -90 gives -90), outside the documented [0, 360). | Reduce by whole turns into [0, 360), so -420 gives 300. | not executed | Compass.DegreeNormalized (counterexample Compass.DegreeNormalizedMissesRange) | Compass.NormalizeDegree |
