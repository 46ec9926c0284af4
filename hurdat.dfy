/** The HURDAT2 storm-block reader (`read_n_parse_a_storm`).

    A HURDAT2 file is a sequence of blocks: a header line `ID,NAME,COUNT,`
    followed by COUNT data lines, each a comma-separated record with a
    trailing comma. The reader is a forward-only cursor over the file's lines,
    as Python's `readline` is: past the last line it returns "" and stays put. */
module Hurdat {
  import opened Common
  import opened Text
  import opened Geodesy

  /** The library parsers the reader leans on: `float()` for longitudes and
      `datetime.strptime(text, '%Y%m%d%H%M')`, whose datetime is represented
      by its minute count. */
  datatype Library = Library(
    parseFloat: string -> Option<real>,
    parseStamp: string -> Option<int>)

  /** One parsed row: `[ID, name, datetime, record identifier, status,
      position] + integers`. For a HURDAT2 line the integers are the maximum
      wind, the minimum pressure and the twelve wind radii. */
  datatype Observation = Observation(
    id: string,
    name: string,
    time: int,
    recordId: string,
    status: string,
    pos: Position,
    numbers: seq<int>)

  type Storm = seq<Observation>

  /** A slot of the row under construction, which starts as text and is
      converted field by field in place. */
  datatype Cell = Raw(text: string) | Stamp(minutes: int) | Place(pos: Position) | Number(value: int)

  /** `''.join(line_ready[0:2])`: the date and time fields run together. */
  function StampText(ready: seq<string>): string {
    if |ready| >= 2 then ready[0] + ready[1] else if |ready| == 1 then ready[0] else ""
  }

  /** `int()` applied to every field, failing if any one fails. */
  function ParseInts(texts: seq<string>): (r: Option<seq<int>>)
    ensures r.Some? <==> forall k :: 0 <= k < |texts| ==> ParseInt(texts[k]).Some?
    ensures r.Some? ==> |r.value| == |texts| && forall k :: 0 <= k < |texts| ==> Some(r.value[k]) == ParseInt(texts[k])
  {
    if forall k :: 0 <= k < |texts| ==> ParseInt(texts[k]).Some? then
      Some(seq(|texts|, k requires 0 <= k < |texts| => ParseInt(texts[k]).value))
    else None
  }

  /** What the fields of one data line, without the trailing one, become: date
      and time merged into a timestamp, latitude and longitude merged into a
      position, every later field read as an integer, and the storm's ID and
      name put in front. */
  function ParseReady(lib: Library, id: string, name: string, ready: seq<string>): (r: Result<Observation>)
    ensures r.Ok? ==> r.value.id == id && r.value.name == name
    ensures r.Ok? ==> |ready| >= 6 && |r.value.numbers| == |ready| - 6
    ensures r.Ok? ==> r.value.recordId == ready[2] && r.value.status == ready[3]
    ensures r.Ok? ==> Some(r.value.time) == lib.parseStamp(ready[0] + ready[1])
    ensures r.Ok? ==> MyLatLon(lib.parseFloat, ready[4], ready[5]) == Ok(r.value.pos)
    ensures r.Ok? ==> forall k :: 0 <= k < |r.value.numbers| ==> ParseInt(ready[6 + k]) == Some(r.value.numbers[k])
    ensures r.Ok? <==> && lib.parseStamp(StampText(ready)).Some? && |ready| >= 6
                       && MyLatLon(lib.parseFloat, ready[4], ready[5]).Ok? && ParseInts(ready[6..]).Some?
    ensures lib.parseStamp(StampText(ready)).None? ==> r == Err(ValueError("time data does not match format '%Y%m%d%H%M'"))
    ensures lib.parseStamp(StampText(ready)).Some? && |ready| < 6 ==> r.Err? && r.error.IndexError?
  {
    match lib.parseStamp(StampText(ready))
    case None => Err(ValueError("time data does not match format '%Y%m%d%H%M'"))
    case Some(t) =>
      if |ready| < 2 then Err(IndexError("list assignment index out of range"))
      else if |ready| < 6 then Err(IndexError("list index out of range"))
      else
        PlaceRow(lib, id, name, t, ready)
  }

  /** The data-line parse once the timestamp is known: the position from the
      latitude and longitude, then the integers. */
  function PlaceRow(lib: Library, id: string, name: string, t: int, ready: seq<string>): (r: Result<Observation>)
    requires |ready| >= 6
    ensures r.Ok? <==> MyLatLon(lib.parseFloat, ready[4], ready[5]).Ok? && ParseInts(ready[6..]).Some?
    ensures r.Ok? ==> MyLatLon(lib.parseFloat, ready[4], ready[5]) == Ok(r.value.pos)
    ensures r.Ok? ==> r.value == Observation(id, name, t, ready[2], ready[3], r.value.pos, r.value.numbers)
    ensures r.Ok? ==> |r.value.numbers| == |ready| - 6
    ensures r.Ok? ==> forall k :: 0 <= k < |r.value.numbers| ==> ParseInt(ready[6 + k]) == Some(r.value.numbers[k])
  {
    match MyLatLon(lib.parseFloat, ready[4], ready[5])
    case Err(e) => Err(e)
    case Ok(p) => BuildRow(id, name, t, ready, p)
  }

  /** The last step of a data-line parse, once the timestamp and the position
      are known: every field after the longitude read as an integer. */
  function BuildRow(id: string, name: string, t: int, ready: seq<string>, p: Position): (r: Result<Observation>)
    requires |ready| >= 6
    ensures r.Ok? <==> ParseInts(ready[6..]).Some?
    ensures r.Ok? ==> r.value == Observation(id, name, t, ready[2], ready[3], p, r.value.numbers)
    ensures r.Ok? ==> |r.value.numbers| == |ready| - 6
    ensures r.Ok? ==> forall k :: 0 <= k < |r.value.numbers| ==> ParseInt(ready[6 + k]) == Some(r.value.numbers[k])
  {
    match ParseInts(ready[6..])
    case None => Err(ValueError("invalid literal for int() with base 10"))
    case Some(numbers) =>
      assert forall k :: 0 <= k < |numbers| ==> ready[6..][k] == ready[6 + k];
      Ok(Observation(id, name, t, ready[2], ready[3], p, numbers))
  }

  /** What one data line becomes: its fields, stripped, without the trailing
      one (the newline after the last comma), parsed as above. */
  function ParseRecord(lib: Library, id: string, name: string, line: string): (r: Result<Observation>)
    ensures r.Ok? ==> |Fields(line)| >= 7
    ensures r.Ok? ==> var f := Fields(line);
              && r.value.id == id && r.value.name == name
              && Some(r.value.time) == lib.parseStamp(f[0] + f[1])
              && r.value.recordId == f[2] && r.value.status == f[3]
              && MyLatLon(lib.parseFloat, f[4], f[5]) == Ok(r.value.pos)
              && |r.value.numbers| == |f| - 7
              && forall k :: 0 <= k < |r.value.numbers| ==> ParseInt(f[6 + k]) == Some(r.value.numbers[k])
  {
    var fields := Fields(line);
    ParseReady(lib, id, name, fields[..|fields| - 1])
  }

  /** A line the reader returns at the end of the file never parses. */
  lemma EmptyLineIsNoRecord(lib: Library, id: string, name: string)
    ensures ParseRecord(lib, id, name, "").Err?
  {
    assert Split("", ',') == [[]];
  }

  /** Every field still as text. */
  function RawCells(texts: seq<string>): (r: seq<Cell>)
    ensures |r| == |texts| && forall k :: 0 <= k < |r| ==> r[k] == Raw(texts[k])
  {
    seq(|texts|, k requires 0 <= k < |texts| => Raw(texts[k]))
  }

  /** The integers of a row whose slots from 4 on have all been converted. */
  function NumbersOf(cells: seq<Cell>): (r: seq<int>)
    requires forall k :: 0 <= k < |cells| ==> cells[k].Number?
    ensures |r| == |cells| && forall k :: 0 <= k < |r| ==> cells[k] == Number(r[k])
  {
    seq(|cells|, k requires 0 <= k < |cells| => cells[k].value)
  }

  /** The inner loop of the data-line parse: `int()` applied in place to every
      slot from 4 on, stopping at the first field that is not an integer. */
  method ConvertNumbers(row: seq<Cell>, texts: seq<string>) returns (r: Result<seq<Cell>>)
    requires |row| == 4 + |texts| && row[4..] == RawCells(texts)
    ensures ParseInts(texts).None? <==> r.Err?
    ensures r.Err? ==> r.error == ValueError("invalid literal for int() with base 10")
    ensures r.Ok? ==> |r.value| == |row| && r.value[..4] == row[..4]
                      && (forall k :: 4 <= k < |row| ==> r.value[k].Number?)
                      && NumbersOf(r.value[4..]) == ParseInts(texts).value
  {
    var lineReady := row;
    var i := 0;
    while i < |lineReady| - 4
      invariant |lineReady| == |row| && 0 <= i <= |texts| && lineReady[..4] == row[..4]
      invariant forall k :: 0 <= k < i ==> ParseInt(texts[k]).Some? && lineReady[4 + k] == Number(ParseInt(texts[k]).value)
      invariant forall k :: i <= k < |texts| ==> lineReady[4 + k] == Raw(texts[k])
    {
      assert row[4..][i] == Raw(texts[i]);
      var n := ParseInt(lineReady[4 + i].text);
      if n.None? {
        return Err(ValueError("invalid literal for int() with base 10"));
      }
      lineReady := lineReady[4 + i := Number(n.value)];
      i := i + 1;
    }
    forall k | 0 <= k < |texts|
      ensures lineReady[4..][k] == Number(ParseInt(texts[k]).value)
    {
      assert lineReady[4..][k] == lineReady[4 + k];
    }
    var numbers := NumbersOf(lineReady[4..]);
    assert forall k :: 0 <= k < |texts| ==> ParseInt(texts[k]) == Some(numbers[k]);
    r := Ok(lineReady);
  }

  /** The in-place rewrite of one split data line: timestamp into slot 0,
      delete slot 1, position into slot 3, delete slot 4, integers from slot 4. */
  method ArrangeRow(lib: Library, id: string, name: string, texts: seq<string>) returns (r: Result<Observation>)
    ensures r == ParseReady(lib, id, name, texts)
  {
    var lineReady := RawCells(texts);
    var stamp := lib.parseStamp(StampText(texts));
    if stamp.None? {
      return Err(ValueError("time data does not match format '%Y%m%d%H%M'"));
    }
    if |lineReady| < 1 {
      return Err(IndexError("list assignment index out of range"));
    }
    lineReady := lineReady[0 := Stamp(stamp.value)];
    if |lineReady| < 2 {
      return Err(IndexError("list assignment index out of range"));
    }
    lineReady := lineReady[..1] + lineReady[2..];
    if |lineReady| < 5 {
      return Err(IndexError("list index out of range"));
    }
    assert lineReady[..1] == [Stamp(stamp.value)];
    assert lineReady[1..] == RawCells(texts[2..]);
    r := PlaceStep(lib, id, name, texts, stamp.value, lineReady);
  }

  /** The position step of the rewrite: slot 3 becomes the position, slot 4
      is deleted, and the integers follow. */
  method PlaceStep(lib: Library, id: string, name: string, texts: seq<string>, t: int, lineReady: seq<Cell>)
      returns (r: Result<Observation>)
    requires |texts| >= 6 && |lineReady| == |texts| - 1
    requires lineReady[..1] == [Stamp(t)] && lineReady[1..] == RawCells(texts[2..])
    ensures r == PlaceRow(lib, id, name, t, texts)
  {
    assert lineReady[3] == lineReady[1..][2] == Raw(texts[4]);
    assert lineReady[4] == lineReady[1..][3] == Raw(texts[5]);
    var place := MyLatLon(lib.parseFloat, lineReady[3].text, lineReady[4].text);
    if place.Err? {
      return Err(place.error);
    }
    var row := lineReady[3 := Place(place.value)];
    row := row[..4] + row[5..];
    assert row[..4] == [Stamp(t), Raw(texts[2]), Raw(texts[3]), Place(place.value)] by {
      assert lineReady[1] == lineReady[1..][0] && lineReady[2] == lineReady[1..][1];
    }
    assert row[4..] == RawCells(texts[6..]) by {
      assert row[4..] == lineReady[5..] == lineReady[1..][4..];
    }
    r := FinishRow(id, name, texts, t, place.value, row);
  }

  /** The integer-forcing loop on a row whose first four slots are settled,
      and the row it leaves behind. */
  method FinishRow(id: string, name: string, texts: seq<string>, t: int, p: Position, lineReady: seq<Cell>)
      returns (r: Result<Observation>)
    requires |texts| >= 6 && |lineReady| == |texts| - 2
    requires lineReady[..4] == [Stamp(t), Raw(texts[2]), Raw(texts[3]), Place(p)]
    requires lineReady[4..] == RawCells(texts[6..])
    ensures r == BuildRow(id, name, t, texts, p)
  {
    var converted := ConvertNumbers(lineReady, texts[6..]);
    if converted.Err? {
      return Err(converted.error);
    }
    var row := converted.value;
    assert row[..4] == lineReady[..4];
    assert row[0] == Stamp(t) && row[1] == Raw(texts[2]) && row[2] == Raw(texts[3]) && row[3] == Place(p);
    r := Ok(Observation(id, name, row[0].minutes, row[1].text, row[2].text, row[3].pos, NumbersOf(row[4..])));
  }

  /** The body of the data-line loop of `read_n_parse_a_storm`: split at commas,
      strip, drop the trailing field, and rewrite the row. */
  method ParseDataLine(lib: Library, id: string, name: string, line: string) returns (r: Result<Observation>)
    ensures r == ParseRecord(lib, id, name, line)
  {
    var lineSplit := Fields(line);
    r := ArrangeRow(lib, id, name, lineSplit[..|lineSplit| - 1]);
  }

  /** What `readline` gives at line index k: the line, or "" past the end. */
  function LineAt(lines: seq<string>, k: nat): string {
    if k < |lines| then lines[k] else ""
  }

  /** Where the cursor stands after one `readline` from k. */
  function NextPos(lines: seq<string>, k: nat): nat {
    if k < |lines| then k + 1 else k
  }

  /** Every line `readline` returns before the end carries at least its newline. */
  predicate ReadableLines(lines: seq<string>) {
    forall k :: 0 <= k < |lines| ==> lines[k] != ""
  }

  /** An open HURDAT2 file read line by line. */
  class LineReader {
    const lines: seq<string>
    var pos: nat

    ghost predicate Valid()
      reads this
    {
      pos <= |lines| && ReadableLines(lines)
    }

    constructor (text: seq<string>)
      requires ReadableLines(text)
      ensures Valid() && lines == text && pos == 0
    {
      lines := text;
      pos := 0;
    }

    /** `fin.readline()`. */
    method ReadLine() returns (line: string)
      requires Valid()
      modifies this
      ensures Valid()
      ensures line == LineAt(lines, old(pos)) && pos == NextPos(lines, old(pos))
      ensures line == "" <==> old(pos) == |lines|
    {
      if pos < |lines| {
        line := lines[pos];
        pos := pos + 1;
      } else {
        line := "";
      }
    }
  }

  /** A header line `ID,NAME,COUNT,`. */
  datatype Header = Header(id: string, name: string, count: int)

  /** `header_split[0]`, `header_split[1]` and `int(header_split[2])`. */
  function ParseHeader(line: string): (r: Result<Header>)
    ensures r.Ok? <==> |Fields(line)| >= 3 && ParseInt(Fields(line)[2]).Some?
    ensures r.Ok? ==> r.value == Header(Fields(line)[0], Fields(line)[1], ParseInt(Fields(line)[2]).value)
    ensures |Fields(line)| < 3 ==> r == Err(IndexError("list index out of range"))
  {
    var headerSplit := Fields(line);
    if |headerSplit| < 3 then Err(IndexError("list index out of range"))
    else
      match ParseInt(headerSplit[2])
      case None => Err(ValueError("invalid literal for int() with base 10: " + headerSplit[2]))
      case Some(count) => Ok(Header(headerSplit[0], headerSplit[1], count))
  }

  /** The parse a block applies to each of its data lines. */
  function RecordParser(lib: Library, id: string, name: string): (parse: string -> Result<Observation>)
    ensures parse("").Err?
  {
    EmptyLineIsNoRecord(lib, id, name);
    line => ParseRecord(lib, id, name, line)
  }

  /** `parse` is the record parse of one storm's data lines. */
  ghost predicate ParsesRecords(parse: string -> Result<Observation>, lib: Library, id: string, name: string) {
    forall line {:trigger ParseRecord(lib, id, name, line)} :: parse(line) == ParseRecord(lib, id, name, line)
  }

  lemma RecordParserParses(lib: Library, id: string, name: string)
    ensures ParsesRecords(RecordParser(lib, id, name), lib, id, name)
  {
  }

  lemma ParserApplies(lib: Library, id: string, name: string, line: string)
    ensures RecordParser(lib, id, name)(line) == ParseRecord(lib, id, name, line)
  {
  }

  /** Reading n data lines from line p with `parse`: the rows and the cursor
      afterwards, or the first failure and the cursor just past the line that
      failed. `range(n)` is empty for n <= 0. */
  function ReadRows(parse: string -> Result<Observation>, lines: seq<string>, p: nat, n: int): (res: (Result<Storm>, nat))
    requires p <= |lines| && parse("").Err?
    ensures p <= res.1 <= |lines|
    ensures res.0.Ok? ==> |res.0.value| == (if n < 0 then 0 else n) && res.1 == p + |res.0.value|
    decreases if n < 0 then 0 else n
  {
    if n <= 0 then (Ok([]), p)
    else
      match parse(LineAt(lines, p))
      case Err(e) => (Err(e), NextPos(lines, p))
      case Ok(row) => Prepend([row], ReadRows(parse, lines, p + 1, n - 1))
  }

  /** Row k of a block read without failure is the parse of line p + k. */
  lemma {:induction false} ReadRowsAt(parse: string -> Result<Observation>, lines: seq<string>, p: nat, n: int, k: nat)
    requires p <= |lines| && parse("").Err?
    requires ReadRows(parse, lines, p, n).0.Ok? && k < |ReadRows(parse, lines, p, n).0.value|
    ensures p + k < |lines|
    ensures Ok(ReadRows(parse, lines, p, n).0.value[k]) == parse(lines[p + k])
    decreases k
  {
    if k > 0 {
      ReadRowsAt(parse, lines, p + 1, n - 1, k - 1);
    }
  }

  /** Rows already read in front of the outcome of reading the rest. */
  function Prepend(done: Storm, rest: (Result<Storm>, nat)): (r: (Result<Storm>, nat))
    ensures r.1 == rest.1 && (r.0.Ok? <==> rest.0.Ok?)
    ensures r.0.Ok? ==> |r.0.value| == |done| + |rest.0.value| && r.0.value[..|done|] == done
    ensures r.0.Ok? ==> r.0.value[|done|..] == rest.0.value
    ensures rest.0.Err? ==> r.0 == rest.0
  {
    (if rest.0.Ok? then Ok(done + rest.0.value) else rest.0, rest.1)
  }

  /** The rows `done` already read, followed by reading n more lines from p,
      give the outcome `all`. */
  ghost predicate Pending(parse: string -> Result<Observation>, lines: seq<string>, p: nat, n: int,
                          done: Storm, all: (Result<Storm>, nat))
  {
    p <= |lines| && parse("").Err? && Prepend(done, ReadRows(parse, lines, p, n)) == all
  }

  /** One data line read at p: a failure ends the block there, a row joins
      the rows already read. */
  lemma DataLineStep(parse: string -> Result<Observation>, lines: seq<string>, p: nat, n: int,
                     done: Storm, all: (Result<Storm>, nat))
    requires Pending(parse, lines, p, n, done, all) && n > 0
    ensures parse(LineAt(lines, p)).Err? ==> all == (Err(parse(LineAt(lines, p)).error), NextPos(lines, p))
    ensures parse(LineAt(lines, p)).Ok? ==>
              && p < |lines| && NextPos(lines, p) == p + 1
              && Pending(parse, lines, p + 1, n - 1, done + [parse(LineAt(lines, p)).value], all)
  {
    if parse(LineAt(lines, p)).Ok? {
      assert p < |lines|;
      var rest := ReadRows(parse, lines, p + 1, n - 1);
      if rest.0.Ok? {
        var row := parse(LineAt(lines, p)).value;
        assert done + ([row] + rest.0.value) == (done + [row]) + rest.0.value;
      }
    }
  }

  /** Reading no lines leaves the rows read so far and the cursor as they are. */
  lemma NoMoreLines(parse: string -> Result<Observation>, lines: seq<string>, p: nat, n: int, done: Storm)
    requires p <= |lines| && parse("").Err? && n <= 0
    ensures Prepend(done, ReadRows(parse, lines, p, n)) == (Ok(done), p)
    ensures Prepend([], ReadRows(parse, lines, p, n)) == ReadRows(parse, lines, p, n)
  {
    assert done + [] == done;
  }

  /** Lookup mode's scan: the index of the first line from p that contains id,
      where the "" returned at the end also counts as a line. */
  function FindHeader(lines: seq<string>, p: nat, id: string): (r: Option<nat>)
    requires p <= |lines| && ReadableLines(lines)
    ensures r.Some? ==> p <= r.value <= |lines| && Contains(LineAt(lines, r.value), id)
    ensures r.Some? ==> forall j :: p <= j < r.value ==> !Contains(lines[j], id)
    ensures r.None? <==> !Contains("", id) && forall j :: p <= j < |lines| ==> !Contains(lines[j], id)
    decreases |lines| - p
  {
    var line := LineAt(lines, p);
    if Contains(line, id) then Some(p)
    else if line == "" then None
    else FindHeader(lines, p + 1, id)
  }

  /** The rows of a block once its header has been read; `given` is the ID
      passed in lookup mode, which the rows carry instead of the header's. */
  function ReadBlock(lib: Library, lines: seq<string>, q: nat, header: Result<Header>, given: Option<string>): (res: (Result<Option<Storm>>, nat))
    requires q <= |lines|
    ensures res.0.Ok? ==> res.0.value.Some?
  {
    match header
    case Err(e) => (Err(e), q)
    case Ok(h) =>
      var id := if given.Some? then given.value else h.id;
      var rows := ReadRows(RecordParser(lib, id, h.name), lines, q, h.count);
      (if rows.0.Ok? then Ok(Some(rows.0.value)) else Err(rows.0.error), rows.1)
  }

  /** `read_n_parse_a_storm(fin, storm_ID)` started with the cursor at line p:
      the storm (None at the end of the file or when the ID is not found) and
      the cursor afterwards. */
  function ReadStorm(lib: Library, lines: seq<string>, p: nat, stormId: Option<string>): (Result<Option<Storm>>, nat)
    requires p <= |lines| && ReadableLines(lines)
  {
    match stormId
    case None =>
      if LineAt(lines, p) == "" then (Ok(None), p)
      else ReadBlock(lib, lines, p + 1, ParseHeader(lines[p]), None)
    case Some(id) =>
      match FindHeader(lines, p, id)
      case None => (Ok(None), |lines|)
      case Some(k) => ReadBlock(lib, lines, NextPos(lines, k), ParseHeader(LineAt(lines, k)), Some(id))
  }

  /** One data line read and parsed. */
  method ReadDataLine(fin: LineReader, lib: Library, id: string, name: string,
                      ghost parse: string -> Result<Observation>) returns (row: Result<Observation>)
    requires fin.Valid()
    requires ParsesRecords(parse, lib, id, name)
    modifies fin
    ensures fin.Valid() && fin.pos == NextPos(fin.lines, old(fin.pos))
    ensures row == parse(LineAt(fin.lines, old(fin.pos)))
  {
    var line := fin.ReadLine();
    row := ParseDataLine(lib, id, name, line);
  }

  /** The data-line loop of `read_n_parse_a_storm`: `count` lines read and
      parsed in turn, the first failure propagating. */
  method ReadDataLines(fin: LineReader, lib: Library, id: string, name: string, count: int,
                       ghost parse: string -> Result<Observation>) returns (rows: Result<Storm>)
    requires fin.Valid() && parse("").Err?
    requires ParsesRecords(parse, lib, id, name)
    modifies fin
    ensures fin.Valid()
    ensures (rows, fin.pos) == ReadRows(parse, fin.lines, old(fin.pos), count)
  {
    ghost var lines := fin.lines;
    ghost var all := ReadRows(parse, lines, fin.pos, count);
    assert all.0.Ok? ==> [] + all.0.value == all.0.value;
    ghost var cursor := fin.pos;
    var storm: Storm := [];
    var k := 0;
    while k < count
      invariant fin.Valid() && fin.lines == lines && fin.pos == cursor
      invariant 0 <= k && (count >= 0 ==> k <= count)
      invariant Pending(parse, lines, cursor, count - k, storm, all)
      decreases count - k
    {
      DataLineStep(parse, lines, cursor, count - k, storm, all);
      var row := ReadDataLine(fin, lib, id, name, parse);
      if row.Err? {
        return Err(row.error);
      }
      storm := storm + [row.value];
      cursor := cursor + 1;
      k := k + 1;
    }
    NoMoreLines(parse, lines, cursor, count - k, storm);
    rows := Ok(storm);
  }

  /** `read_n_parse_a_storm`: sequential mode when stormId is None, lookup mode
      otherwise. */
  method ReadNParseAStorm(fin: LineReader, lib: Library, stormId: Option<string>) returns (storm: Result<Option<Storm>>)
    requires fin.Valid()
    modifies fin
    ensures fin.Valid()
    ensures (storm, fin.pos) == ReadStorm(lib, fin.lines, old(fin.pos), stormId)
  {
    var id: string, header: Result<Header>;
    if stormId.None? {
      var line := fin.ReadLine();
      if line != "" {
        header := ParseHeader(line);
        if header.Err? {
          return Err(header.error);
        }
        id := header.value.id;
      } else {
        return Ok(None);
      }
    } else {
      id := stormId.value;
      while true
        invariant fin.Valid() && old(fin.pos) <= fin.pos
        invariant FindHeader(fin.lines, fin.pos, id) == FindHeader(fin.lines, old(fin.pos), id)
        decreases |fin.lines| - fin.pos
      {
        var line := fin.ReadLine();
        if Contains(line, id) {
          header := ParseHeader(line);
          if header.Err? {
            return Err(header.error);
          }
          break;
        } else if line == "" {
          return Ok(None);
        }
      }
    }
    RecordParserParses(lib, id, header.value.name);
    var rows := ReadDataLines(fin, lib, id, header.value.name, header.value.count, RecordParser(lib, id, header.value.name));
    if rows.Err? {
      return Err(rows.error);
    }
    storm := Ok(Some(rows.value));
  }

  /** Sequential mode returns None exactly at the end of the file, and then
      leaves the cursor where it was. */
  lemma SequentialNoneAtEnd(lib: Library, lines: seq<string>, p: nat)
    requires p <= |lines| && ReadableLines(lines)
    ensures ReadStorm(lib, lines, p, None).0 == Ok(None) <==> p == |lines|
    ensures p == |lines| ==> ReadStorm(lib, lines, p, None).1 == p
  {
  }

  /** Sequential mode reads the header at p and then the block's rows with the
      header's ID and name. */
  lemma SequentialStorm(lib: Library, lines: seq<string>, p: nat)
    requires p <= |lines| && ReadableLines(lines)
    requires ReadStorm(lib, lines, p, None).0.Ok? && ReadStorm(lib, lines, p, None).0.value.Some?
    ensures p < |lines| && ParseHeader(lines[p]).Ok?
    ensures var h := ParseHeader(lines[p]).value;
            var rows := ReadRows(RecordParser(lib, h.id, h.name), lines, p + 1, h.count);
            rows.0.Ok? && ReadStorm(lib, lines, p, None) == (Ok(Some(rows.0.value)), rows.1)
  {
    var h := ParseHeader(lines[p]).value;
    assert ReadStorm(lib, lines, p, None) == ReadBlock(lib, lines, p + 1, Ok(h), None);
  }

  /** A block read in sequential mode has exactly the header's count of rows
      (none for a count below one), and the cursor ends 1 + count lines on. */
  lemma SequentialBlock(lib: Library, lines: seq<string>, p: nat)
    requires p <= |lines| && ReadableLines(lines)
    requires ReadStorm(lib, lines, p, None).0.Ok? && ReadStorm(lib, lines, p, None).0.value.Some?
    ensures p < |lines| && ParseHeader(lines[p]).Ok?
    ensures var h, rows := ParseHeader(lines[p]).value, ReadStorm(lib, lines, p, None).0.value.value;
            && |rows| == (if h.count < 0 then 0 else h.count)
            && ReadStorm(lib, lines, p, None).1 == p + 1 + |rows| <= |lines|
  {
    SequentialStorm(lib, lines, p);
  }

  /** Row k of a block read without failure is the record parse of line q + k. */
  lemma BlockRowAt(lib: Library, id: string, name: string, lines: seq<string>, q: nat, n: int, k: nat)
    requires q <= |lines|
    requires ReadRows(RecordParser(lib, id, name), lines, q, n).0.Ok?
    requires k < |ReadRows(RecordParser(lib, id, name), lines, q, n).0.value|
    ensures q + k < |lines|
    ensures Ok(ReadRows(RecordParser(lib, id, name), lines, q, n).0.value[k]) == ParseRecord(lib, id, name, lines[q + k])
  {
    ReadRowsAt(RecordParser(lib, id, name), lines, q, n, k);
    ParserApplies(lib, id, name, lines[q + k]);
  }

  /** Every row of a block read without failure carries the ID and name the
      block was read under. */
  lemma BlockRowsLabelled(lib: Library, id: string, name: string, lines: seq<string>, p: nat, n: int)
    requires p <= |lines|
    requires ReadRows(RecordParser(lib, id, name), lines, p, n).0.Ok?
    ensures var rows := ReadRows(RecordParser(lib, id, name), lines, p, n).0.value;
            forall k :: 0 <= k < |rows| ==> rows[k].id == id && rows[k].name == name
  {
    var rows := ReadRows(RecordParser(lib, id, name), lines, p, n).0.value;
    forall k | 0 <= k < |rows|
      ensures rows[k].id == id && rows[k].name == name
    {
      BlockRowAt(lib, id, name, lines, p, n, k);
    }
  }

  /** Lookup mode finds nothing exactly when no line from the cursor on contains
      the ID (and the ID is not empty, as "" is in every line, even the end's). */
  lemma LookupNoneWhenAbsent(lib: Library, lines: seq<string>, p: nat, id: string)
    requires p <= |lines| && ReadableLines(lines)
    ensures ReadStorm(lib, lines, p, Some(id)).0 == Ok(None)
        <==> id != "" && forall j :: p <= j < |lines| ==> !Contains(lines[j], id)
  {
    assert Contains("", id) <==> id == "";
    var found := FindHeader(lines, p, id);
    if found.Some? {
      var k := found.value;
      assert ReadStorm(lib, lines, p, Some(id))
          == ReadBlock(lib, lines, NextPos(lines, k), ParseHeader(LineAt(lines, k)), Some(id));
    }
  }

  /** A block found in lookup mode starts after the first line containing the
      ID, and every row carries the ID that was asked for. */
  lemma LookupBlock(lib: Library, lines: seq<string>, p: nat, id: string)
    requires p <= |lines| && ReadableLines(lines)
    requires ReadStorm(lib, lines, p, Some(id)).0.Ok? && ReadStorm(lib, lines, p, Some(id)).0.value.Some?
    ensures FindHeader(lines, p, id).Some?
    ensures var k := FindHeader(lines, p, id).value;
            && p <= k && Contains(LineAt(lines, k), id)
            && (forall j :: p <= j < k ==> !Contains(lines[j], id))
            && ParseHeader(LineAt(lines, k)).Ok?
            && var h, rows := ParseHeader(LineAt(lines, k)).value, ReadStorm(lib, lines, p, Some(id)).0.value.value;
               && |rows| == (if h.count < 0 then 0 else h.count)
               && ReadStorm(lib, lines, p, Some(id)).1 == NextPos(lines, k) + |rows|
               && forall i :: 0 <= i < |rows| ==> rows[i].id == id && rows[i].name == h.name
  {
    var k := FindHeader(lines, p, id).value;
    var h := ParseHeader(LineAt(lines, k)).value;
    var rows := ReadRows(RecordParser(lib, id, h.name), lines, NextPos(lines, k), h.count);
    assert rows.0.Ok?;
    BlockRowsLabelled(lib, id, h.name, lines, NextPos(lines, k), h.count);
  }
}
