/** The controller's byte stream turned into a reading of the machine. */
module Observer {
  import opened Text
  import opened Lines
  import opened Grbl

  const MAX_LINE := 512

  datatype Beam = BeamUnknown | BeamOn | BeamOff

  datatype Setting = SettingUnknown | SettingOn | SettingOff

  /** Where the head is, in both coordinate systems. */
  datatype Coordinates = Coordinates(position: Position, hasPosition: bool, work: Position, offset: Position, hasOffset: bool)

  /** The laser output, and how old that reading is in the controller's reports. */
  datatype Output = Output(beam: Beam, unix: nat, reports: nat, beamReports: nat)

  /** What a reset of the controller does not change. */
  datatype Identity = Identity(
    laserMode: Setting, firmware: string, options: string,
    spindleMax: int, homing: Setting, softLimits: Setting, hardLimits: Setting)

  datatype Machine = Machine(
    state: MachineState,
    coordinates: Coordinates,
    feed: real,
    spindle: real,
    alarmCode: int,
    lastError: int,
    lastMessage: string,
    lastReportUnix: nat,
    resets: nat,
    output: Output,
    identity: Identity)

  const NOWHERE := Coordinates(ORIGIN, false, ORIGIN, ORIGIN, false)
  const NOBODY := Identity(SettingUnknown, "", "", 0, SettingUnknown, SettingUnknown, SettingUnknown)
  const BLANK_MACHINE := Machine(Unknown, NOWHERE, 0.0, 0.0, 0, 0, "", 0, 0, Output(BeamUnknown, 0, 0, 0), NOBODY)

  function Plus(a: Position, b: Position): Position { Position(a.x + b.x, a.y + b.y, a.z + b.z) }

  function Minus(a: Position, b: Position): Position { Position(a.x - b.x, a.y - b.y, a.z - b.z) }

  function OnOff(value: string): Setting {
    if TrimSpace(value) == "0" then SettingOff else SettingOn
  }

  function Moved(c: Coordinates, f: Fields): Coordinates {
    var known := if f.offset.Some? then c.(offset := f.offset.value, hasOffset := true) else c;
    if f.position.None? then known
    else if f.positionIsWork then
      known.(work := f.position.value, position := Plus(f.position.value, known.offset), hasPosition := true)
    else
      known.(position := f.position.value, work := Minus(f.position.value, known.offset), hasPosition := true)
  }

  /** A report without Ov: leaves the reading of the outputs as it was; one with it
      decides that reading, by the accessories it names. */
  function Seen(o: Output, f: Fields, unix: nat): Output {
    var more := o.(reports := o.reports + 1);
    if !f.hasOverrides then more
    else Output(if 'S' in f.accessory || 'C' in f.accessory then BeamOn else BeamOff, unix, more.reports, more.reports)
  }

  function Learned(i: Identity, setting: string, value: string): Identity {
    if setting == "$30" then
      var n := Atoi(TrimSpace(value));
      if n.Some? && n.value > 0 then i.(spindleMax := n.value) else i
    else if setting == "$22" then i.(homing := OnOff(value))
    else if setting == "$20" then i.(softLimits := OnOff(value))
    else if setting == "$21" then i.(hardLimits := OnOff(value))
    else if setting == "$32" then i.(laserMode := OnOff(value))
    else i
  }

  function IsBracket(c: char): bool { c == '[' || c == ']' }

  function Told(m: Machine, text: string): Machine {
    var message := Trim(text, IsBracket);
    var noted := m.(lastMessage := message);
    if "VER:" <= message then
      var version := message[4..];
      noted.(identity := m.identity.(firmware := if HasSuffix(version, ":") then version[..|version| - 1] else version))
    else if "OPT:" <= message then noted.(identity := m.identity.(options := message[4..]))
    else noted
  }

  /** A banner: everything the controller knew is gone, its outputs are off as
      of now, and what it is has not changed. */
  function Restarted(m: Machine, unix: nat): Machine {
    BLANK_MACHINE.(resets := m.resets + 1,
                   lastReportUnix := m.lastReportUnix,
                   output := Output(BeamOff, unix, m.output.reports, m.output.reports),
                   identity := m.identity)
  }

  function Applied(before: Machine, r: Report, unix: nat): Machine {
    if r.kind == NotGrbl && r.text == "" then before
    else
      var m := before.(lastReportUnix := unix);
      match r.kind
      case Status =>
        m.(state := r.fields.state,
           feed := r.fields.feed,
           spindle := r.fields.spindle,
           coordinates := Moved(m.coordinates, r.fields),
           alarmCode := if r.fields.state != Alarm then 0 else m.alarmCode,
           output := Seen(m.output, r.fields, unix))
      case SettingLine => m.(identity := Learned(m.identity, r.setting, r.settingValue))
      case AlarmLine => m.(state := Alarm, alarmCode := r.code)
      case Error => m.(lastError := r.code)
      case Message => Told(m, r.text)
      case Welcome => Restarted(m, unix)
      case Ok | NotGrbl => m
  }

  /** How a line is read; Grbl.ReportOf is the one there is. */
  type Parser = string -> Report

  predicate Notable(kind: Kind) {
    kind == AlarmLine || kind == Error || kind == Welcome || kind == Message || kind == SettingLine || kind == Ok
  }

  /** What the observer holds apart from the line it is putting together. */
  datatype Reading = Reading(machine: Machine, garbage: nat, recognised: nat, heard: Option<nat>)

  const NOTHING_READ := Reading(BLANK_MACHINE, 0, 0, None)

  /** One report taken in. */
  function Read(o: Reading, r: Report, unix: nat): Reading {
    Reading(Applied(o.machine, r, unix),
            if r.kind == NotGrbl then o.garbage + 1 else o.garbage,
            if r.kind == NotGrbl then o.recognised else o.recognised + 1,
            if r.kind == NotGrbl && r.text == "" then o.heard else Some(unix))
  }

  function Over(length: nat): nat { if length > MAX_LINE then length - MAX_LINE else 0 }

  // Reading line by line: the specification.

  predicate Usable(line: string) { line != "" && |line| <= MAX_LINE }

  function ReadLine(o: Reading, line: string, unix: nat, parse: Parser): Reading {
    if Usable(line) then Read(o, parse(line), unix)
    else o.(garbage := o.garbage + Over(|line|))
  }

  function NotableIn(line: string, parse: Parser): seq<Report> {
    if Usable(line) && Notable(parse(line).kind) then [parse(line)] else []
  }

  function ReadLines(o: Reading, lines: seq<string>, unix: nat, parse: Parser): Reading {
    if lines == [] then o
    else ReadLine(ReadLines(o, lines[..|lines| - 1], unix, parse), lines[|lines| - 1], unix, parse)
  }

  function NotableReports(lines: seq<string>, parse: Parser): seq<Report> {
    if lines == [] then []
    else NotableReports(lines[..|lines| - 1], parse) + NotableIn(lines[|lines| - 1], parse)
  }

  // Reading byte by byte: the program.

  datatype Stream = Stream(line: string, dropped: bool, reading: Reading)

  function Flushed(s: Stream, unix: nat, parse: Parser): (Stream, seq<Report>) {
    var empty := Stream("", false, s.reading);
    if s.line == "" || s.dropped then (empty, [])
    else
      var r := parse(s.line);
      (empty.(reading := Read(s.reading, r, unix)), if Notable(r.kind) then [r] else [])
  }

  function ByteRead(s: Stream, c: char, unix: nat, parse: Parser): (Stream, seq<Report>) {
    if IsEnd(c) then Flushed(s, unix, parse)
    else if |s.line| >= MAX_LINE then
      (s.(dropped := true, reading := s.reading.(garbage := s.reading.garbage + 1)), [])
    else (s.(line := s.line + [c]), [])
  }

  function BytesRead(s: Stream, data: string, unix: nat, parse: Parser): (Stream, seq<Report>) {
    if data == "" then (s, [])
    else
      var before := BytesRead(s, data[..|data| - 1], unix, parse);
      var last := ByteRead(before.0, data[|data| - 1], unix, parse);
      (last.0, before.1 + last.1)
  }

  lemma BytesReadUpTo(s: Stream, data: string, i: nat, unix: nat, parse: Parser)
    requires i < |data|
    ensures var before := BytesRead(s, data[..i], unix, parse);
            var last := ByteRead(before.0, data[i], unix, parse);
            BytesRead(s, data[..i + 1], unix, parse) == (last.0, before.1 + last.1)
  {
    assert data[..i + 1][..i] == data[..i];
  }

  class Observer {
    const parse: Parser
    var line: string
    var dropped: bool
    var garbage: nat
    var recognised: nat
    var machine: Machine
    var lastReport: Option<nat>

    function State(): Stream reads this {
      Stream(line, dropped, Reading(machine, garbage, recognised, lastReport))
    }

    constructor (parse: Parser)
      ensures State() == Stream("", false, NOTHING_READ) && this.parse == parse
    {
      this.parse := parse;
      line, dropped, garbage, recognised := "", false, 0, 0;
      machine, lastReport := BLANK_MACHINE, None;
    }

    method Flush(unix: nat) returns (notable: seq<Report>)
      modifies this
      ensures (State(), notable) == Flushed(old(State()), unix, parse)
    {
      var text, lost := line, dropped;
      line := "";
      dropped := false;
      if text == "" || lost {
        return [];
      }
      var report := parse(text);
      machine := Applied(machine, report, unix);
      if !(report.kind == NotGrbl && report.text == "") {
        lastReport := Some(unix);
      }
      if report.kind == NotGrbl {
        garbage := garbage + 1;
      } else {
        recognised := recognised + 1;
      }
      notable := if Notable(report.kind) then [report] else [];
    }

    /** Feeds a chunk and says which of its lines a listener should hear about;
        each is handed over with the machine as it stands after the chunk. */
    method Write(data: string, unix: nat) returns (notable: seq<Report>)
      modifies this
      ensures (State(), notable) == BytesRead(old(State()), data, unix, parse)
    {
      notable := [];
      for i := 0 to |data|
        invariant (State(), notable) == BytesRead(old(State()), data[..i], unix, parse)
      {
        BytesReadUpTo(old(State()), data, i, unix, parse);
        if IsEnd(data[i]) {
          var more := Flush(unix);
          notable := notable + more;
        } else if |line| >= MAX_LINE {
          dropped := true;
          garbage := garbage + 1;
        } else {
          line := line + [data[i]];
        }
        assert notable + [] == notable;
      }
      assert data[..|data|] == data;
    }

    method ForgetBeam()
      modifies this`machine
      ensures machine == Forgotten(old(machine))
    {
      machine := machine.(output := machine.output.(beam := BeamUnknown, unix := 0, beamReports := 0));
    }

    method Reset()
      modifies this
      ensures State() == Stream("", false, NOTHING_READ)
    {
      machine, lastReport := BLANK_MACHINE, None;
      line, dropped, garbage, recognised := "", false, 0, 0;
    }

    method Gibberish() returns (gibberish: bool)
      ensures gibberish <==> recognised == 0 && garbage >= 5
    {
      gibberish := recognised == 0 && garbage >= 5;
    }
  }

  function Forgotten(m: Machine): Machine {
    m.(output := m.output.(beam := BeamUnknown, unix := 0, beamReports := 0))
  }

  /** The bytes of a stream since its last line ending, and what was read up to
      there, are all that a stream's state depends on. */
  ghost predicate Follows(s: Stream, rest: string, o: Reading) {
    && s.line == (if |rest| <= MAX_LINE then rest else rest[..MAX_LINE])
    && (s.dropped <==> |rest| > MAX_LINE)
    && s.reading == o.(garbage := o.garbage + Over(|rest|))
  }

  lemma FollowsByte(s: Stream, rest: string, o: Reading, c: char, unix: nat, parse: Parser)
    requires Follows(s, rest, o)
    ensures var (next, notable) := ByteRead(s, c, unix, parse);
            if IsEnd(c) then Follows(next, "", ReadLine(o, rest, unix, parse)) && notable == NotableIn(rest, parse)
            else Follows(next, rest + [c], o) && notable == []
  {}

  lemma FollowsStreamByte(s: Stream, stream: string, o: Reading, c: char, unix: nat, parse: Parser)
    requires Follows(s, Unfinished(stream), ReadLines(o, Completed(stream), unix, parse))
    ensures var (next, notable) := ByteRead(s, c, unix, parse);
            && Follows(next, Unfinished(stream + [c]), ReadLines(o, Completed(stream + [c]), unix, parse))
            && NotableReports(Completed(stream), parse) + notable == NotableReports(Completed(stream + [c]), parse)
  {
    OneMore(stream, c);
    FollowsByte(s, Unfinished(stream), ReadLines(o, Completed(stream), unix, parse), c, unix, parse);
    assert (Completed(stream) + [Unfinished(stream)])[..|Completed(stream)|] == Completed(stream);
  }

  /** Streaming refines splitting: a chunk leaves the observer where splitting
      the unfinished line and the chunk together at every line ending, throwing
      away empty and overlong lines and reading the rest, would have. */
  lemma {:induction false} StreamingIsSplitting(s: Stream, rest: string, o: Reading, data: string, unix: nat, parse: Parser)
    requires Follows(s, rest, o) && Endless(rest)
    ensures var (next, notable) := BytesRead(s, data, unix, parse);
            && Follows(next, Unfinished(rest + data), ReadLines(o, Completed(rest + data), unix, parse))
            && notable == NotableReports(Completed(rest + data), parse)
  {
    if data == "" {
      EndlessHasNoLines(rest);
      assert rest + data == rest;
    } else {
      var before, c := data[..|data| - 1], data[|data| - 1];
      StreamingIsSplitting(s, rest, o, before, unix, parse);
      LastApart(rest, data);
      FollowsStreamByte(BytesRead(s, before, unix, parse).0, rest + before, o, c, unix, parse);
    }
  }

  // Chunks that arrive at different times.

  function Untimed(o: Reading): Reading {
    o.(machine := o.machine.(lastReportUnix := 0, output := o.machine.output.(unix := 0)), heard := None)
  }

  lemma ReadUntimed(a: Reading, b: Reading, line: string, t: nat, u: nat, parse: Parser)
    requires Untimed(a) == Untimed(b)
    ensures Untimed(ReadLine(a, line, t, parse)) == Untimed(ReadLine(b, line, u, parse))
  {}

  lemma {:induction false} ReadLinesUntimed(a: Reading, b: Reading, lines: seq<string>, t: nat, u: nat, parse: Parser)
    requires Untimed(a) == Untimed(b)
    ensures Untimed(ReadLines(a, lines, t, parse)) == Untimed(ReadLines(b, lines, u, parse))
  {
    if lines != [] {
      var before := lines[..|lines| - 1];
      ReadLinesUntimed(a, b, before, t, u, parse);
      ReadUntimed(ReadLines(a, before, t, parse), ReadLines(b, before, u, parse), lines[|lines| - 1], t, u, parse);
    }
  }

  lemma {:induction false} ReadLinesJoin(o: Reading, a: seq<string>, b: seq<string>, unix: nat, parse: Parser)
    ensures ReadLines(o, a + b, unix, parse) == ReadLines(ReadLines(o, a, unix, parse), b, unix, parse)
    ensures NotableReports(a + b, parse) == NotableReports(a, parse) + NotableReports(b, parse)
  {
    if b == [] {
      assert a + b == a;
    } else {
      LastApart(a, b);
      ReadLinesJoin(o, a, b[..|b| - 1], unix, parse);
    }
  }

  datatype Chunk = Chunk(data: string, unix: nat)

  function Joined(chunks: seq<Chunk>): string {
    if chunks == [] then "" else Joined(chunks[..|chunks| - 1]) + chunks[|chunks| - 1].data
  }

  function ChunksRead(s: Stream, chunks: seq<Chunk>, parse: Parser): (Stream, seq<Report>) {
    if chunks == [] then (s, [])
    else
      var before := ChunksRead(s, chunks[..|chunks| - 1], parse);
      var last := BytesRead(before.0, chunks[|chunks| - 1].data, chunks[|chunks| - 1].unix, parse);
      (last.0, before.1 + last.1)
  }

  const NO_STREAM := Stream("", false, NOTHING_READ)

  /** However the bytes were cut into chunks and whenever those came, the reading
      - its timestamps aside - and the reports announced are those of the lines
      of the whole stream. */
  lemma {:induction false} ChunkingMakesNoDifference(chunks: seq<Chunk>, unix: nat, parse: Parser) returns (o: Reading)
    ensures var (s, notable) := ChunksRead(NO_STREAM, chunks, parse);
            && Follows(s, Unfinished(Joined(chunks)), o)
            && Untimed(o) == Untimed(ReadLines(NOTHING_READ, Completed(Joined(chunks)), unix, parse))
            && notable == NotableReports(Completed(Joined(chunks)), parse)
            && |s.line| <= MAX_LINE
  {
    if chunks == [] {
      o := NOTHING_READ;
    } else {
      var before, last := chunks[..|chunks| - 1], chunks[|chunks| - 1];
      var stream := Joined(before);
      var o' := ChunkingMakesNoDifference(before, unix, parse);
      var lines := Completed(Unfinished(stream) + last.data);
      UnfinishedIsEndless(stream);
      StreamingIsSplitting(ChunksRead(NO_STREAM, before, parse).0, Unfinished(stream), o', last.data, last.unix, parse);
      AcrossChunks(stream, last.data);
      ReadLinesJoin(NOTHING_READ, Completed(stream), lines, unix, parse);
      ReadLinesUntimed(o', ReadLines(NOTHING_READ, Completed(stream), unix, parse), lines, last.unix, unix, parse);
      o := ReadLines(o', lines, last.unix, parse);
    }
  }

  // What one report does to a reading.

  ghost predicate Agree(c: Coordinates) { c.work == Minus(c.position, c.offset) }

  /** The two coordinate systems agree after a report that carried a position;
      after one that did not, only if its offset is the one they agreed on. */
  lemma CoordinatesAgree(c: Coordinates, f: Fields)
    ensures Agree(Moved(c, f)) <==>
            f.position.Some? || (if f.offset.Some? then c.work == Minus(c.position, f.offset.value) else Agree(c))
  {}

  /** A reading of the output that is known is dated, and its age in reports is
      not negative. */
  predicate Dated(o: Output) {
    (o.beam != BeamUnknown <==> o.unix != 0) && o.beamReports <= o.reports
  }

  lemma OutputStaysDated(m: Machine, r: Report, unix: nat)
    requires Dated(m.output) && unix > 0
    ensures Dated(Applied(m, r, unix).output) && Dated(Forgotten(m).output)
  {}

  lemma {:induction false} BytesKeepItDated(s: Stream, data: string, unix: nat, parse: Parser)
    requires Dated(s.reading.machine.output) && unix > 0
    ensures Dated(BytesRead(s, data, unix, parse).0.reading.machine.output)
  {
    if data != "" {
      var before := BytesRead(s, data[..|data| - 1], unix, parse).0;
      BytesKeepItDated(s, data[..|data| - 1], unix, parse);
      OutputStaysDated(before.reading.machine, parse(before.line), unix);
    }
  }

  /** What a bridge does with its observer. */
  datatype Use = Feed(data: string, unix: nat) | Drop

  function Used(s: Stream, uses: seq<Use>, parse: Parser): Stream {
    if uses == [] then s
    else
      var before := Used(s, uses[..|uses| - 1], parse);
      match uses[|uses| - 1]
      case Feed(data, unix) => BytesRead(before, data, unix, parse).0
      case Drop => before.(reading := before.reading.(machine := Forgotten(before.reading.machine)))
  }

  /** Whatever is fed to an observer and however often the beam is forgotten, the
      beam is known exactly when it has a date, and was mentioned no later than the
      last report. */
  lemma {:induction false} KnownBeamHasADate(uses: seq<Use>, parse: Parser)
    requires forall i | 0 <= i < |uses| :: uses[i].Feed? ==> uses[i].unix > 0
    ensures Dated(Used(NO_STREAM, uses, parse).reading.machine.output)
  {
    if uses != [] {
      var before := Used(NO_STREAM, uses[..|uses| - 1], parse);
      KnownBeamHasADate(uses[..|uses| - 1], parse);
      match uses[|uses| - 1]
      case Feed(data, unix) => BytesKeepItDated(before, data, unix, parse);
      case Drop => OutputStaysDated(before.reading.machine, BLANK, 1);
    }
  }
}
