/** One line from the controller, and what it says. */
module Grbl {
  import opened Text

  datatype MachineState =
    | Unknown | Idle | Run | Hold | Jog | Alarm | Door | Check | Home | Sleep
    | Other(name: string)
  {
    /** Anything unfamiliar counts as moving. */
    predicate Moving() {
      match this
      case Idle | Alarm | Sleep | Check | Unknown => false
      case _ => true
    }

    /** Nothing turns, though there may be work waiting: a machine in HOLD both rests
        and is Moving. */
    predicate AtRest() {
      match this
      case Idle | Hold | Alarm | Sleep | Check | Door => true
      case _ => false
    }

    function Word(): string {
      match this
      case Unknown => ""
      case Idle => "Idle"
      case Run => "Run"
      case Hold => "Hold"
      case Jog => "Jog"
      case Alarm => "Alarm"
      case Door => "Door"
      case Check => "Check"
      case Home => "Home"
      case Sleep => "Sleep"
      case Other(name) => name
    }
  }

  function StateOf(word: string): (s: MachineState)
    ensures s.Word() == word
  {
    if word == "" then Unknown
    else if word == "Idle" then Idle
    else if word == "Run" then Run
    else if word == "Hold" then Hold
    else if word == "Jog" then Jog
    else if word == "Alarm" then Alarm
    else if word == "Door" then Door
    else if word == "Check" then Check
    else if word == "Home" then Home
    else if word == "Sleep" then Sleep
    else Other(word)
  }

  datatype Position = Position(x: real, y: real, z: real)

  const ORIGIN := Position(0.0, 0.0, 0.0)

  datatype Kind = NotGrbl | Ok | Error | AlarmLine | Message | Welcome | Status | SettingLine

  /** What the fields of a status report say. */
  datatype Fields = Fields(
    state: MachineState,
    position: Option<Position>,
    positionIsWork: bool,
    offset: Option<Position>,
    feed: real,
    spindle: real,
    hasOverrides: bool,
    accessory: string)

  datatype Report = Report(kind: Kind, text: string, code: int, setting: string, settingValue: string, fields: Fields)

  const NO_FIELDS := Fields(Unknown, None, false, None, 0.0, 0.0, false, "")

  const BLANK := Report(NotGrbl, "", 0, "", "", NO_FIELDS)

  /** How a decimal is read; strconv.ParseFloat is not modelled. */
  type Decimals = string -> Option<real>

  /** All the numbers of a comma-separated list, or none if one is unreadable. */
  function Numbers(parts: seq<string>, decimals: Decimals): Option<seq<real>> {
    if parts == [] then Some([])
    else
      var before := Numbers(parts[..|parts| - 1], decimals);
      var number := decimals(TrimSpace(parts[|parts| - 1]));
      if before.Some? && number.Some? then Some(before.value + [number.value]) else None
  }

  function NumbersOf(value: string, decimals: Decimals): seq<real> {
    var numbers := Numbers(Split(value, ','), decimals);
    if numbers.Some? then numbers.value else []
  }

  method ParseNumbers(value: string, decimals: Decimals) returns (numbers: seq<real>)
    ensures numbers == NumbersOf(value, decimals)
  {
    var parts := Split(value, ',');
    numbers := [];
    for i := 0 to |parts|
      invariant Numbers(parts[..i], decimals) == Some(numbers)
    {
      assert parts[..i + 1][..i] == parts[..i];
      var number := decimals(TrimSpace(parts[i]));
      if number.None? {
        NoneAfterNone(parts, decimals, i + 1);
        return [];
      }
      numbers := numbers + [number.value];
    }
    assert parts[..|parts|] == parts;
  }

  lemma {:induction false} NoneAfterNone(parts: seq<string>, decimals: Decimals, i: nat)
    requires i <= |parts| && Numbers(parts[..i], decimals).None?
    ensures Numbers(parts, decimals).None?
    decreases |parts| - i
  {
    if i == |parts| {
      assert parts[..i] == parts;
    } else {
      assert parts[..i + 1][..i] == parts[..i];
      NoneAfterNone(parts, decimals, i + 1);
    }
  }

  function PositionOf(value: string, decimals: Decimals): Option<Position> {
    var numbers := NumbersOf(value, decimals);
    if |numbers| < 2 then None
    else Some(Position(numbers[0], numbers[1], if |numbers| > 2 then numbers[2] else 0.0))
  }

  /** What one field of a status report adds to what the others said. */
  function WithField(r: Fields, field: string, decimals: Decimals): Fields {
    var (name, value, found) := Cut(field, ':');
    if found then WithNamed(r, FieldNameOf(name), value, decimals) else r
  }

  datatype FieldName = MPos | WPos | Wco | Fs | F | Ov | A | Unnamed

  function FieldNameOf(name: string): FieldName {
    if name == "MPos" then MPos
    else if name == "WPos" then WPos
    else if name == "WCO" then Wco
    else if name == "FS" then Fs
    else if name == "F" then F
    else if name == "Ov" then Ov
    else if name == "A" then A
    else Unnamed
  }

  function WithNamed(r: Fields, name: FieldName, value: string, decimals: Decimals): Fields {
    match name
    case MPos | WPos =>
      var position := PositionOf(value, decimals);
      if position.None? then r
      else r.(position := position, positionIsWork := name == WPos)
    case Wco =>
      var offset := PositionOf(value, decimals);
      if offset.None? then r else r.(offset := offset)
    case Fs =>
      var numbers := NumbersOf(value, decimals);
      r.(feed := if |numbers| > 0 then numbers[0] else r.feed,
         spindle := if |numbers| > 1 then numbers[1] else r.spindle)
    case F =>
      var numbers := NumbersOf(value, decimals);
      r.(feed := if |numbers| > 0 then numbers[0] else r.feed)
    case Ov => r.(hasOverrides := true)
    case A => r.(accessory := value)
    case Unnamed => r
  }

  function WithFields(r: Fields, fields: seq<string>, decimals: Decimals): Fields {
    if fields == [] then r
    else WithField(WithFields(r, fields[..|fields| - 1], decimals), fields[|fields| - 1], decimals)
  }

  lemma WithFieldsUpTo(r: Fields, fields: seq<string>, i: nat, decimals: Decimals)
    requires i < |fields|
    ensures WithFields(r, fields[..i + 1], decimals) == WithField(WithFields(r, fields[..i], decimals), fields[i], decimals)
  {
    assert fields[..i + 1][..i] == fields[..i];
  }

  function StatusOf(parts: seq<string>, decimals: Decimals): Fields
    requires parts != []
  {
    WithFields(NO_FIELDS.(state := StateOf(Cut(parts[0], ':').0)), parts[1..], decimals)
  }

  method ParseStatus(body: string, decimals: Decimals) returns (status: Fields)
    ensures status == StatusOf(Split(body, '|'), decimals)
  {
    var parts := Split(body, '|');
    status := NO_FIELDS.(state := StateOf(Cut(parts[0], ':').0));
    ghost var start := status;
    var fields := parts[1..];
    for i := 0 to |fields|
      invariant status == WithFields(start, fields[..i], decimals)
    {
      WithFieldsUpTo(start, fields, i, decimals);
      var (name, value, found) := Cut(fields[i], ':');
      if !found {
        continue;
      }
      match FieldNameOf(name) {
        case MPos | WPos =>
          var position := PositionOf(value, decimals);
          if position.Some? {
            status := status.(position := position, positionIsWork := FieldNameOf(name) == WPos);
          }
        case Wco =>
          var offset := PositionOf(value, decimals);
          if offset.Some? {
            status := status.(offset := offset);
          }
        case Fs =>
          var numbers := ParseNumbers(value, decimals);
          if |numbers| > 0 {
            status := status.(feed := numbers[0]);
          }
          if |numbers| > 1 {
            status := status.(spindle := numbers[1]);
          }
        case F =>
          var numbers := ParseNumbers(value, decimals);
          if |numbers| > 0 {
            status := status.(feed := numbers[0]);
          }
        case Ov =>
          status := status.(hasOverrides := true);
        case A =>
          status := status.(accessory := value);
        case Unnamed =>
      }
    }
    assert fields[..|fields|] == fields;
  }

  predicate IsStatusLine(line: string) { "<" <= line && HasSuffix(line, ">") }

  function Inside(line: string): string {
    if |line| < 2 then "" else line[1..|line| - 1]
  }

  /** The meaning of a line without its ending. */
  function ReportOf(raw: string, decimals: Decimals): Report {
    var line := TrimSpace(raw);
    var r := BLANK.(text := line);
    if line == "" then BLANK
    else if line == "ok" then r.(kind := Ok)
    else if "error:" <= line then r.(kind := Error, code := AtoiAnyway(line[6..]))
    else if "ALARM:" <= line then r.(kind := AlarmLine, fields := NO_FIELDS.(state := Alarm), code := AtoiAnyway(line[6..]))
    else if "Grbl " <= line then r.(kind := Welcome)
    else if "[" <= line && HasSuffix(line, "]") then r.(kind := Message)
    else if IsStatusLine(line) then r.(kind := Status, fields := StatusOf(Split(Inside(line), '|'), decimals))
    else if "$" <= line && '=' in line then
      r.(kind := SettingLine, setting := Cut(line, '=').0, settingValue := Cut(line, '=').1)
    else r
  }

  method Parse(raw: string, decimals: Decimals) returns (report: Report)
    ensures report == ReportOf(raw, decimals)
  {
    var line := TrimSpace(raw);
    report := BLANK.(text := line);
    if line == "" {
      return BLANK;
    } else if line == "ok" {
      report := report.(kind := Ok);
    } else if "error:" <= line {
      report := report.(kind := Error, code := AtoiAnyway(line[6..]));
    } else if "ALARM:" <= line {
      report := report.(kind := AlarmLine, fields := NO_FIELDS.(state := Alarm), code := AtoiAnyway(line[6..]));
    } else if "Grbl " <= line {
      report := report.(kind := Welcome);
    } else if "[" <= line && HasSuffix(line, "]") {
      report := report.(kind := Message);
    } else if IsStatusLine(line) {
      var status := ParseStatus(Inside(line), decimals);
      report := report.(kind := Status, fields := status);
    } else if "$" <= line && '=' in line {
      var (name, value, _) := Cut(line, '=');
      report := report.(kind := SettingLine, setting := name, settingValue := value);
    }
  }

  // Reading back what a controller prints.

  lemma TextStands(line: string)
    requires line != "" && !IsSpace(line[0]) && !IsSpace(line[|line| - 1])
    ensures TrimSpace(line) == line
  {
    TrimKeeps(line, IsSpace);
  }

  lemma NumberStands(code: int)
    requires MIN_INT64 <= code <= MAX_INT64
    ensures AtoiAnyway(Itoa(code)) == code
  {
    AtoiItoa(code);
  }

  lemma NumberedLine(line: string, word: string, code: int)
    requires line == word + Itoa(code) && |word| == 6 && !IsSpace(word[0]) && MIN_INT64 <= code <= MAX_INT64
    ensures TrimSpace(line) == line && word <= line && line[0] == word[0] && AtoiAnyway(line[6..]) == code
  {
    assert line[|line| - 1] == Itoa(code)[|Itoa(code)| - 1];
    assert line[0] == word[0];
    TextStands(line);
    NumberStands(code);
    assert line[6..] == Itoa(code);
  }

  /** An error is read with its number, whatever that is; it answers a line, as an
      ok does, and says nothing else. */
  lemma ErrorReadsBack(line: string, code: int, decimals: Decimals)
    requires line == "error:" + Itoa(code) && MIN_INT64 <= code <= MAX_INT64
    ensures ReportOf(line, decimals) == BLANK.(kind := Error, text := line, code := code)
  {
    NumberedLine(line, "error:", code);
    assert line[0] == 'e' && |line| > 6;
  }

  /** An alarm answers nothing; it is a state and a number. */
  lemma AlarmReadsBack(line: string, code: int, decimals: Decimals)
    requires line == "ALARM:" + Itoa(code) && MIN_INT64 <= code <= MAX_INT64
    ensures ReportOf(line, decimals)
            == BLANK.(kind := AlarmLine, fields := NO_FIELDS.(state := Alarm), text := line, code := code)
  {
    NumberedLine(line, "ALARM:", code);
    assert line[0] == 'A' && |line| > 6;
  }

  /** A line of the settings is read as its name and its value. */
  lemma SettingReadsBack(line: string, name: string, value: string, decimals: Decimals)
    requires line == "$" + name + "=" + value && '=' !in name
    requires value == "" || !IsSpace(value[|value| - 1])
    ensures ReportOf(line, decimals)
            == BLANK.(kind := SettingLine, text := line, setting := "$" + name, settingValue := value)
  {
    assert line[0] == '$' && line[|line| - 1] == (if value == "" then '=' else value[|value| - 1]);
    TextStands(line);
    CutAt("$" + name, '=', value);
    assert line == ("$" + name) + ['='] + value;
    assert line[|name| + 1] == '=';
  }

  /** A status report as it is printed: the state and then its fields. */
  function StatusLine(parts: seq<string>): string {
    "<" + Join(parts, "|") + ">"
  }

  lemma StatusLineReadsBack(parts: seq<string>, decimals: Decimals)
    requires parts != [] && forall part | part in parts :: '|' !in part
    ensures ReportOf(StatusLine(parts), decimals) == BLANK.(kind := Status, text := StatusLine(parts), fields := StatusOf(parts, decimals))
  {
    var line := StatusLine(parts);
    TrimKeeps(line, IsSpace);
    assert line[0] == '<' && line[|line| - 1] == '>';
    assert Inside(line) == Join(parts, "|");
    SplitJoin(parts, '|');
    assert line != "ok" && !("error:" <= line) && !("ALARM:" <= line) && !("Grbl " <= line) && !("[" <= line);
  }

  predicate Named(field: string, name: FieldName) {
    Cut(field, ':').2 && FieldNameOf(Cut(field, ':').0) == name
  }

  ghost predicate Mentions(fields: seq<string>) {
    exists k | 0 <= k < |fields| :: Named(fields[k], Ov)
  }

  lemma MentionsLast(fields: seq<string>, last: string)
    ensures Mentions(fields + [last]) <==> Mentions(fields) || Named(last, Ov)
  {
    var all := fields + [last];
    if Mentions(fields) {
      var k :| 0 <= k < |fields| && Named(fields[k], Ov);
      assert Named(all[k], Ov);
    }
    if Named(last, Ov) { assert Named(all[|fields|], Ov); }
  }

  lemma FieldMentions(r: Fields, field: string, decimals: Decimals)
    ensures var read := WithField(r, field, decimals);
            && (read.hasOverrides <==> r.hasOverrides || Named(field, Ov))
            && read.state == r.state
  {}

  /** A report mentions its outputs exactly when one of its fields is Ov:. */
  lemma {:induction false} OverridesMentioned(r: Fields, fields: seq<string>, decimals: Decimals)
    ensures var read := WithFields(r, fields, decimals);
            && (read.hasOverrides <==> r.hasOverrides || Mentions(fields))
            && read.state == r.state
  {
    if fields != [] {
      var before, last := fields[..|fields| - 1], fields[|fields| - 1];
      OverridesMentioned(r, before, decimals);
      assert before + [last] == fields;
      MentionsLast(before, last);
      FieldMentions(WithFields(r, before, decimals), last, decimals);
    }
  }

  lemma {:induction false} FieldsInTwoParts(r: Fields, a: seq<string>, b: seq<string>, decimals: Decimals)
    ensures WithFields(r, a + b, decimals) == WithFields(WithFields(r, a, decimals), b, decimals)
  {
    if b == [] {
      assert a + b == a;
    } else {
      LastApart(a, b);
      FieldsInTwoParts(r, a, b[..|b| - 1], decimals);
    }
  }

  lemma OneField(r: Fields, field: string, decimals: Decimals)
    ensures WithFields(r, [field], decimals) == WithField(r, field, decimals)
  {
    assert [field][..0] == [];
  }

  function Field(name: string, value: string): string { name + ":" + value }

  lemma FieldReadsBack(r: Fields, name: string, value: string, decimals: Decimals)
    requires ':' !in name
    ensures WithField(r, Field(name, value), decimals) == WithNamed(r, FieldNameOf(name), value, decimals)
  {
    CutAt(name, ':', value);
  }

  /** The fields about the outputs, as GRBL prints them: Ov: when it mentions
      them at all, and A: beside it only when something is on. */
  function OutputFields(mentions: bool, overrides: string, accessory: string): seq<string> {
    if !mentions then []
    else [Field("Ov", overrides)] + if accessory == "" then [] else [Field("A", accessory)]
  }

  lemma ReadsOverrides(r: Fields, overrides: string, decimals: Decimals)
    ensures WithField(r, Field("Ov", overrides), decimals) == r.(hasOverrides := true)
  {
    FieldReadsBack(r, "Ov", overrides, decimals);
  }

  lemma ReadsAccessory(r: Fields, accessory: string, decimals: Decimals)
    ensures WithField(r, Field("A", accessory), decimals) == r.(accessory := accessory)
  {
    FieldReadsBack(r, "A", accessory, decimals);
  }

  lemma TwoFields(r: Fields, first: string, second: string, decimals: Decimals)
    ensures WithFields(r, [first] + [second], decimals) == WithField(WithField(r, first, decimals), second, decimals)
  {
    OneField(r, first, decimals);
    OneField(WithField(r, first, decimals), second, decimals);
    FieldsInTwoParts(r, [first], [second], decimals);
  }

  lemma OutputFieldsReadBack(r: Fields, mentions: bool, overrides: string, accessory: string, decimals: Decimals)
    ensures WithFields(r, OutputFields(mentions, overrides, accessory), decimals)
            == if !mentions then r
               else r.(hasOverrides := true, accessory := if accessory == "" then r.accessory else accessory)
  {
    ReadsOverrides(r, overrides, decimals);
    ReadsAccessory(r.(hasOverrides := true), accessory, decimals);
    var ov, a := Field("Ov", overrides), Field("A", accessory);
    if mentions {
      if accessory == "" {
        OneField(r, ov, decimals);
        assert OutputFields(mentions, overrides, accessory) == [ov];
      } else {
        TwoFields(r, ov, a, decimals);
        assert OutputFields(mentions, overrides, accessory) == [ov] + [a];
      }
    }
  }
}
