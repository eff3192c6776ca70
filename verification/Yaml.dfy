/** The configuration file: sections of flat keys, written by this program and
    read by it, by older and by newer versions of it, and edited by hand. */
module Yaml {
  import opened Text
  import opened Config
  import opened Schema

  /** strconv.Quote and strconv.Unquote. */
  datatype Quoting = Quoting(quote: string -> string, unquote: string -> Option<string>)

  /** All that is assumed of them: one undoes the other, and what is quoted is
      between quotation marks and on one line. */
  ghost predicate Faithful(q: Quoting) {
    forall s: string ::
      var t := q.quote(s);
      q.unquote(t) == Some(s) && |t| >= 2 && t[0] == '"' && t[|t| - 1] == '"' && '\n' !in t
  }

  // The scanner's buffer: a line that does not fit ends the reading.
  const MAX_LINE := 65535

  // Values.

  function ParseBool(s: string): Option<bool> {
    if s in ["1", "t", "T", "TRUE", "true", "True"] then Some(true)
    else if s in ["0", "f", "F", "FALSE", "false", "False"] then Some(false)
    else None
  }

  function BeforeComment(s: string): string {
    if s == "" || " #" <= s then "" else [s[0]] + BeforeComment(s[1..])
  }

  function WordOf(q: Quoting, raw: string): Option<string> {
    if raw != "" && raw[0] == '"' then q.unquote(raw) else Some(TrimSpace(BeforeComment(raw)))
  }

  function Trimmed(parts: seq<string>): seq<string> {
    if parts == [] then [] else [TrimSpace(parts[0])] + Trimmed(parts[1..])
  }

  function Items(list: string): seq<string> {
    if list == "" then [] else Trimmed(Split(list, ','))
  }

  function ValueOf(q: Quoting, raw: string, kind: Kind): (v: Option<Value>)
    ensures v.Some? ==> Fits(v.value, kind)
  {
    match kind
    case AWord => Map(WordOf(q, raw), s => Word(s))
    case ANumber => Map(Atoi(raw), n => Number(n))
    case AFlag => Map(ParseBool(raw), on => Flag(on))
    case AList => Map(WordOf(q, raw), s => Words(Items(s)))
  }

  function Shown(q: Quoting, v: Value): string {
    match v
    case Word(text) => q.quote(text)
    case Number(n) => Itoa(n)
    case Flag(on) => if on then "true" else "false"
    case Words(items) => q.quote(Join(items, ","))
  }

  /** A value that its text gives back: a number of 64 bits, a list of words
      without commas and without blanks around them. */
  ghost predicate Writable(v: Value) {
    match v
    case Number(n) => MIN_INT64 <= n <= MAX_INT64
    case Words(items) =>
      forall i | 0 <= i < |items| ::
        items[i] != "" && ',' !in items[i] && !IsSpace(items[i][0]) && !IsSpace(items[i][|items[i]| - 1])
    case _ => true
  }

  lemma {:induction false} CleanItemsStay(items: seq<string>)
    requires Writable(Words(items))
    ensures Trimmed(items) == items
  {
    if items != [] {
      TrimKeeps(items[0], IsSpace);
      CleanItemsStay(items[1..]);
    }
  }

  lemma ItemsOfJoin(items: seq<string>)
    requires Writable(Words(items))
    ensures Items(Join(items, ",")) == items
  {
    if items != [] {
      SplitJoin(items, ',');
      assert Join(items, [',']) != "" by { assert items[0] != ""; }
      CleanItemsStay(items);
    }
  }

  lemma ValueReadsBack(q: Quoting, v: Value, kind: Kind)
    requires Faithful(q) && Fits(v, kind) && Writable(v)
    ensures ValueOf(q, Shown(q, v), kind) == Some(v)
  {
    match v
    case Word(text) => assert q.unquote(q.quote(text)) == Some(text);
    case Number(n) => AtoiItoa(n);
    case Flag(on) =>
    case Words(items) =>
      ItemsOfJoin(items);
      assert q.unquote(q.quote(Join(items, ","))) == Some(Join(items, ","));
  }

  /** Text that stands between blanks. */
  predicate Solid(s: string) {
    s != "" && !IsSpace(s[0]) && !IsSpace(s[|s| - 1])
  }

  lemma ShownIsSolid(q: Quoting, v: Value)
    requires Faithful(q)
    ensures Solid(Shown(q, v)) && '\n' !in Shown(q, v)
  {
    match v
    case Word(text) => assert q.unquote(q.quote(text)) == Some(text);
    case Number(n) => assert Itoa(n) != "";
    case Flag(on) =>
    case Words(items) => assert q.unquote(q.quote(Join(items, ","))) == Some(Join(items, ","));
  }

  // Lines.

  datatype Place = Nowhere | Unfamiliar | Within(section: Section)

  datatype Misshape = ExpectedSection | ExpectedKey | ExpectedColon

  datatype Complaint = UnknownSection(name: string) | UnknownKey(section: Section, key: string) | BadValue(field: Field)

  /** What a line looks like. */
  datatype Shape = Empty | Title(name: string) | Item(key: string, value: string) | NotATitle | NotIndented | NoColon

  predicate IsTail(c: char) { c == ' ' || c == '\t' || c == '\r' }

  function ShapeOf(line: string): Shape {
    var raw := TrimRight(line, IsTail);
    var text := TrimSpace(raw);
    if text == "" || text[0] == '#' then Empty
    else if !(" " <= raw) then
      if !HasSuffix(raw, ":") || ':' in raw[..|raw| - 1] then NotATitle else Title(raw[..|raw| - 1])
    else if !("  " <= raw) || "   " <= raw then NotIndented
    else
      var cut := Cut(text, ':');
      if !cut.2 then NoColon else Item(TrimSpace(cut.0), TrimSpace(cut.1))
  }

  datatype Pair = Pair(field: Field, value: Value)

  type Setting = p: Pair | Fits(p.value, KindOf(p.field)) witness Pair(DNS, Words([]))

  /** What a line comes to, given the section it stands in. */
  datatype Meaning =
    | Blank
    | Enter(section: Option<Section>, name: string)
    | Assign(setting: Setting)
    | Complain(complaint: Complaint)
    | Misshapen(what: Misshape)

  /** How the keys of a section are found; Schema.FieldNamed is the one there is. */
  type Finder = (Section, string) -> Option<Field>

  function MeaningOfKey(q: Quoting, find: Finder, s: Section, key: string, raw: string): (m: Meaning)
    ensures m.Assign? || m.Complain?
  {
    match find(s, key)
    case None => Complain(UnknownKey(s, key))
    case Some(f) =>
      match ValueOf(q, raw, KindOf(f))
      case None => Complain(BadValue(f))
      case Some(v) => Assign(Pair(f, v))
  }

  function MeaningOf(q: Quoting, find: Finder, place: Place, shape: Shape): Meaning {
    match shape
    case Empty => Blank
    case Title(name) => Enter(SectionNamed(name), name)
    case NotATitle => Misshapen(ExpectedSection)
    case NotIndented => Misshapen(ExpectedKey)
    case NoColon => Misshapen(if place.Nowhere? then ExpectedKey else ExpectedColon)
    case Item(key, value) =>
      match place
      case Nowhere => Misshapen(ExpectedKey)
      case Unfamiliar => Blank
      case Within(s) => MeaningOfKey(q, find, s, key, value)
  }

  type Reader = (Place, string) -> Meaning

  function Reading(q: Quoting): Reader { (place, line) => MeaningOf(q, FieldNamed, place, ShapeOf(line)) }

  datatype Note = Note(line: nat, complaint: Complaint)

  datatype Progress = Progress(settings: Settings, place: Place, notes: seq<Note>)

  const UNREAD := Progress(DEFAULT, Nowhere, [])

  datatype ParseError = BadLine(line: nat, what: Misshape) | TooLong(line: nat)

  datatype Parsed = Failed(error: ParseError) | Good(progress: Progress)

  /** One line, which is the n-th. */
  function Step(read: Reader, p: Progress, n: nat, line: string): Parsed {
    if |line| > MAX_LINE then Failed(TooLong(n))
    else
      match read(p.place, line)
      case Blank => Good(p)
      case Enter(None, name) => Good(p.(place := Unfamiliar, notes := p.notes + [Note(n, UnknownSection(name))]))
      case Enter(Some(s), _) => Good(p.(place := Within(s)))
      case Assign(it) => Good(p.(settings := Put(p.settings, it.field, it.value)))
      case Complain(complaint) => Good(p.(notes := p.notes + [Note(n, complaint)]))
      case Misshapen(what) => Failed(BadLine(n, what))
  }

  function Then(read: Reader, parsed: Parsed, n: nat, line: string): Parsed {
    match parsed
    case Failed(e) => Failed(e)
    case Good(p) => Step(read, p, n, line)
  }

  /** The lines of a file, taken one after the other. */
  function Taken(read: Reader, lines: seq<string>): Parsed {
    if lines == [] then Good(UNREAD)
    else Then(read, Taken(read, lines[..|lines| - 1]), |lines|, lines[|lines| - 1])
  }

  class Parser {
    const q: Quoting
    var settings: Settings
    var place: Place
    var notes: seq<Note>

    function State(): Progress reads this { Progress(settings, place, notes) }

    constructor (q: Quoting)
      ensures this.q == q && State() == UNREAD
    {
      this.q := q;
      settings, place, notes := DEFAULT, Nowhere, [];
    }

    /** Assigns first and finds out afterwards: a value that cannot be read has
        overwritten the setting by then. */
    method SetValue(s: Section, key: string, raw: string) returns (complaint: Option<Complaint>)
      modifies this`settings
      ensures match MeaningOfKey(q, FieldNamed, s, key, raw)
              case Assign(it) => complaint == None && settings == Put(old(settings), it.field, it.value)
              case Complain(c) => complaint == Some(c)
              case _ => false
    {
      var field := FieldNamed(s, key);
      if field.None? {
        return Some(UnknownKey(s, key));
      }
      var f := field.value;
      var v := ValueOf(q, raw, KindOf(f));
      if v.None? {
        if KindOf(f) != AList {
          settings := Put(settings, f, if KindOf(f) == AWord then Word("")
                                       else if KindOf(f) == AFlag then Flag(false)
                                       else Number(AtoiAnyway(raw)));
        }
        return Some(BadValue(f));
      }
      settings := Put(settings, f, v.value);
      complaint := None;
    }

    /** Which is why a copy is kept. */
    method TakeSetting(n: nat, s: Section, key: string, raw: string)
      modifies this
      ensures place == old(place)
      ensures match MeaningOfKey(q, FieldNamed, s, key, raw)
              case Assign(it) => settings == Put(old(settings), it.field, it.value) && notes == old(notes)
              case Complain(c) => settings == old(settings) && notes == old(notes) + [Note(n, c)]
              case _ => false
    {
      var before := settings;
      var complaint := SetValue(s, key, raw);
      if complaint.Some? {
        settings := before;
        notes := notes + [Note(n, complaint.value)];
      }
    }

    method TakeLine(n: nat, line: string) returns (error: Option<ParseError>)
      modifies this
      ensures Step(Reading(q), old(State()), n, line) == if error.None? then Good(State()) else Failed(error.value)
    {
      if |line| > MAX_LINE {
        return Some(TooLong(n));
      }
      var raw := TrimRight(line, IsTail);
      var text := TrimSpace(raw);
      if text == "" || text[0] == '#' {
        return None;
      }
      if !(" " <= raw) {
        if !HasSuffix(raw, ":") || ':' in raw[..|raw| - 1] {
          assert ShapeOf(line) == NotATitle;
          return Some(BadLine(n, ExpectedSection));
        }
        var name := raw[..|raw| - 1];
        var section := SectionNamed(name);
        if section.None? {
          notes := notes + [Note(n, UnknownSection(name))];
          place := Unfamiliar;
        } else {
          place := Within(section.value);
        }
        return None;
      }
      if !("  " <= raw) || "   " <= raw || place.Nowhere? {
        return Some(BadLine(n, ExpectedKey));
      }
      var cut := Cut(text, ':');
      if !cut.2 {
        return Some(BadLine(n, ExpectedColon));
      }
      if place.Unfamiliar? {
        return None;
      }
      TakeSetting(n, place.section, TrimSpace(cut.0), TrimSpace(cut.1));
      error := None;
    }
  }

  lemma TakenUpTo(read: Reader, lines: seq<string>, n: nat)
    requires n < |lines|
    ensures Taken(read, lines[..n + 1]) == Then(read, Taken(read, lines[..n]), n + 1, lines[n])
  {
    assert lines[..n + 1][..n] == lines[..n];
  }

  lemma {:induction false} FailureStays(read: Reader, lines: seq<string>, n: nat)
    requires n <= |lines| && Taken(read, lines[..n]).Failed?
    ensures Taken(read, lines) == Taken(read, lines[..n])
    decreases |lines| - n
  {
    if n < |lines| {
      TakenUpTo(read, lines, n);
      FailureStays(read, lines, n + 1);
    } else {
      assert lines[..n] == lines;
    }
  }

  /** Reads a file without judging the result. */
  method Parse(q: Quoting, data: string) returns (parsed: Parsed)
    ensures parsed == Taken(Reading(q), Pieces(data, '\n'))
  {
    var parser := new Parser(q);
    var lines := Pieces(data, '\n');
    for n := 0 to |lines|
      invariant parser.q == q && Taken(Reading(q), lines[..n]) == Good(parser.State())
    {
      TakenUpTo(Reading(q), lines, n);
      var error := parser.TakeLine(n + 1, lines[n]);
      if error.Some? {
        FailureStays(Reading(q), lines, n + 1);
        return Failed(error.value);
      }
    }
    assert lines[..|lines|] == lines;
    parsed := Good(parser.State());
  }

  datatype Outcome = Unreadable(error: ParseError) | Unusable | Accepted(settings: Settings, notes: seq<Note>)

  function Read(q: Quoting, net: Addresses, data: string): Outcome {
    match Taken(Reading(q), Pieces(data, '\n'))
    case Failed(e) => Unreadable(e)
    case Good(p) => if Valid(net, p.settings) then Accepted(p.settings, p.notes) else Unusable
  }

  method ParseYaml(q: Quoting, net: Addresses, data: string) returns (outcome: Outcome)
    ensures outcome == Read(q, net, data)
  {
    var parsed := Parse(q, data);
    if parsed.Failed? {
      return Unreadable(parsed.error);
    }
    var problems := Validate(net, parsed.progress.settings);
    if problems != [] {
      return Unusable;
    }
    outcome := Accepted(parsed.progress.settings, parsed.progress.notes);
  }

  // Writing.

  function KeyLine(q: Quoting, c: Settings, f: Field): string {
    "  " + KeyOf(f) + ": " + Shown(q, Get(c, f))
  }

  /** Fields, one to a line, however a line is written. */
  function FieldLines(write: Field -> string, fields: seq<Field>): seq<string> {
    if fields == [] then [] else FieldLines(write, fields[..|fields| - 1]) + [write(fields[|fields| - 1])]
  }

  function Heading(s: Section): string { SectionName(s) + ":" }

  function FileLines(write: Field -> string, sections: seq<Section>): seq<string> {
    if sections == [] then []
    else
      var last := sections[|sections| - 1];
      FileLines(write, sections[..|sections| - 1]) + [Heading(last)] + FieldLines(write, FieldsOf(last))
  }

  function LinesOf(q: Quoting, c: Settings): seq<string> {
    FileLines(f => KeyLine(q, c, f), SECTIONS)
  }

  function MarshalYaml(q: Quoting, net: Addresses, c: Settings): Option<string> {
    if Valid(net, c) then Some(Terminated(LinesOf(q, c), '\n')) else None
  }

  // The round trip.

  lemma IndentedText(text: string)
    requires Solid(text)
    ensures TrimRight("  " + text, IsTail) == "  " + text
    ensures TrimSpace("  " + text) == text && TrimSpace(" " + text) == text
  {
    var one, two := " " + text, "  " + text;
    assert two[1..] == one && one[1..] == text;
    assert two[|two| - 1] == text[|text| - 1];
    TrimKeeps(text, IsSpace);
    assert TrimLeft(two, IsSpace) == TrimLeft(one, IsSpace) == TrimLeft(text, IsSpace);
  }

  lemma PlainIsSolid(key: string)
    requires Plain(key)
    ensures Solid(key) && ':' !in key && '\n' !in key && key[0] != '#' && TrimSpace(key) == key
  {
    TrimKeeps(key, IsSpace);
  }

  lemma ItemShape(line: string, text: string, key: string, rest: string)
    requires TrimRight(line, IsTail) == line && TrimSpace(line) == text
    requires text != "" && text[0] != '#' && |line| > 2 && line[0] == line[1] == ' ' && line[2] != ' '
    requires Cut(text, ':') == (key, rest, true)
    ensures ShapeOf(line) == Item(TrimSpace(key), TrimSpace(rest))
  {}

  /** A key that survives being cut out of a line. */
  predicate IsKey(key: string) { Solid(key) && ':' !in key && key[0] != '#' }

  lemma KeyLineShape(line: string, key: string, shown: string)
    requires line == "  " + key + ": " + shown && IsKey(key) && Solid(shown)
    ensures ShapeOf(line) == Item(key, shown)
  {
    var text := key + [':'] + (" " + shown);
    TrimKeeps(key, IsSpace);
    assert line == "  " + text;
    assert text[0] == key[0] && text[|text| - 1] == shown[|shown| - 1];
    IndentedText(text);
    CutAt(key, ':', " " + shown);
    IndentedText(shown);
    ItemShape(line, text, key, " " + shown);
  }

  lemma HeadingShape(name: string)
    requires Plain(name)
    ensures ShapeOf(name + ":") == Title(name)
  {
    var line := name + ":";
    PlainIsSolid(name);
    assert line[..|line| - 1] == name && line[|line| - 1] == ':' && line[|line| - 1..] == ":";
    assert line[0] == name[0];
    TrimKeeps(line, IsSpace);
  }

  lemma ReadingMeans(q: Quoting, place: Place, line: string, shape: Shape)
    requires ShapeOf(line) == shape
    ensures Reading(q)(place, line) == MeaningOf(q, FieldNamed, place, shape)
  {}

  lemma HeadingMeans(q: Quoting, place: Place, s: Section)
    ensures Reading(q)(place, Heading(s)) == Enter(Some(s), SectionName(s))
    ensures '\n' !in Heading(s) && |Heading(s)| <= MAX_LINE
  {
    SectionsAreFound(s);
    PlainIsSolid(SectionName(s));
    HeadingShape(SectionName(s));
    ReadingMeans(q, place, Heading(s), Title(SectionName(s)));
  }

  /** Numbers that fit their width, and servers that are addresses. */
  ghost predicate Sane(c: Settings) {
    && Writable(Number(c.system.usbAutosuspend))
    && Writable(Number(c.grbl.baudrate)) && Writable(Number(c.grbl.port)) && Writable(Number(c.grbl.maxConnections))
    && Writable(Number(c.grbl.monitorPort)) && Writable(Number(c.grbl.stationaryBeamSeconds))
    && Writable(Number(c.camera.fps)) && Writable(Number(c.camera.port)) && Writable(Number(c.camera.quality))
    && Writable(Words(c.network.dns))
  }

  lemma ValidServers(net: Addresses, servers: seq<string>)
    requires Lawful(net) && forall i | 0 <= i < |servers| :: net.isIP(servers[i])
    ensures Writable(Words(servers))
  {
    forall i | 0 <= i < |servers|
      ensures var s := servers[i]; s != "" && ',' !in s && !IsSpace(s[0]) && !IsSpace(s[|s| - 1])
    {
      assert net.isIP(servers[i]);
    }
  }

  lemma ValidIsSane(net: Addresses, c: Settings)
    requires Lawful(net)
    ensures Valid(net, c) ==> Sane(c)
  {
    if Valid(net, c) { ValidServers(net, c.network.dns); }
  }

  lemma KeyLineAssigns(q: Quoting, find: Finder, line: string, f: Field, key: string, v: Value)
    requires Faithful(q) && find(SectionOf(f), key) == Some(f) && Plain(key)
    requires Fits(v, KindOf(f)) && Writable(v)
    requires line == "  " + key + ": " + Shown(q, v)
    ensures MeaningOf(q, find, Within(SectionOf(f)), ShapeOf(line)) == Assign(Pair(f, v))
  {
    var shown := Shown(q, v);
    ShownIsSolid(q, v);
    ValueReadsBack(q, v, KindOf(f));
    PlainIsSolid(key);
    KeyLineShape(line, key, shown);
    assert MeaningOfKey(q, find, SectionOf(f), key, shown) == Assign(Pair(f, v));
  }

  lemma SaneValues(c: Settings, f: Field)
    requires Sane(c)
    ensures Writable(Get(c, f))
  {}

  lemma KeyLineIsRead(q: Quoting, c: Settings, f: Field)
    requires Faithful(q) && Sane(c)
    ensures Reading(q)(Within(SectionOf(f)), KeyLine(q, c, f)) == Assign(Pair(f, Get(c, f)))
  {
    KeysAreFound(f);
    SaneValues(c, f);
    KeyLineAssigns(q, FieldNamed, KeyLine(q, c, f), f, KeyOf(f), Get(c, f));
  }

  lemma KeyLineIsOne(q: Quoting, c: Settings, f: Field)
    requires Faithful(q)
    ensures '\n' !in KeyLine(q, c, f)
  {
    KeysAreFound(f);
    PlainIsSolid(KeyOf(f));
    ShownIsSolid(q, Get(c, f));
  }

  ghost predicate InLimit(lines: seq<string>) {
    forall i | 0 <= i < |lines| :: |lines[i]| <= MAX_LINE
  }

  lemma InLimitParts(a: seq<string>, b: seq<string>)
    ensures InLimit(a + b) <==> InLimit(a) && InLimit(b)
  {
    if InLimit(a + b) {
      assert forall i | 0 <= i < |a| :: (a + b)[i] == a[i];
      assert forall i | 0 <= i < |b| :: (a + b)[|a| + i] == b[i];
    }
  }

  lemma TakenOneMore(read: Reader, lines: seq<string>, line: string)
    ensures Taken(read, lines + [line]) == Then(read, Taken(read, lines), |lines| + 1, line)
  {
    assert (lines + [line])[..|lines|] == lines;
  }

  /** Lines that are read as the fields they were written for. */
  ghost predicate ReadsBack(read: Reader, write: Field -> string, t: Settings) {
    && (forall f: Field :: read(Within(SectionOf(f)), write(f)) == Assign(Pair(f, Get(t, f))))
    && (forall place, s: Section :: read(place, Heading(s)) == Enter(Some(s), SectionName(s)) && |Heading(s)| <= MAX_LINE)
  }

  lemma FieldTaken(read: Reader, write: Field -> string, t: Settings, before: seq<string>, p: Progress, f: Field)
    requires ReadsBack(read, write, t) && Taken(read, before) == Good(p) && p.place == Within(SectionOf(f))
    requires |write(f)| <= MAX_LINE
    ensures Taken(read, before + [write(f)]) == Good(p.(settings := Put(p.settings, f, Get(t, f))))
  {
    TakenOneMore(read, before, write(f));
  }

  lemma {:induction false} TakenFields(read: Reader, write: Field -> string, t: Settings, before: seq<string>, p: Progress,
                                       s: Section, fields: seq<Field>)
    requires ReadsBack(read, write, t) && Taken(read, before) == Good(p) && p.place == Within(s)
    requires forall f | f in fields :: SectionOf(f) == s
    requires InLimit(FieldLines(write, fields))
    ensures Taken(read, before + FieldLines(write, fields)) == Good(p.(settings := PutAll(p.settings, fields, t)))
  {
    if fields == [] {
      assert before + [] == before;
    } else {
      var rest, last := fields[..|fields| - 1], fields[|fields| - 1];
      var lines := FieldLines(write, rest);
      InLimitParts(lines, [write(last)]);
      assert [write(last)][0] == write(last);
      TakenFields(read, write, t, before, p, s, rest);
      FieldTaken(read, write, t, before + lines, p.(settings := PutAll(p.settings, rest, t)), last);
      assert before + (lines + [write(last)]) == before + lines + [write(last)];
    }
  }

  lemma {:induction false} TakenSections(read: Reader, write: Field -> string, t: Settings, sections: seq<Section>)
    requires ReadsBack(read, write, t) && InLimit(FileLines(write, sections))
    ensures var place := if sections == [] then Nowhere else Within(sections[|sections| - 1]);
            Taken(read, FileLines(write, sections)) == Good(Progress(PutSections(DEFAULT, sections, t), place, []))
  {
    if sections != [] {
      var rest, last := sections[..|sections| - 1], sections[|sections| - 1];
      var before, fields := FileLines(write, rest), FieldLines(write, FieldsOf(last));
      InLimitParts(before + [Heading(last)], fields);
      InLimitParts(before, [Heading(last)]);
      TakenSections(read, write, t, rest);
      var p := Taken(read, before).progress;
      TakenOneMore(read, before, Heading(last));
      forall f | f in FieldsOf(last)
        ensures SectionOf(f) == last
      {
        EverySettingIsListed(last, f);
      }
      TakenFields(read, write, t, before + [Heading(last)], p.(place := Within(last)), last, FieldsOf(last));
    }
  }

  lemma {:induction false} FieldLinesAreLines(write: Field -> string, fields: seq<Field>)
    requires forall f: Field :: '\n' !in write(f)
    ensures forall line | line in FieldLines(write, fields) :: '\n' !in line
  {
    if fields != [] { FieldLinesAreLines(write, fields[..|fields| - 1]); }
  }

  lemma {:induction false} FileLinesAreLines(write: Field -> string, sections: seq<Section>)
    requires forall f: Field :: '\n' !in write(f)
    requires forall s: Section :: '\n' !in Heading(s)
    ensures forall line | line in FileLines(write, sections) :: '\n' !in line
  {
    if sections != [] {
      FileLinesAreLines(write, sections[..|sections| - 1]);
      FieldLinesAreLines(write, FieldsOf(sections[|sections| - 1]));
    }
  }

  lemma {:induction false} LongLinesFail(read: Reader, lines: seq<string>)
    requires !InLimit(lines)
    ensures Taken(read, lines).Failed?
  {
    var before, last := lines[..|lines| - 1], lines[|lines| - 1];
    InLimitParts(before, [last]);
    assert lines == before + [last] && [last][0] == last;
    if !InLimit(before) { LongLinesFail(read, before); }
  }

  lemma FieldsAreRead(q: Quoting, c: Settings, read: Reader, write: Field -> string)
    requires Faithful(q) && Sane(c) && read == Reading(q) && forall f: Field :: write(f) == KeyLine(q, c, f)
    ensures forall f: Field :: read(Within(SectionOf(f)), write(f)) == Assign(Pair(f, Get(c, f)))
    ensures forall f: Field :: '\n' !in write(f)
  {
    forall f: Field
      ensures read(Within(SectionOf(f)), write(f)) == Assign(Pair(f, Get(c, f)))
      ensures '\n' !in write(f)
    {
      KeyLineIsRead(q, c, f);
      KeyLineIsOne(q, c, f);
    }
  }

  lemma HeadingsAreRead(q: Quoting, read: Reader)
    requires read == Reading(q)
    ensures forall place, s: Section :: read(place, Heading(s)) == Enter(Some(s), SectionName(s)) && |Heading(s)| <= MAX_LINE
    ensures forall s: Section :: '\n' !in Heading(s)
  {
    forall place, s: Section
      ensures read(place, Heading(s)) == Enter(Some(s), SectionName(s)) && |Heading(s)| <= MAX_LINE
    {
      HeadingMeans(q, place, s);
    }
    forall s: Section
      ensures '\n' !in Heading(s)
    {
      HeadingMeans(q, Nowhere, s);
    }
  }

  lemma WrittenReadsBack(q: Quoting, c: Settings, write: Field -> string)
    requires Faithful(q) && Sane(c) && forall f: Field :: write(f) == KeyLine(q, c, f)
    ensures ReadsBack(Reading(q), write, c)
    ensures forall f: Field :: '\n' !in write(f)
    ensures forall s: Section :: '\n' !in Heading(s)
  {
    FieldsAreRead(q, c, Reading(q), write);
    HeadingsAreRead(q, Reading(q));
  }

  lemma WrittenIsTaken(q: Quoting, c: Settings)
    requires Faithful(q) && Sane(c)
    ensures var taken := Taken(Reading(q), Pieces(Terminated(LinesOf(q, c), '\n'), '\n'));
            if InLimit(LinesOf(q, c)) then taken == Good(Progress(c, Within(WifiSection), [])) else taken.Failed?
  {
    var write: Field -> string := f => KeyLine(q, c, f);
    var lines := FileLines(write, SECTIONS);
    WrittenReadsBack(q, c, write);
    FileLinesAreLines(write, SECTIONS);
    PiecesTerminated(lines, '\n');
    assert lines == LinesOf(q, c);
    if InLimit(lines) {
      TakenSections(Reading(q), write, c, SECTIONS);
      AllFieldsRebuild(c);
    } else {
      LongLinesFail(Reading(q), lines);
    }
  }

  /** Only usable settings are written; and they are read back as they were, with
      nothing to complain about, if and only if no line is too long for the
      scanner. */
  lemma RoundTrip(q: Quoting, net: Addresses, c: Settings)
    requires Faithful(q) && Lawful(net)
    ensures MarshalYaml(q, net, c).Some? <==> Valid(net, c)
    ensures Valid(net, c) ==>
              (Read(q, net, MarshalYaml(q, net, c).value) == Accepted(c, []) <==> InLimit(LinesOf(q, c)))
  {
    if Valid(net, c) {
      ValidIsSane(net, c);
      WrittenIsTaken(q, c);
    }
  }

  // Files that newer versions have written.

  function Complaints(notes: seq<Note>): seq<Complaint> {
    if notes == [] then [] else Complaints(notes[..|notes| - 1]) + [notes[|notes| - 1].complaint]
  }

  lemma OneMoreComplaint(notes: seq<Note>, note: Note)
    ensures Complaints(notes + [note]) == Complaints(notes) + [note.complaint]
  {
    assert (notes + [note])[..|notes|] == notes;
  }

  /** A title is a title wherever it stands. */
  ghost predicate IsTitle(read: Reader, line: string) {
    forall place :: read(place, line).Enter? && read(place, line) == read(Nowhere, line)
  }

  /** The rest of a file, from where its first n lines have come to. */
  function Onward(read: Reader, from: Parsed, n: nat, tail: seq<string>): Parsed
    decreases |tail|
  {
    if tail == [] then from else Onward(read, Then(read, from, n + 1, tail[0]), n + 1, tail[1..])
  }

  lemma {:induction false} TakenOnward(read: Reader, before: seq<string>, tail: seq<string>)
    ensures Taken(read, before + tail) == Onward(read, Taken(read, before), |before|, tail)
    decreases |tail|
  {
    if tail == [] {
      assert before + tail == before;
    } else {
      TakenOneMore(read, before, tail[0]);
      TakenOnward(read, before + [tail[0]], tail[1..]);
      assert before + tail == before + [tail[0]] + tail[1..];
    }
  }

  /** Both came to nothing, or both to the same settings and to the same
      complaints since. */
  ghost predicate Alike(a: Parsed, b: Parsed, beforeA: seq<Complaint>, beforeB: seq<Complaint>, more: seq<Complaint>) {
    && (a.Good? <==> b.Good?)
    && (a.Good? ==> && a.progress.settings == b.progress.settings
                    && Complaints(a.progress.notes) == beforeA + more
                    && Complaints(b.progress.notes) == beforeB + more)
  }

  predicate SamePlace(a: Parsed, b: Parsed) {
    a.Good? && b.Good? ==> a.progress.place == b.progress.place
  }

  lemma OneMoreNote(notes: seq<Note>, before: seq<Complaint>, more: seq<Complaint>, note: Note)
    requires Complaints(notes) == before + more
    ensures Complaints(notes + [note]) == before + (more + [note.complaint])
  {
    OneMoreComplaint(notes, note);
  }

  /** One line adds the same to both. */
  lemma OneMoreLine(read: Reader, a: Parsed, b: Parsed, na: nat, nb: nat, line: string,
                    beforeA: seq<Complaint>, beforeB: seq<Complaint>, more: seq<Complaint>)
      returns (extra: seq<Complaint>)
    requires Alike(a, b, beforeA, beforeB, more)
    requires SamePlace(a, b) || IsTitle(read, line)
    ensures Alike(Then(read, a, na, line), Then(read, b, nb, line), beforeA, beforeB, more + extra)
    ensures SamePlace(Then(read, a, na, line), Then(read, b, nb, line))
  {
    extra := [];
    assert more + extra == more;
    if a.Good? {
      var meaning := read(a.progress.place, line);
      assert meaning == read(b.progress.place, line);
      if meaning.Complain? || (meaning.Enter? && meaning.section.None?) {
        var complaint := if meaning.Complain? then meaning.complaint else UnknownSection(meaning.name);
        extra := [complaint];
        OneMoreNote(a.progress.notes, beforeA, more, Note(na, complaint));
        OneMoreNote(b.progress.notes, beforeB, more, Note(nb, complaint));
      }
    }
  }

  /** Two beginnings of a file that came to the same settings, in the same place
      or before a title, go on in the same way. */
  lemma {:induction false} SameTail(read: Reader, a: Parsed, b: Parsed, na: nat, nb: nat, tail: seq<string>,
                                    beforeA: seq<Complaint>, beforeB: seq<Complaint>, so: seq<Complaint>)
      returns (more: seq<Complaint>)
    requires Alike(a, b, beforeA, beforeB, so)
    requires SamePlace(a, b) || tail == [] || IsTitle(read, tail[0])
    ensures Alike(Onward(read, a, na, tail), Onward(read, b, nb, tail), beforeA, beforeB, so + more)
    decreases |tail|
  {
    if tail == [] {
      more := [];
      assert so + more == so;
    } else {
      var extra := OneMoreLine(read, a, b, na + 1, nb + 1, tail[0], beforeA, beforeB, so);
      more := SameTail(read, Then(read, a, na + 1, tail[0]), Then(read, b, nb + 1, tail[0]), na + 1, nb + 1, tail[1..],
                       beforeA, beforeB, so + extra);
      assert so + (extra + more) == so + extra + more;
      more := extra + more;
    }
  }

  /** An unknown key or an unreadable value anywhere costs the file one note and
      nothing else. */
  lemma BadLineCostsOneNote(read: Reader, before: seq<string>, line: string, after: seq<string>, complaint: Complaint)
      returns (more: seq<Complaint>)
    requires Taken(read, before).Good? && |line| <= MAX_LINE
    requires read(Taken(read, before).progress.place, line) == Complain(complaint)
    ensures var soFar := Complaints(Taken(read, before).progress.notes);
            Alike(Taken(read, before + [line] + after), Taken(read, before + after), soFar + [complaint], soFar, more)
  {
    TakenOneMore(read, before, line);
    OneMoreComplaint(Taken(read, before).progress.notes, Note(|before| + 1, complaint));
    TakenOnward(read, before + [line], after);
    TakenOnward(read, before, after);
    var soFar := Complaints(Taken(read, before).progress.notes);
    assert soFar + [] == soFar && soFar + [complaint] + [] == soFar + [complaint];
    more := SameTail(read, Taken(read, before + [line]), Taken(read, before), |before| + 1, |before|, after,
                     soFar + [complaint], soFar, []);
    assert [] + more == more;
  }

  lemma {:induction false} BodyIsSkipped(read: Reader, before: seq<string>, body: seq<string>)
    requires Taken(read, before).Good? && Taken(read, before).progress.place == Unfamiliar
    requires forall i | 0 <= i < |body| :: |body[i]| <= MAX_LINE && read(Unfamiliar, body[i]) == Blank
    ensures Taken(read, before + body) == Taken(read, before)
  {
    if body == [] {
      assert before + body == before;
    } else {
      var rest := body[..|body| - 1];
      BodyIsSkipped(read, before, rest);
      TakenOneMore(read, before + rest, body[|body| - 1]);
      assert before + body == before + rest + [body[|body| - 1]];
    }
  }

  /** A whole unknown section before a title or at the end costs the file one note
      and nothing else, however much is in it. */
  lemma UnknownSectionCostsOneNote(read: Reader, before: seq<string>, title: string, name: string, body: seq<string>,
                                   after: seq<string>)
      returns (more: seq<Complaint>)
    requires Taken(read, before).Good? && |title| <= MAX_LINE && read(Taken(read, before).progress.place, title) == Enter(None, name)
    requires forall i | 0 <= i < |body| :: |body[i]| <= MAX_LINE && read(Unfamiliar, body[i]) == Blank
    requires after == [] || IsTitle(read, after[0])
    ensures var soFar := Complaints(Taken(read, before).progress.notes);
            Alike(Taken(read, before + [title] + body + after), Taken(read, before + after),
                  soFar + [UnknownSection(name)], soFar, more)
  {
    TakenOneMore(read, before, title);
    OneMoreComplaint(Taken(read, before).progress.notes, Note(|before| + 1, UnknownSection(name)));
    BodyIsSkipped(read, before + [title], body);
    TakenOnward(read, before + [title] + body, after);
    TakenOnward(read, before, after);
    var soFar := Complaints(Taken(read, before).progress.notes);
    var complaint := UnknownSection(name);
    assert soFar + [] == soFar && soFar + [complaint] + [] == soFar + [complaint];
    more := SameTail(read, Taken(read, before + [title] + body), Taken(read, before), |before + [title] + body|, |before|, after,
                     soFar + [complaint], soFar, []);
    assert [] + more == more;
  }

  lemma IndentGoes(line: string, text: string)
    requires line == "  " + text && text != "" && !IsSpace(text[0])
    ensures TrimLeft(line, IsSpace) == text
  {
    var one := " " + text;
    assert line[1..] == one && one[1..] == text;
    assert TrimLeft(line, IsSpace) == TrimLeft(one, IsSpace) == TrimLeft(text, IsSpace);
  }

  lemma ItemIsItem(line: string, raw: string, key: string, rest: string)
    requires TrimRight(line, IsTail) == raw && |raw| > 2 && raw[0] == raw[1] == ' ' && raw[2] != ' '
    requires IsKey(key) && TrimSpace(raw) == key + [':'] + rest
    ensures ShapeOf(line) == Item(key, TrimSpace(rest))
  {
    var text := key + [':'] + rest;
    assert text[0] == key[0];
    CutAt(key, ':', rest);
    TrimKeeps(key, IsSpace);
  }

  /** Anything may follow the colon, and nothing. */
  lemma AnyItemShape(line: string, key: string, rest: string) returns (value: string)
    requires line == "  " + key + ":" + rest && IsKey(key)
    ensures ShapeOf(line) == Item(key, value)
  {
    var keyed := key + [':'];
    var tailless := TrimRight(rest, IsTail);
    assert line == ("  " + keyed) + rest && ("  " + keyed)[|keyed| + 1] == ':';
    TrimRightKeeps("  " + keyed, rest, IsTail);
    var raw := "  " + keyed + tailless;
    assert raw == "  " + (keyed + tailless) && (keyed + tailless)[0] == key[0];
    IndentGoes(raw, keyed + tailless);
    TrimRightKeeps(keyed, tailless, IsSpace);
    ItemIsItem(line, raw, key, TrimRight(tailless, IsSpace));
    value := TrimSpace(TrimRight(tailless, IsSpace));
  }

  lemma UnknownKeyMeans(q: Quoting, find: Finder, s: Section, key: string, value: string)
    requires find(s, key) == None
    ensures MeaningOf(q, find, Within(s), Item(key, value)) == Complain(UnknownKey(s, key))
    ensures MeaningOf(q, find, Unfamiliar, Item(key, value)) == Blank
  {}

  lemma TitleMeans(q: Quoting, line: string)
    requires ShapeOf(line).Title?
    ensures IsTitle(Reading(q), line)
  {}

  /** What the lines of a newer version come to: a key this version does not have,
      whatever it is called and whatever follows its colon, and a title. */
  lemma NewerLines(q: Quoting, line: string, s: Section, key: string, rest: string)
    requires IsKey(key) && FieldNamed(s, key) == None
    ensures Reading(q)(Within(s), "  " + key + ":" + rest) == Complain(UnknownKey(s, key))
    ensures Reading(q)(Unfamiliar, "  " + key + ":" + rest) == Blank
    ensures ShapeOf(line).Title? ==> IsTitle(Reading(q), line)
  {
    var item := "  " + key + ":" + rest;
    var value := AnyItemShape(item, key, rest);
    ReadingMeans(q, Within(s), item, Item(key, value));
    ReadingMeans(q, Unfamiliar, item, Item(key, value));
    UnknownKeyMeans(q, FieldNamed, s, key, value);
    if ShapeOf(line).Title? { TitleMeans(q, line); }
  }

  // A file with everything this version does not understand taken out.

  /** What the grammar has in common with every other that has sections. */
  ghost predicate Sectioned(read: Reader) {
    && (forall here, there, line :: read(here, line).Enter? ==> read(there, line) == read(here, line))
    && (forall line :: !read(Unfamiliar, line).Assign? && !read(Unfamiliar, line).Complain?)
  }

  lemma MeaningIsSectioned(q: Quoting, find: Finder, here: Place, there: Place, shape: Shape)
    ensures MeaningOf(q, find, here, shape).Enter? ==> MeaningOf(q, find, there, shape) == MeaningOf(q, find, here, shape)
    ensures !MeaningOf(q, find, Unfamiliar, shape).Assign? && !MeaningOf(q, find, Unfamiliar, shape).Complain?
  {}

  lemma LineMeans(q: Quoting, here: Place, there: Place, line: string) returns (shape: Shape)
    ensures Reading(q)(here, line) == MeaningOf(q, FieldNamed, here, shape)
    ensures Reading(q)(there, line) == MeaningOf(q, FieldNamed, there, shape)
  {
    shape := ShapeOf(line);
  }

  lemma ReadingIsSectioned(q: Quoting)
    ensures Sectioned(Reading(q))
  {
    var read := Reading(q);
    forall here, there, line
      ensures read(here, line).Enter? ==> read(there, line) == read(here, line)
    {
      var shape := LineMeans(q, here, there, line);
      MeaningIsSectioned(q, FieldNamed, here, there, shape);
    }
    forall line
      ensures !read(Unfamiliar, line).Assign? && !read(Unfamiliar, line).Complain?
    {
      var shape := LineMeans(q, Unfamiliar, Unfamiliar, line);
      MeaningIsSectioned(q, FieldNamed, Unfamiliar, Unfamiliar, shape);
    }
  }

  /** A line that is of use in this place. */
  predicate Useful(place: Place, meaning: Meaning) {
    match meaning
    case Enter(section, _) => section.Some?
    case Complain(_) => false
    case _ => !place.Unfamiliar?
  }

  /** The useful lines of a file. */
  function Kept(read: Reader, lines: seq<string>): seq<string>
    requires Taken(read, lines).Good?
  {
    if lines == [] then []
    else
      var before, line := lines[..|lines| - 1], lines[|lines| - 1];
      var place := Taken(read, before).progress.place;
      Kept(read, before) + if Useful(place, read(place, line)) then [line] else []
  }

  /** How many bad lines and unknown sections there are in a file. */
  function Faults(read: Reader, lines: seq<string>): nat
    requires Taken(read, lines).Good?
  {
    if lines == [] then 0
    else
      var before, line := lines[..|lines| - 1], lines[|lines| - 1];
      var meaning := read(Taken(read, before).progress.place, line);
      Faults(read, before) + if AddsAFault(meaning) then 1 else 0
  }

  predicate AddsAFault(meaning: Meaning) { meaning.Complain? || (meaning.Enter? && meaning.section.None?) }

  /** Without the lines that are of no use the settings are the same, and there is
      nothing to complain about. */
  predicate Purer(kept: Progress, p: Progress) {
    kept.settings == p.settings && kept.notes == [] && (!p.place.Unfamiliar? ==> kept.place == p.place)
  }

  lemma KeptStep(read: Reader, p: Progress, kept: Progress, n: nat, m: nat, line: string)
    requires Sectioned(read) && Purer(kept, p) && Step(read, p, n, line).Good?
    ensures var next := Step(read, p, n, line).progress;
            var keptNext := if Useful(p.place, read(p.place, line)) then Step(read, kept, m, line) else Good(kept);
            && keptNext.Good? && Purer(keptNext.progress, next)
            && |next.notes| == |p.notes| + if AddsAFault(read(p.place, line)) then 1 else 0
  {}

  lemma KeptOneMore(read: Reader, before: seq<string>, line: string)
    requires Taken(read, before + [line]).Good?
    ensures Taken(read, before).Good?
    ensures var p := Taken(read, before).progress;
            && Taken(read, before + [line]) == Step(read, p, |before| + 1, line)
            && Kept(read, before + [line]) == Kept(read, before) + (if Useful(p.place, read(p.place, line)) then [line] else [])
            && Faults(read, before + [line]) == Faults(read, before) + if AddsAFault(read(p.place, line)) then 1 else 0
  {
    TakenOneMore(read, before, line);
    assert (before + [line])[..|before|] == before;
  }

  /** A file means what its useful lines mean. They are accepted without a note;
      the file itself gets one for every bad line and unknown section in it. */
  lemma {:induction false} KeptIsEnough(read: Reader, lines: seq<string>)
    requires Sectioned(read) && Taken(read, lines).Good?
    ensures var p, kept := Taken(read, lines).progress, Taken(read, Kept(read, lines));
            |p.notes| == Faults(read, lines) && kept.Good? && Purer(kept.progress, p)
  {
    if lines != [] {
      var before, line := lines[..|lines| - 1], lines[|lines| - 1];
      assert lines == before + [line];
      KeptOneMore(read, before, line);
      KeptIsEnough(read, before);
      var p, kept := Taken(read, before).progress, Kept(read, before);
      KeptStep(read, p, Taken(read, kept).progress, |lines|, |kept| + 1, line);
      TakenOneMore(read, kept, line);
      assert kept + [] == kept;
    }
  }

  /** So it is with the files there are. */
  lemma FileMeansItsUsefulLines(q: Quoting, lines: seq<string>)
    ensures Taken(Reading(q), lines).Good? ==>
              var p, kept := Taken(Reading(q), lines).progress, Taken(Reading(q), Kept(Reading(q), lines));
              && |p.notes| == Faults(Reading(q), lines)
              && kept.Good? && kept.progress.settings == p.settings && kept.progress.notes == []
  {
    if Taken(Reading(q), lines).Good? {
      ReadingIsSectioned(q);
      KeptIsEnough(Reading(q), lines);
    }
  }
}
