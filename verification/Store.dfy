/** The configuration on disk: what start-up does to a file it cannot use. */
module Store {
  import opened Text
  import opened Config
  import opened Schema
  import opened Yaml

  /** Everything a file still says, when it says it in a readable shape. */
  function Rescued(q: Quoting, net: Addresses, data: string): Settings {
    match Taken(Reading(q), Pieces(data, '\n'))
    case Failed(_) => Salvaged(net, DEFAULT)
    case Good(p) => Salvaged(net, p.settings)
  }

  /** The settings that start-up writes, if it writes any. */
  function Replacement(q: Quoting, net: Addresses, file: Option<string>): Option<Settings> {
    match file
    case None => Some(DEFAULT)
    case Some(data) => if Read(q, net, data).Accepted? then None else Some(Rescued(q, net, data))
  }

  function Ensured(q: Quoting, net: Addresses, file: Option<string>): Option<string> {
    match Replacement(q, net, file)
    case None => file
    case Some(c) => MarshalYaml(q, net, c)
  }

  class Store {
    const q: Quoting
    const net: Addresses
    var file: Option<string>
    var quarantine: Option<string>

    constructor (q: Quoting, net: Addresses, file: Option<string>)
      ensures this.q == q && this.net == net && this.file == file && quarantine == None
    {
      this.q, this.net, this.file, quarantine := q, net, file, None;
    }

    /** Settings that are not usable are refused and the file stays. */
    method Save(c: Settings) returns (ok: bool)
      modifies this`file
      ensures ok <==> Valid(net, c)
      ensures file == if ok then MarshalYaml(q, net, c) else old(file)
    {
      var text := MarshalYaml(q, net, c);
      if text.None? {
        return false;
      }
      file := text;
      ok := true;
    }

    /** Leaves a usable configuration behind. One that is not is moved aside as
        it was, and what the appliance is reached by is kept. */
    method Ensure() returns (quarantined: bool)
      modifies this
      ensures file == Ensured(q, net, old(file)) && file.Some?
      ensures quarantined <==> old(file).Some? && !Read(q, net, old(file).value).Accepted?
      ensures quarantine == if quarantined then old(file) else old(quarantine)
    {
      quarantined := false;
      var ok;
      if file.None? {
        DefaultIsValid(net, DEFAULT);
        ok := Save(DEFAULT);
        return;
      }
      var outcome := ParseYaml(q, net, file.value);
      if outcome.Accepted? {
        return;
      }
      var data := file.value;
      quarantined, quarantine := true, Some(data);
      var parsed := Parse(q, data);
      var broken := if parsed.Good? then parsed.progress.settings else DEFAULT;
      var safe := Salvage(net, broken);
      SalvagedIsValid(net, broken);
      ok := Save(safe);
    }
  }

  lemma ReplacementIsValid(q: Quoting, net: Addresses, file: Option<string>)
    ensures var c := Replacement(q, net, file); c.Some? ==> Valid(net, c.value)
  {
    DefaultIsValid(net, DEFAULT);
    match file
    case None =>
    case Some(data) =>
      match Taken(Reading(q), Pieces(data, '\n'))
      case Failed(_) => SalvagedIsValid(net, DEFAULT);
      case Good(p) => SalvagedIsValid(net, p.settings);
  }

  /** What start-up writes, if it writes, fits the scanner. */
  ghost predicate Short(q: Quoting, net: Addresses, file: Option<string>) {
    match Replacement(q, net, file)
    case None => true
    case Some(c) => InLimit(LinesOf(q, c))
  }

  lemma WrittenLoadsIfShort(q: Quoting, net: Addresses, c: Settings)
    requires Faithful(q) && Lawful(net)
    ensures Valid(net, c) ==>
              var text := MarshalYaml(q, net, c);
              && text.Some?
              && (InLimit(LinesOf(q, c)) ==> Read(q, net, text.value) == Accepted(c, []))
              && (Read(q, net, text.value).Accepted? <==> InLimit(LinesOf(q, c)))
              && (Taken(Reading(q), Pieces(text.value, '\n')).Good? <==> InLimit(LinesOf(q, c)))
  {
    if Valid(net, c) {
      ValidIsSane(net, c);
      WrittenIsTaken(q, c);
      RoundTrip(q, net, c);
    }
  }

  /** Whatever was on the disk, what start-up leaves loads - as exactly what was
      salvaged, if anything had to be, and start-up leaves that alone from then on -
      if and only if no line of what it writes is too long. If one is, the next
      start-up cannot read its own file and goes back to the defaults. */
  lemma StartUpLeavesALoadableFile(q: Quoting, net: Addresses, file: Option<string>)
    requires Faithful(q) && Lawful(net)
    ensures var after, c := Ensured(q, net, file), Replacement(q, net, file);
            && after.Some?
            && (Read(q, net, after.value).Accepted? <==> Short(q, net, file))
            && (Short(q, net, file) ==> Ensured(q, net, after) == after)
            && (Short(q, net, file) && c.Some? ==> Read(q, net, after.value) == Accepted(c.value, []))
            && (!Short(q, net, file) ==> Replacement(q, net, after) == Some(DEFAULT))
  {
    ReplacementIsValid(q, net, file);
    match Replacement(q, net, file)
    case None =>
    case Some(c) =>
      WrittenLoadsIfShort(q, net, c);
      DefaultIsSalvaged(net, DEFAULT);
  }

  lemma DefaultIsSalvaged(net: Addresses, c: Settings)
    requires c == DEFAULT
    ensures Salvaged(net, c) == c
  {
    DefaultIsValid(net, c);
  }

  // A file that is within the limit and salvages into one that is not: two lines of
  // servers, which are read into one list, and a setting that is not usable.

  lemma {:induction false} JoinOfBoth(a: seq<string>, b: seq<string>)
    requires a != [] && b != []
    ensures |Join(a + b, ",")| == |Join(a, ",")| + 1 + |Join(b, ",")|
  {
    assert (a + b)[1..] == a[1..] + b;
    if |a| > 1 { JoinOfBoth(a[1..], b); }
  }

  predicate ListChars(s: string) { forall i | 0 <= i < |s| :: AddressChar(s[i]) || s[i] == ',' }

  lemma {:induction false} JoinChars(net: Addresses, servers: seq<string>)
    requires Lawful(net) && forall i | 0 <= i < |servers| :: net.isIP(servers[i])
    ensures ListChars(Join(servers, ","))
  {
    if servers != [] {
      assert net.isIP(servers[0]);
      JoinChars(net, servers[1..]);
    }
  }

  lemma {:induction false} NoCommentInList(list: string)
    requires ListChars(list)
    ensures BeforeComment(list) == list
  {
    if list != "" { NoCommentInList(list[1..]); }
  }

  lemma ListIsAWord(q: Quoting, list: string)
    requires ListChars(list) && list != ""
    ensures Solid(list) && '\n' !in list && WordOf(q, list) == Some(list)
  {
    NoCommentInList(list);
    TrimKeeps(list, IsSpace);
  }

  lemma ListValue(q: Quoting, list: string, items: seq<string>)
    requires WordOf(q, list) == Some(list) && Items(list) == items
    ensures ValueOf(q, list, AList) == Some(Words(items))
  {}

  lemma ListIsRead(q: Quoting, net: Addresses, servers: seq<string>, list: string)
    requires Lawful(net) && forall i | 0 <= i < |servers| :: net.isIP(servers[i])
    requires list == Join(servers, ",") && list != ""
    ensures Solid(list) && '\n' !in list && ValueOf(q, list, AList) == Some(Words(servers))
  {
    JoinChars(net, servers);
    ListIsAWord(q, list);
    ValidServers(net, servers);
    ItemsOfJoin(servers);
    ListValue(q, list, servers);
  }

  lemma {:induction false} FieldIsWritten(write: Field -> string, fields: seq<Field>, f: Field)
    requires f in fields
    ensures write(f) in FieldLines(write, fields)
  {
    var before, last := fields[..|fields| - 1], fields[|fields| - 1];
    assert fields == before + [last];
    if f in before { FieldIsWritten(write, before, f); }
  }

  lemma {:induction false} SettingIsWritten(write: Field -> string, sections: seq<Section>, s: Section, f: Field)
    requires s in sections && f in FieldsOf(s)
    ensures write(f) in FileLines(write, sections)
  {
    var before, last := sections[..|sections| - 1], sections[|sections| - 1];
    assert sections == before + [last];
    if s in before {
      SettingIsWritten(write, before, s, f);
    } else {
      FieldIsWritten(write, FieldsOf(s), f);
    }
  }

  lemma LongListIsNotShort(q: Quoting, c: Settings)
    requires |q.quote(Join(c.network.dns, ","))| > MAX_LINE
    ensures !InLimit(LinesOf(q, c))
  {
    var write: Field -> string := f => KeyLine(q, c, f);
    EverySettingIsListed(NetworkSection, DNS);
    assert NetworkSection == SECTIONS[4];
    SettingIsWritten(write, SECTIONS, NetworkSection, DNS);
    assert write(DNS) in LinesOf(q, c) && |write(DNS)| > MAX_LINE;
  }

  const FPS := InCamera(Fps)

  predicate WritesSetting(line: string, f: Field, shown: string) { line == "  " + KeyOf(f) + ": " + shown }

  lemma LineOfSetting(q: Quoting, line: string, f: Field, shown: string, v: Value)
    requires WritesSetting(line, f, shown)
    requires Solid(shown) && Fits(v, KindOf(f)) && ValueOf(q, shown, KindOf(f)) == Some(v)
    ensures Reading(q)(Within(SectionOf(f)), line) == Assign(Pair(f, v))
  {
    KeysAreFound(f);
    PlainIsSolid(KeyOf(f));
    KeyLineShape(line, KeyOf(f), shown);
  }

  lemma NoPictures(q: Quoting, none: string)
    requires none == Itoa(0)
    ensures Solid(none) && ValueOf(q, none, ANumber) == Some(Number(0))
  {
    AtoiItoa(0);
  }

  lemma FiveLines(read: Reader, h1: string, s1: Section, a: string, set1: Setting, h2: string, s2: Section, b: string, set2: Setting)
    requires InLimit([] + [h1] + [a] + [a] + [h2] + [b])
    requires read(Nowhere, h1).Enter? && read(Nowhere, h1).section == Some(s1) && read(Within(s1), a) == Assign(set1)
    requires read(Within(s1), h2).Enter? && read(Within(s1), h2).section == Some(s2) && read(Within(s2), b) == Assign(set2)
    ensures Taken(read, [] + [h1] + [a] + [a] + [h2] + [b])
            == Good(Progress(Put(Put(Put(DEFAULT, set1.field, set1.value), set1.field, set1.value), set2.field, set2.value),
                             Within(s2), []))
  {
    var lines := [] + [h1] + [a] + [a] + [h2] + [b];
    assert lines[0] == h1 && lines[1] == a && lines[2] == a && lines[3] == h2 && lines[4] == b;
    TakenOneMore(read, [], h1);
    TakenOneMore(read, [] + [h1], a);
    TakenOneMore(read, [] + [h1] + [a], a);
    TakenOneMore(read, [] + [h1] + [a] + [a], h2);
    TakenOneMore(read, [] + [h1] + [a] + [a] + [h2], b);
  }

  /** What the file says: the servers twice over, and no pictures. */
  function Twice(servers: seq<string>): Settings {
    DEFAULT.(network := DEFAULT_NETWORK.(dns := servers + servers), camera := DEFAULT_CAMERA.(fps := 0))
  }

  lemma PutTwice(servers: seq<string>)
    ensures Put(Put(Put(DEFAULT, DNS, Words(servers)), DNS, Words(servers)), FPS, Number(0)) == Twice(servers)
  {
    assert [] + servers + servers == servers + servers;
  }

  lemma FieldTwiceIsTaken(q: Quoting, h1: string, f1: Field, a: string, v1: string, x1: Value,
                          h2: string, f2: Field, b: string, v2: string, x2: Value)
    requires h1 == Heading(SectionOf(f1)) && WritesSetting(a, f1, v1)
    requires h2 == Heading(SectionOf(f2)) && WritesSetting(b, f2, v2)
    requires Solid(v1) && Fits(x1, KindOf(f1)) && ValueOf(q, v1, KindOf(f1)) == Some(x1)
    requires Solid(v2) && Fits(x2, KindOf(f2)) && ValueOf(q, v2, KindOf(f2)) == Some(x2)
    requires InLimit([] + [h1] + [a] + [a] + [h2] + [b])
    ensures Taken(Reading(q), [] + [h1] + [a] + [a] + [h2] + [b])
            == Good(Progress(Put(Put(Put(DEFAULT, f1, x1), f1, x1), f2, x2), Within(SectionOf(f2)), []))
  {
    HeadingMeans(q, Nowhere, SectionOf(f1));
    HeadingMeans(q, Within(SectionOf(f1)), SectionOf(f2));
    LineOfSetting(q, a, f1, v1, x1);
    LineOfSetting(q, b, f2, v2, x2);
    FiveLines(Reading(q), h1, SectionOf(f1), a, Pair(f1, x1), h2, SectionOf(f2), b, Pair(f2, x2));
  }

  lemma ShortLines(h1: string, a: string, h2: string, b: string)
    requires |h1| <= MAX_LINE && |a| <= MAX_LINE && |h2| <= MAX_LINE && |b| <= MAX_LINE
    requires '\n' !in h1 && '\n' !in a && '\n' !in h2 && '\n' !in b
    ensures InLimit([] + [h1] + [a] + [a] + [h2] + [b])
    ensures Pieces(Terminated([] + [h1] + [a] + [a] + [h2] + [b], '\n'), '\n') == [] + [h1] + [a] + [a] + [h2] + [b]
  {
    PiecesTerminated([] + [h1] + [a] + [a] + [h2] + [b], '\n');
  }

  lemma SettingLineIsShort(line: string, f: Field, shown: string)
    requires WritesSetting(line, f, shown) && '\n' !in shown
    ensures '\n' !in line && |line| == |KeyOf(f)| + |shown| + 4
  {
    KeysAreFound(f);
    PlainIsSolid(KeyOf(f));
  }

  lemma FieldTwiceFile(q: Quoting, f1: Field, v1: string, x1: Value, f2: Field, v2: string, x2: Value) returns (file: string)
    requires Solid(v1) && Fits(x1, KindOf(f1)) && ValueOf(q, v1, KindOf(f1)) == Some(x1)
    requires Solid(v2) && Fits(x2, KindOf(f2)) && ValueOf(q, v2, KindOf(f2)) == Some(x2)
    requires |KeyOf(f1)| + |v1| + 4 <= MAX_LINE && '\n' !in v1
    requires |KeyOf(f2)| + |v2| + 4 <= MAX_LINE && '\n' !in v2
    ensures InLimit(Pieces(file, '\n'))
    ensures Taken(Reading(q), Pieces(file, '\n'))
            == Good(Progress(Put(Put(Put(DEFAULT, f1, x1), f1, x1), f2, x2), Within(SectionOf(f2)), []))
  {
    var h1, h2 := Heading(SectionOf(f1)), Heading(SectionOf(f2));
    var a, b := "  " + KeyOf(f1) + ": " + v1, "  " + KeyOf(f2) + ": " + v2;
    file := Terminated([] + [h1] + [a] + [a] + [h2] + [b], '\n');
    HeadingMeans(q, Nowhere, SectionOf(f1));
    HeadingMeans(q, Nowhere, SectionOf(f2));
    SettingLineIsShort(a, f1, v1);
    SettingLineIsShort(b, f2, v2);
    ShortLines(h1, a, h2, b);
    FieldTwiceIsTaken(q, h1, f1, a, v1, x1, h2, f2, b, v2, x2);
  }

  lemma DnsAndFps()
    ensures |KeyOf(DNS)| == 3 && KindOf(DNS) == AList && SectionOf(DNS) == NetworkSection
    ensures |KeyOf(FPS)| == 3 && KindOf(FPS) == ANumber && SectionOf(FPS) == CameraSection
  {}

  lemma ListTwiceFile(q: Quoting, f1: Field, list: string, items: seq<string>, f2: Field, none: string) returns (file: string)
    requires |KeyOf(f1)| == |KeyOf(f2)| == 3 && KindOf(f1) == AList && KindOf(f2) == ANumber
    requires Solid(list) && '\n' !in list && |list| <= MAX_LINE - 7 && ValueOf(q, list, AList) == Some(Words(items))
    requires Solid(none) && '\n' !in none && |none| == 1 && ValueOf(q, none, ANumber) == Some(Number(0))
    ensures InLimit(Pieces(file, '\n'))
    ensures Taken(Reading(q), Pieces(file, '\n'))
            == Good(Progress(Put(Put(Put(DEFAULT, f1, Words(items)), f1, Words(items)), f2, Number(0)), Within(SectionOf(f2)), []))
  {
    file := FieldTwiceFile(q, f1, list, Words(items), f2, none, Number(0));
  }

  lemma TwoListsFile(q: Quoting, net: Addresses, servers: seq<string>, list: string) returns (file: string)
    requires Lawful(net) && forall i | 0 <= i < |servers| :: net.isIP(servers[i])
    requires list == Join(servers, ",") && 0 < |list| <= MAX_LINE - 7
    ensures InLimit(Pieces(file, '\n'))
    ensures Taken(Reading(q), Pieces(file, '\n')) == Good(Progress(Twice(servers), Within(CameraSection), []))
  {
    ListIsRead(q, net, servers, list);
    NoPictures(q, Itoa(0));
    DnsAndFps();
    file := ListTwiceFile(q, DNS, list, servers, FPS, Itoa(0));
    PutTwice(servers);
  }

  lemma SalvagedReplaces(q: Quoting, net: Addresses, file: string, p: Progress)
    requires Taken(Reading(q), Pieces(file, '\n')) == Good(p)
    ensures !Valid(net, p.settings) ==> Replacement(q, net, Some(file)) == Some(Salvaged(net, p.settings))
  {}

  lemma TwiceIsSalvaged(net: Addresses, servers: seq<string>)
    requires forall i | 0 <= i < |servers| :: net.isIP(servers[i])
    ensures !Valid(net, Twice(servers)) && Salvaged(net, Twice(servers)).network.dns == servers + servers
    ensures Twice(servers).network.dns == servers + servers
  {
    var both := servers + servers;
    assert forall i | 0 <= i < |both| :: both[i] == servers[if i < |servers| then i else i - |servers|];
    assert ValidNetwork(net, Twice(servers).network);
  }

  /** It happens to files every line of which is within the limit: two lists of
      servers that are each longer than half of it, and a setting that is not
      usable. Start-up writes what it cannot read, and the one after that gives up
      everything that was kept. */
  lemma LongListsAreLost(q: Quoting, net: Addresses, servers: seq<string>) returns (file: string)
    requires Faithful(q) && Lawful(net) && forall i | 0 <= i < |servers| :: net.isIP(servers[i])
    requires var list := Join(servers, ","); MAX_LINE / 2 < |list| <= MAX_LINE - 7
    requires var both := Join(servers + servers, ","); |q.quote(both)| >= |both|
    ensures InLimit(Pieces(file, '\n')) && !Short(q, net, Some(file))
    ensures var c := Replacement(q, net, Some(file)); c.Some? && c.value.network.dns == servers + servers
    ensures Replacement(q, net, Ensured(q, net, Some(file))) == Some(DEFAULT)
  {
    file := TwoListsFile(q, net, servers, Join(servers, ","));
    TwiceIsSalvaged(net, servers);
    NotShortAfterSalvage(q, net, file, Progress(Twice(servers), Within(CameraSection), []), servers);
    StartUpLeavesALoadableFile(q, net, Some(file));
  }

  lemma NotShortAfterSalvage(q: Quoting, net: Addresses, file: string, p: Progress, servers: seq<string>)
    requires Taken(Reading(q), Pieces(file, '\n')) == Good(p) && !Valid(net, p.settings)
    requires Salvaged(net, p.settings).network.dns == servers + servers
    requires MAX_LINE / 2 < |Join(servers, ",")|
    requires var both := Join(servers + servers, ","); |q.quote(both)| >= |both|
    ensures !Short(q, net, Some(file))
    ensures var c := Replacement(q, net, Some(file)); c.Some? && c.value.network.dns == servers + servers
  {
    SalvagedReplaces(q, net, file, p);
    JoinOfBoth(servers, servers);
    LongListIsNotShort(q, Salvaged(net, p.settings));
  }
}
