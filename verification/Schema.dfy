/** The settings by name: the sections of the file, the keys in them, and what
    kind of value each takes. */
module Schema {
  import opened Text
  import opened Config

  datatype Section = SystemSection | GrblSection | CameraSection | SshSection | NetworkSection | WifiSection

  datatype SystemKey = Hostname | SetupComplete | UsbAutosuspend
  datatype GrblKey = Backend | GrblDevice | Baudrate | GrblPort | MaxConnections | Reconnect | KickOldUser |
                     OnDisconnect | MonitorPort | StationaryBeamSeconds
  datatype CameraKey = CameraDevice | Format | Resolution | Fps | CameraPort | Quality
  datatype SshKey = SshEnabled | PasswordAuthentication
  datatype NetworkKey = Mode | Address | Gateway | Dns
  datatype WifiKey = WifiEnabled | Ssid | Psk | Country | Hidden

  datatype Field = InSystem(s: SystemKey) | InGrbl(g: GrblKey) | InCamera(c: CameraKey) | InSsh(h: SshKey) |
                   InNetwork(n: NetworkKey) | InWifi(w: WifiKey)

  const DNS := InNetwork(Dns)

  function SectionOf(f: Field): Section {
    match f
    case InSystem(_) => SystemSection
    case InGrbl(_) => GrblSection
    case InCamera(_) => CameraSection
    case InSsh(_) => SshSection
    case InNetwork(_) => NetworkSection
    case InWifi(_) => WifiSection
  }

  const SECTIONS := [SystemSection, GrblSection, CameraSection, SshSection, NetworkSection, WifiSection]

  /** The keys of a section in the order in which they are written. */
  function FieldsOf(s: Section): seq<Field> {
    match s
    case SystemSection => [InSystem(Hostname), InSystem(SetupComplete), InSystem(UsbAutosuspend)]
    case GrblSection =>
      [InGrbl(Backend), InGrbl(GrblDevice), InGrbl(Baudrate), InGrbl(GrblPort), InGrbl(MaxConnections),
       InGrbl(Reconnect), InGrbl(KickOldUser), InGrbl(OnDisconnect), InGrbl(MonitorPort), InGrbl(StationaryBeamSeconds)]
    case CameraSection =>
      [InCamera(CameraDevice), InCamera(Format), InCamera(Resolution), InCamera(Fps), InCamera(CameraPort), InCamera(Quality)]
    case SshSection => [InSsh(SshEnabled), InSsh(PasswordAuthentication)]
    case NetworkSection => [InNetwork(Mode), InNetwork(Address), InNetwork(Gateway), DNS]
    case WifiSection => [InWifi(WifiEnabled), InWifi(Ssid), InWifi(Psk), InWifi(Country), InWifi(Hidden)]
  }

  // Names.

  function SectionName(s: Section): string {
    match s
    case SystemSection => "system"
    case GrblSection => "grbl"
    case CameraSection => "camera"
    case SshSection => "ssh"
    case NetworkSection => "network"
    case WifiSection => "wifi"
  }

  function SectionNamed(name: string): Option<Section> {
    if name == "system" then Some(SystemSection)
    else if name == "grbl" then Some(GrblSection)
    else if name == "camera" then Some(CameraSection)
    else if name == "ssh" then Some(SshSection)
    else if name == "network" then Some(NetworkSection)
    else if name == "wifi" then Some(WifiSection)
    else None
  }

  function SystemKeyName(k: SystemKey): string {
    match k
    case Hostname => "hostname"
    case SetupComplete => "setup_complete"
    case UsbAutosuspend => "usb_autosuspend"
  }

  function SystemKeyNamed(name: string): Option<SystemKey> {
    if name == "hostname" then Some(Hostname)
    else if name == "setup_complete" then Some(SetupComplete)
    else if name == "usb_autosuspend" then Some(UsbAutosuspend)
    else None
  }

  function GrblKeyName(k: GrblKey): string {
    match k
    case Backend => "backend"
    case GrblDevice => "device"
    case Baudrate => "baudrate"
    case GrblPort => "port"
    case MaxConnections => "max_connections"
    case Reconnect => "reconnect"
    case KickOldUser => "kick_old_user"
    case OnDisconnect => "on_disconnect"
    case MonitorPort => "monitor_port"
    case StationaryBeamSeconds => "stationary_beam_seconds"
  }

  function GrblKeyNamed(name: string): Option<GrblKey> {
    if name == "backend" then Some(Backend)
    else if name == "device" then Some(GrblDevice)
    else if name == "baudrate" then Some(Baudrate)
    else if name == "port" then Some(GrblPort)
    else if name == "max_connections" then Some(MaxConnections)
    else if name == "reconnect" then Some(Reconnect)
    else if name == "kick_old_user" then Some(KickOldUser)
    else if name == "on_disconnect" then Some(OnDisconnect)
    else if name == "monitor_port" then Some(MonitorPort)
    else if name == "stationary_beam_seconds" then Some(StationaryBeamSeconds)
    else None
  }

  function CameraKeyName(k: CameraKey): string {
    match k
    case CameraDevice => "device"
    case Format => "format"
    case Resolution => "resolution"
    case Fps => "fps"
    case CameraPort => "port"
    case Quality => "quality"
  }

  function CameraKeyNamed(name: string): Option<CameraKey> {
    if name == "device" then Some(CameraDevice)
    else if name == "format" then Some(Format)
    else if name == "resolution" then Some(Resolution)
    else if name == "fps" then Some(Fps)
    else if name == "port" then Some(CameraPort)
    else if name == "quality" then Some(Quality)
    else None
  }

  function SshKeyName(k: SshKey): string {
    match k
    case SshEnabled => "enabled"
    case PasswordAuthentication => "password_authentication"
  }

  function SshKeyNamed(name: string): Option<SshKey> {
    if name == "enabled" then Some(SshEnabled)
    else if name == "password_authentication" then Some(PasswordAuthentication)
    else None
  }

  function NetworkKeyName(k: NetworkKey): string {
    match k
    case Mode => "mode"
    case Address => "address"
    case Gateway => "gateway"
    case Dns => "dns"
  }

  function NetworkKeyNamed(name: string): Option<NetworkKey> {
    if name == "mode" then Some(Mode)
    else if name == "address" then Some(Address)
    else if name == "gateway" then Some(Gateway)
    else if name == "dns" then Some(Dns)
    else None
  }

  function WifiKeyName(k: WifiKey): string {
    match k
    case WifiEnabled => "enabled"
    case Ssid => "ssid"
    case Psk => "psk"
    case Country => "country"
    case Hidden => "hidden"
  }

  function WifiKeyNamed(name: string): Option<WifiKey> {
    if name == "enabled" then Some(WifiEnabled)
    else if name == "ssid" then Some(Ssid)
    else if name == "psk" then Some(Psk)
    else if name == "country" then Some(Country)
    else if name == "hidden" then Some(Hidden)
    else None
  }

  function KeyOf(f: Field): string {
    match f
    case InSystem(k) => SystemKeyName(k)
    case InGrbl(k) => GrblKeyName(k)
    case InCamera(k) => CameraKeyName(k)
    case InSsh(k) => SshKeyName(k)
    case InNetwork(k) => NetworkKeyName(k)
    case InWifi(k) => WifiKeyName(k)
  }

  function Map<A, B>(o: Option<A>, f: A -> B): Option<B> {
    if o.Some? then Some(f(o.value)) else None
  }

  function FieldNamed(s: Section, key: string): Option<Field> {
    match s
    case SystemSection => Map(SystemKeyNamed(key), k => InSystem(k))
    case GrblSection => Map(GrblKeyNamed(key), k => InGrbl(k))
    case CameraSection => Map(CameraKeyNamed(key), k => InCamera(k))
    case SshSection => Map(SshKeyNamed(key), k => InSsh(k))
    case NetworkSection => Map(NetworkKeyNamed(key), k => InNetwork(k))
    case WifiSection => Map(WifiKeyNamed(key), k => InWifi(k))
  }

  // Values.

  datatype Value = Word(text: string) | Number(n: int) | Flag(on: bool) | Words(items: seq<string>)

  datatype Kind = AWord | ANumber | AFlag | AList

  function KindOf(f: Field): Kind {
    match f
    case InSystem(k) =>
      (match k
       case Hostname => AWord
       case SetupComplete => AFlag
       case UsbAutosuspend => ANumber)
    case InGrbl(k) =>
      (match k
       case Backend | GrblDevice | OnDisconnect => AWord
       case Reconnect | KickOldUser => AFlag
       case _ => ANumber)
    case InCamera(k) =>
      (match k
       case CameraDevice | Format | Resolution => AWord
       case _ => ANumber)
    case InSsh(_) => AFlag
    case InNetwork(k) => if k == Dns then AList else AWord
    case InWifi(k) =>
      (match k
       case WifiEnabled | Hidden => AFlag
       case _ => AWord)
  }

  predicate Fits(v: Value, kind: Kind) {
    match kind
    case AWord => v.Word?
    case ANumber => v.Number?
    case AFlag => v.Flag?
    case AList => v.Words?
  }

  function Get(c: Settings, f: Field): (v: Value)
    ensures Fits(v, KindOf(f))
  {
    match f
    case InSystem(k) =>
      (match k
       case Hostname => Word(c.system.hostname)
       case SetupComplete => Flag(c.system.setupComplete)
       case UsbAutosuspend => Number(c.system.usbAutosuspend))
    case InGrbl(k) => GetGrbl(c.grbl, k)
    case InCamera(k) => GetCamera(c.camera, k)
    case InSsh(k) => Flag(if k == SshEnabled then c.ssh.enabled else c.ssh.passwordAuthentication)
    case InNetwork(k) =>
      (match k
       case Mode => Word(c.network.mode)
       case Address => Word(c.network.address)
       case Gateway => Word(c.network.gateway)
       case Dns => Words(c.network.dns))
    case InWifi(k) => GetWifi(c.wifi, k)
  }

  function GetGrbl(g: Config.Grbl, k: GrblKey): (v: Value)
    ensures Fits(v, KindOf(InGrbl(k)))
  {
    match k
    case Backend => Word(g.backend)
    case GrblDevice => Word(g.device)
    case Baudrate => Number(g.baudrate)
    case GrblPort => Number(g.port)
    case MaxConnections => Number(g.maxConnections)
    case Reconnect => Flag(g.reconnect)
    case KickOldUser => Flag(g.kickOldUser)
    case OnDisconnect => Word(g.onDisconnect)
    case MonitorPort => Number(g.monitorPort)
    case StationaryBeamSeconds => Number(g.stationaryBeamSeconds)
  }

  function GetCamera(c: Camera, k: CameraKey): (v: Value)
    ensures Fits(v, KindOf(InCamera(k)))
  {
    match k
    case CameraDevice => Word(c.device)
    case Format => Word(c.format)
    case Resolution => Word(c.resolution)
    case Fps => Number(c.fps)
    case CameraPort => Number(c.port)
    case Quality => Number(c.quality)
  }

  function GetWifi(w: Wifi, k: WifiKey): (v: Value)
    ensures Fits(v, KindOf(InWifi(k)))
  {
    match k
    case WifiEnabled => Flag(w.enabled)
    case Ssid => Word(w.ssid)
    case Psk => Word(w.psk)
    case Country => Word(w.country)
    case Hidden => Flag(w.hidden)
  }

  function PutGrbl(g: Config.Grbl, k: GrblKey, v: Value): Config.Grbl
    requires Fits(v, KindOf(InGrbl(k)))
  {
    match k
    case Backend => g.(backend := v.text)
    case GrblDevice => g.(device := v.text)
    case Baudrate => g.(baudrate := v.n)
    case GrblPort => g.(port := v.n)
    case MaxConnections => g.(maxConnections := v.n)
    case Reconnect => g.(reconnect := v.on)
    case KickOldUser => g.(kickOldUser := v.on)
    case OnDisconnect => g.(onDisconnect := v.text)
    case MonitorPort => g.(monitorPort := v.n)
    case StationaryBeamSeconds => g.(stationaryBeamSeconds := v.n)
  }

  function PutCamera(c: Camera, k: CameraKey, v: Value): Camera
    requires Fits(v, KindOf(InCamera(k)))
  {
    match k
    case CameraDevice => c.(device := v.text)
    case Format => c.(format := v.text)
    case Resolution => c.(resolution := v.text)
    case Fps => c.(fps := v.n)
    case CameraPort => c.(port := v.n)
    case Quality => c.(quality := v.n)
  }

  function PutNetwork(n: Network, k: NetworkKey, v: Value): Network
    requires Fits(v, KindOf(InNetwork(k)))
  {
    match k
    case Mode => n.(mode := v.text)
    case Address => n.(address := v.text)
    case Gateway => n.(gateway := v.text)
    // A list is added to, so two lines of servers are all of them.
    case Dns => n.(dns := n.dns + v.items)
  }

  function PutWifi(w: Wifi, k: WifiKey, v: Value): Wifi
    requires Fits(v, KindOf(InWifi(k)))
  {
    match k
    case WifiEnabled => w.(enabled := v.on)
    case Ssid => w.(ssid := v.text)
    case Psk => w.(psk := v.text)
    case Country => w.(country := v.text)
    case Hidden => w.(hidden := v.on)
  }

  /** One setting read from the file. */
  function Put(c: Settings, f: Field, v: Value): Settings
    requires Fits(v, KindOf(f))
  {
    match f
    case InSystem(k) =>
      c.(system := match k
                   case Hostname => c.system.(hostname := v.text)
                   case SetupComplete => c.system.(setupComplete := v.on)
                   case UsbAutosuspend => c.system.(usbAutosuspend := v.n))
    case InGrbl(k) => c.(grbl := PutGrbl(c.grbl, k, v))
    case InCamera(k) => c.(camera := PutCamera(c.camera, k, v))
    case InSsh(k) => c.(ssh := if k == SshEnabled then c.ssh.(enabled := v.on) else c.ssh.(passwordAuthentication := v.on))
    case InNetwork(k) => c.(network := PutNetwork(c.network, k, v))
    case InWifi(k) => c.(wifi := PutWifi(c.wifi, k, v))
  }

  lemma GrblFieldsApart(g: Config.Grbl, k: GrblKey, v: Value, other: GrblKey)
    requires Fits(v, KindOf(InGrbl(k)))
    ensures GetGrbl(PutGrbl(g, k, v), other) == if other == k then v else GetGrbl(g, other)
  {}

  /** A setting changes itself and no other; the list of servers grows. */
  lemma FieldsApart(c: Settings, f: Field, v: Value, other: Field)
    requires Fits(v, KindOf(f))
    ensures Get(Put(c, f, v), other)
            == if other != f then Get(c, other) else if f == DNS then Words(c.network.dns + v.items) else v
  {
    if f.InGrbl? && other.InGrbl? { GrblFieldsApart(c.grbl, f.g, v, other.g); }
  }

  ghost predicate Agree(a: Settings, b: Settings, f: Field) { Get(a, f) == Get(b, f) }

  /** Settings are what their fields are. */
  lemma SameFields(a: Settings, b: Settings)
    requires forall f: Field :: Agree(a, b, f)
    ensures a == b
  {
    assert a.system == b.system by {
      assert Agree(a, b, InSystem(Hostname)) && Agree(a, b, InSystem(SetupComplete)) && Agree(a, b, InSystem(UsbAutosuspend));
    }
    assert a.grbl == b.grbl by { SameGrbl(a, b); }
    assert a.camera == b.camera by {
      assert Agree(a, b, InCamera(CameraDevice)) && Agree(a, b, InCamera(Format)) && Agree(a, b, InCamera(Resolution));
      assert Agree(a, b, InCamera(Fps)) && Agree(a, b, InCamera(CameraPort)) && Agree(a, b, InCamera(Quality));
    }
    assert a.ssh == b.ssh by {
      assert Agree(a, b, InSsh(SshEnabled)) && Agree(a, b, InSsh(PasswordAuthentication));
    }
    assert a.network == b.network by {
      assert Agree(a, b, InNetwork(Mode)) && Agree(a, b, InNetwork(Address));
      assert Agree(a, b, InNetwork(Gateway)) && Agree(a, b, DNS);
    }
    assert a.wifi == b.wifi by {
      assert Agree(a, b, InWifi(WifiEnabled)) && Agree(a, b, InWifi(Ssid)) && Agree(a, b, InWifi(Psk));
      assert Agree(a, b, InWifi(Country)) && Agree(a, b, InWifi(Hidden));
    }
  }

  lemma SameGrbl(a: Settings, b: Settings)
    requires forall f: Field :: Agree(a, b, f)
    ensures a.grbl == b.grbl
  {
    assert Agree(a, b, InGrbl(Backend)) && Agree(a, b, InGrbl(GrblDevice)) && Agree(a, b, InGrbl(Baudrate));
    assert Agree(a, b, InGrbl(GrblPort)) && Agree(a, b, InGrbl(MaxConnections)) && Agree(a, b, InGrbl(Reconnect));
    assert Agree(a, b, InGrbl(KickOldUser)) && Agree(a, b, InGrbl(OnDisconnect)) && Agree(a, b, InGrbl(MonitorPort));
    assert Agree(a, b, InGrbl(StationaryBeamSeconds));
  }

  // What is written is what is looked for.

  /** A key that survives being cut out of a line: lower-case letters and
      underscores. */
  predicate Plain(key: string) {
    key != "" && forall i | 0 <= i < |key| :: 'a' <= key[i] <= 'z' || key[i] == '_'
  }

  lemma SystemKeys(k: SystemKey)
    ensures Plain(SystemKeyName(k)) && SystemKeyNamed(SystemKeyName(k)) == Some(k)
  {
    match k
    case Hostname => case SetupComplete => case UsbAutosuspend =>
  }

  lemma GrblKeys(k: GrblKey)
    ensures GrblKeyNamed(GrblKeyName(k)) == Some(k)
  {
    match k
    case Backend => case GrblDevice => case Baudrate => case GrblPort => case MaxConnections =>
    case Reconnect => case KickOldUser => case OnDisconnect => case MonitorPort => case StationaryBeamSeconds =>
  }

  lemma GrblKeysPlain(k: GrblKey)
    ensures Plain(GrblKeyName(k))
  {}

  lemma CameraKeys(k: CameraKey)
    ensures Plain(CameraKeyName(k)) && CameraKeyNamed(CameraKeyName(k)) == Some(k)
  {}

  lemma SshKeys(k: SshKey)
    ensures Plain(SshKeyName(k)) && SshKeyNamed(SshKeyName(k)) == Some(k)
  {}

  lemma NetworkKeys(k: NetworkKey)
    ensures Plain(NetworkKeyName(k)) && NetworkKeyNamed(NetworkKeyName(k)) == Some(k)
  {}

  lemma WifiKeys(k: WifiKey)
    ensures Plain(WifiKeyName(k)) && WifiKeyNamed(WifiKeyName(k)) == Some(k)
  {}

  /** Every key is found again under its name, in its section. */
  lemma KeysAreFound(f: Field)
    ensures Plain(KeyOf(f)) && FieldNamed(SectionOf(f), KeyOf(f)) == Some(f)
  {
    match f
    case InSystem(k) => SystemKeys(k);
    case InGrbl(k) => GrblKeys(k); GrblKeysPlain(k);
    case InCamera(k) => CameraKeys(k);
    case InSsh(k) => SshKeys(k);
    case InNetwork(k) => NetworkKeys(k);
    case InWifi(k) => WifiKeys(k);
  }

  lemma SectionsAreFound(s: Section)
    ensures Plain(SectionName(s)) && SectionNamed(SectionName(s)) == Some(s)
  {}

  /** Every setting is listed under its section, and the list of servers last. */
  lemma EverySettingIsListed(s: Section, f: Field)
    ensures f in FieldsOf(s) <==> SectionOf(f) == s
  {
    if SectionOf(f) == s {
      var fields := FieldsOf(s);
      match f
      case InSystem(k) =>
        assert f == fields[match k case Hostname => 0 case SetupComplete => 1 case UsbAutosuspend => 2];
      case InGrbl(k) =>
        assert f == fields[match k case Backend => 0 case GrblDevice => 1 case Baudrate => 2 case GrblPort => 3
                           case MaxConnections => 4 case Reconnect => 5 case KickOldUser => 6 case OnDisconnect => 7
                           case MonitorPort => 8 case StationaryBeamSeconds => 9];
      case InCamera(k) =>
        assert f == fields[match k case CameraDevice => 0 case Format => 1 case Resolution => 2 case Fps => 3
                           case CameraPort => 4 case Quality => 5];
      case InSsh(k) => assert f == fields[if k == SshEnabled then 0 else 1];
      case InNetwork(k) =>
        assert f == fields[match k case Mode => 0 case Address => 1 case Gateway => 2 case Dns => 3];
      case InWifi(k) =>
        assert f == fields[match k case WifiEnabled => 0 case Ssid => 1 case Psk => 2 case Country => 3 case Hidden => 4];
    } else {
      assert forall i | 0 <= i < |FieldsOf(s)| :: SectionOf(FieldsOf(s)[i]) == s;
    }
  }

  lemma ServersComeLast()
    ensures FieldsOf(NetworkSection) == FieldsOf(NetworkSection)[..3] + [DNS]
    ensures DNS !in FieldsOf(NetworkSection)[..3]
  {}

  // Settings put together again from all of their fields.

  function PutAll(c: Settings, fields: seq<Field>, t: Settings): Settings {
    if fields == [] then c
    else
      var last := fields[|fields| - 1];
      Put(PutAll(c, fields[..|fields| - 1], t), last, Get(t, last))
  }

  lemma {:induction false} PutAllGets(c: Settings, fields: seq<Field>, t: Settings, g: Field)
    requires DNS !in fields
    ensures Get(PutAll(c, fields, t), g) == if g in fields then Get(t, g) else Get(c, g)
  {
    if fields != [] {
      var before, last := fields[..|fields| - 1], fields[|fields| - 1];
      PutAllGets(c, before, t, g);
      FieldsApart(PutAll(c, before, t), last, Get(t, last), g);
      assert g in fields <==> g in before || g == last by { assert fields == before + [last]; }
    }
  }

  lemma PutSectionGets(c: Settings, s: Section, t: Settings, g: Field)
    ensures Get(PutAll(c, FieldsOf(s), t), g)
            == if SectionOf(g) != s then Get(c, g)
               else if g == DNS then Words(c.network.dns + t.network.dns)
               else Get(t, g)
  {
    EverySettingIsListed(s, g);
    EverySettingIsListed(s, DNS);
    if s == NetworkSection {
      var fields := FieldsOf(s);
      ServersComeLast();
      PutAllGets(c, fields[..3], t, g);
      PutAllGets(c, fields[..3], t, DNS);
      FieldsApart(PutAll(c, fields[..3], t), DNS, Get(t, DNS), g);
      assert fields[..|fields| - 1] == fields[..3];
    } else {
      PutAllGets(c, FieldsOf(s), t, g);
    }
  }

  function PutSections(c: Settings, sections: seq<Section>, t: Settings): Settings {
    if sections == [] then c
    else PutAll(PutSections(c, sections[..|sections| - 1], t), FieldsOf(sections[|sections| - 1]), t)
  }

  lemma {:induction false} PutSectionsGets(c: Settings, sections: seq<Section>, t: Settings, g: Field)
    requires forall i, j | 0 <= i < j < |sections| :: sections[i] != sections[j]
    ensures Get(PutSections(c, sections, t), g)
            == if SectionOf(g) !in sections then Get(c, g)
               else if g == DNS then Words(c.network.dns + t.network.dns)
               else Get(t, g)
  {
    if sections != [] {
      var before, last := sections[..|sections| - 1], sections[|sections| - 1];
      PutSectionsGets(c, before, t, g);
      PutSectionsGets(c, before, t, DNS);
      PutSectionGets(PutSections(c, before, t), last, t, g);
      assert sections == before + [last];
    }
  }

  /** Every field of some settings, read into the defaults section by section,
      gives those settings. */
  lemma AllFieldsRebuild(t: Settings)
    ensures PutSections(DEFAULT, SECTIONS, t) == t
  {
    var c := PutSections(DEFAULT, SECTIONS, t);
    forall g: Field
      ensures Agree(c, t, g)
    {
      PutSectionsGets(DEFAULT, SECTIONS, t, g);
      assert SectionOf(g) == SECTIONS[match SectionOf(g) case SystemSection => 0 case GrblSection => 1 case CameraSection => 2
                                      case SshSection => 3 case NetworkSection => 4 case WifiSection => 5];
      assert DEFAULT.network.dns + t.network.dns == t.network.dns;
    }
    SameFields(c, t);
  }
}
