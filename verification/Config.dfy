/** What the appliance can be told to be: the settings, when they are usable,
    and what is kept of settings that are not. */
module Config {
  import opened Text

  const USB_AUTOSUSPEND_OFF := -1
  const MAX_USB_AUTOSUSPEND := 3600

  datatype System = System(hostname: string, setupComplete: bool, usbAutosuspend: int)

  datatype Grbl = Grbl(
    backend: string, device: string, baudrate: int, port: int, maxConnections: int, reconnect: bool,
    kickOldUser: bool, onDisconnect: string, monitorPort: int, stationaryBeamSeconds: int)

  datatype Camera = Camera(device: string, format: string, resolution: string, fps: int, port: int, quality: int)

  datatype Ssh = Ssh(enabled: bool, passwordAuthentication: bool)

  datatype Network = Network(mode: string, address: string, gateway: string, dns: seq<string>)

  datatype Wifi = Wifi(enabled: bool, ssid: string, psk: string, country: string, hidden: bool)

  datatype Settings = Settings(system: System, grbl: Grbl, camera: Camera, ssh: Ssh, network: Network, wifi: Wifi)

  const DEFAULT_SYSTEM := System("laserbridge", false, USB_AUTOSUSPEND_OFF)
  const DEFAULT_GRBL := Grbl("ser2net", "/dev/ttyUSB0", 115200, 23, 1, true, true, "reset", 0, 20)
  const DEFAULT_CAMERA := Camera("/dev/video0", "MJPEG", "1280x720", 30, 8080, 80)
  const DEFAULT_NETWORK := Network("dhcp", "", "", [])
  const DEFAULT_WIFI := Wifi(false, "", "", "DE", false)
  const DEFAULT := Settings(DEFAULT_SYSTEM, DEFAULT_GRBL, DEFAULT_CAMERA, Ssh(true, true), DEFAULT_NETWORK, DEFAULT_WIFI)

  /** Which texts net.ParseIP and net.ParseCIDR accept. */
  datatype Addresses = Addresses(isIP: string -> bool, isCIDR: string -> bool)

  predicate AddressChar(c: char) {
    '0' <= c <= '9' || 'a' <= c <= 'f' || 'A' <= c <= 'F' || c == '.' || c == ':'
  }

  /** All that is assumed of an IP address: some text made of hexadecimal digits,
      dots and colons. */
  ghost predicate Lawful(net: Addresses) {
    forall s: string | net.isIP(s) :: s != "" && forall i | 0 <= i < |s| :: AddressChar(s[i])
  }

  // When settings are usable.

  predicate Alphanumeric(c: char) { '0' <= c <= '9' || 'a' <= c <= 'z' || 'A' <= c <= 'Z' }

  predicate IsHostname(s: string) {
    && 1 <= |s| <= 63 && Alphanumeric(s[0]) && Alphanumeric(s[|s| - 1])
    && forall i | 0 <= i < |s| :: Alphanumeric(s[i]) || s[i] == '-'
  }

  predicate OneLine(s: string) { '\n' !in s && '\r' !in s && '\0' !in s }

  /** An absolute path that filepath.Clean has nothing to change about. */
  predicate CleanAbsolute(path: string) {
    path != "" && path[0] == '/' &&
    (path == "/" || forall part | part in Split(path[1..], '/') :: part != "" && part != "." && part != "..")
  }

  predicate Under(path: string, prefix: string) { prefix < path }

  predicate IsGrblDevice(path: string) {
    && CleanAbsolute(path) && OneLine(path)
    && (Under(path, "/dev/ttyUSB") || Under(path, "/dev/ttyACM") || Under(path, "/dev/serial/by-id/"))
  }

  predicate IsCameraDevice(path: string) {
    CleanAbsolute(path) && OneLine(path) && (Under(path, "/dev/video") || Under(path, "/dev/v4l/by-id/"))
  }

  predicate IsPort(port: int) { 1 <= port <= 65535 }

  predicate IsDimension(s: string) { 2 <= |s| <= 5 && AllDigits(s) && s[0] != '0' }

  predicate IsResolution(s: string) {
    var cut := Cut(s, 'x');
    cut.2 && IsDimension(cut.0) && IsDimension(cut.1)
  }

  predicate IsBaudrate(n: int) {
    n in {9600, 19200, 38400, 57600, 115200, 230400, 250000, 500000, 1000000}
  }

  predicate ValidSystem(s: System) {
    IsHostname(s.hostname) && USB_AUTOSUSPEND_OFF <= s.usbAutosuspend <= MAX_USB_AUTOSUSPEND
  }

  predicate IsBackend(s: string) { s == "ser2net" || s == "laserbridged" }

  predicate IsReaction(s: string) { s == "none" || s == "hold" || s == "reset" }

  predicate IsPause(seconds: int) { seconds == 0 || 2 <= seconds <= 600 }

  predicate ValidLink(g: Grbl) {
    IsBackend(g.backend) && IsGrblDevice(g.device) && IsBaudrate(g.baudrate) && IsPort(g.port)
  }

  predicate ValidService(g: Grbl) {
    && 1 <= g.maxConnections <= 16
    && IsReaction(g.onDisconnect)
    && IsPause(g.stationaryBeamSeconds)
    && (g.monitorPort == 0 || IsPort(g.monitorPort))
  }

  predicate ValidGrbl(g: Grbl) { ValidLink(g) && ValidService(g) }

  predicate IsFormat(s: string) { s == "MJPEG" || s == "YUYV" }

  /** Neither side is above 8192. */
  predicate IsSmall(resolution: string) {
    var cut := Cut(resolution, 'x');
    AtoiAnyway(cut.0) <= 8192 && AtoiAnyway(cut.1) <= 8192
  }

  predicate ValidPicture(c: Camera) {
    IsCameraDevice(c.device) && IsFormat(c.format) && IsResolution(c.resolution) && IsSmall(c.resolution)
  }

  predicate ValidStream(c: Camera) { 1 <= c.fps <= 120 && IsPort(c.port) && 1 <= c.quality <= 100 }

  predicate ValidCamera(c: Camera) { ValidPicture(c) && ValidStream(c) }

  /** The ports that listen, in the order in which they are claimed. Zero stands
      for a port nobody asked for. */
  function Claims(g: Grbl, c: Camera): seq<int> { [g.port, c.port, g.monitorPort] }

  /** Every listening port is its own. */
  predicate PortsApart(claims: seq<int>) {
    && (forall i | 0 <= i < |claims| :: claims[i] != 22 && claims[i] != 80)
    && (forall i, j | 0 <= i < j < |claims| :: claims[i] == claims[j] ==> claims[i] == 0)
  }

  predicate ValidNetwork(net: Addresses, n: Network) {
    && (n.mode == "dhcp" || n.mode == "static")
    && (n.mode == "static" ==> net.isCIDR(n.address) && net.isIP(n.gateway))
    && forall i | 0 <= i < |n.dns| :: net.isIP(n.dns[i])
  }

  predicate ValidWifi(w: Wifi) {
    && |w.ssid| <= 32 && OneLine(w.ssid)
    && (w.enabled ==> w.ssid != "" && 8 <= |w.psk| <= 63 && OneLine(w.psk))
    && IsCountry(w.country)
  }

  predicate Valid(net: Addresses, c: Settings) {
    && ValidSystem(c.system) && ValidGrbl(c.grbl) && ValidCamera(c.camera)
    && PortsApart(Claims(c.grbl, c.camera))
    && ValidNetwork(net, c.network) && ValidWifi(c.wifi)
  }

  // Validation.

  datatype Problem =
    | BadHostname | BadAutosuspend
    | BadBackend | BadGrblDevice | BadBaudrate | BadGrblPort | BadMaxConnections | BadOnDisconnect
    | BadStationaryBeam | BadMonitorPort
    | BadCameraDevice | BadFormat | BadResolution | HugeResolution | BadFps | BadCameraPort | BadQuality
    | Clash(claim: nat, port: int, owner: string)
    | BadMode | BadAddress | BadGateway | BadDns
    | BadSsid | MissingSsid | BadPsk | BadCountry

  method CheckSystem(s: System) returns (problems: seq<Problem>)
    ensures problems == [] <==> ValidSystem(s)
    ensures BadHostname in problems <==> !IsHostname(s.hostname)
    ensures BadAutosuspend in problems <==> !(USB_AUTOSUSPEND_OFF <= s.usbAutosuspend <= MAX_USB_AUTOSUSPEND)
  {
    problems := [];
    if !IsHostname(s.hostname) { problems := problems + [BadHostname]; }
    if s.usbAutosuspend < USB_AUTOSUSPEND_OFF || s.usbAutosuspend > MAX_USB_AUTOSUSPEND {
      problems := problems + [BadAutosuspend];
    }
  }

  method CheckLink(g: Grbl) returns (problems: seq<Problem>)
    ensures problems == [] <==> ValidLink(g)
    ensures BadBackend in problems <==> !IsBackend(g.backend)
    ensures BadGrblDevice in problems <==> !IsGrblDevice(g.device)
    ensures BadBaudrate in problems <==> !IsBaudrate(g.baudrate)
    ensures BadGrblPort in problems <==> !IsPort(g.port)
  {
    problems := [];
    if !IsBackend(g.backend) { problems := problems + [BadBackend]; }
    if !IsGrblDevice(g.device) { problems := problems + [BadGrblDevice]; }
    if !IsBaudrate(g.baudrate) { problems := problems + [BadBaudrate]; }
    if !IsPort(g.port) { problems := problems + [BadGrblPort]; }
  }

  method CheckService(g: Grbl) returns (problems: seq<Problem>)
    ensures problems == [] <==> ValidService(g)
    ensures BadMaxConnections in problems <==> !(1 <= g.maxConnections <= 16)
    ensures BadOnDisconnect in problems <==> !IsReaction(g.onDisconnect)
    ensures BadStationaryBeam in problems <==> !IsPause(g.stationaryBeamSeconds)
    ensures BadMonitorPort in problems <==> g.monitorPort != 0 && !IsPort(g.monitorPort)
  {
    problems := [];
    if g.maxConnections < 1 || g.maxConnections > 16 { problems := problems + [BadMaxConnections]; }
    if !IsReaction(g.onDisconnect) { problems := problems + [BadOnDisconnect]; }
    if !IsPause(g.stationaryBeamSeconds) { problems := problems + [BadStationaryBeam]; }
    if g.monitorPort != 0 {
      if !IsPort(g.monitorPort) { problems := problems + [BadMonitorPort]; }
    }
  }

  method CheckPicture(c: Camera) returns (problems: seq<Problem>)
    ensures problems == [] <==> ValidPicture(c)
    ensures BadCameraDevice in problems <==> !IsCameraDevice(c.device)
    ensures BadFormat in problems <==> !IsFormat(c.format)
    ensures BadResolution in problems <==> !IsResolution(c.resolution)
    ensures HugeResolution in problems <==> IsResolution(c.resolution) && !IsSmall(c.resolution)
  {
    problems := [];
    if !IsCameraDevice(c.device) { problems := problems + [BadCameraDevice]; }
    if !IsFormat(c.format) { problems := problems + [BadFormat]; }
    if !IsResolution(c.resolution) {
      problems := problems + [BadResolution];
    } else if !IsSmall(c.resolution) {
      problems := problems + [HugeResolution];
    }
  }

  method CheckStream(c: Camera) returns (problems: seq<Problem>)
    ensures problems == [] <==> ValidStream(c)
    ensures BadFps in problems <==> !(1 <= c.fps <= 120)
    ensures BadCameraPort in problems <==> !IsPort(c.port)
    ensures BadQuality in problems <==> !(1 <= c.quality <= 100)
  {
    problems := [];
    if c.fps < 1 || c.fps > 120 { problems := problems + [BadFps]; }
    if !IsPort(c.port) { problems := problems + [BadCameraPort]; }
    if c.quality < 1 || c.quality > 100 { problems := problems + [BadQuality]; }
  }

  /** The claim at k is for a port that is spoken for. */
  predicate Clashes(claims: seq<int>, k: nat)
    requires k < |claims|
  {
    claims[k] != 0 && (claims[k] == 22 || claims[k] == 80 || claims[k] in claims[..k])
  }

  method CheckClaims(claims: seq<int>, names: seq<string>) returns (problems: seq<Problem>)
    requires |claims| == |names|
    ensures problems == [] <==> PortsApart(claims)
    ensures forall k: nat | k < |claims| ::
              Clashes(claims, k) <==> exists p :: p in problems && p.Clash? && p.claim == k
  {
    problems := [];
    var taken: map<int, string> := map[22 := "SSH", 80 := "the web interface"];
    for k := 0 to |claims|
      invariant forall port :: port in taken <==> port == 22 || port == 80 || (port != 0 && port in claims[..k])
      invariant forall p | p in problems :: p.Clash? && p.claim < k && Clashes(claims, p.claim)
      invariant forall i: nat | i < k && Clashes(claims, i) :: exists p :: p in problems && p.Clash? && p.claim == i
    {
      assert claims[..k + 1] == claims[..k] + [claims[k]];
      if claims[k] == 0 { continue; }
      if claims[k] in taken {
        ghost var before := problems;
        problems := problems + [Clash(k, claims[k], taken[claims[k]])];
        assert problems[|before|] == Clash(k, claims[k], taken[claims[k]]);
        continue;
      }
      taken := taken[claims[k] := names[k]];
    }
    NoClashMeansApart(claims);
    assert problems != [] ==> problems[0] in problems;
  }

  lemma NoClashMeansApart(claims: seq<int>)
    ensures PortsApart(claims) <==> forall k: nat | k < |claims| :: !Clashes(claims, k)
  {
    if forall k: nat | k < |claims| :: !Clashes(claims, k) {
      forall i, j | 0 <= i < j < |claims| && claims[i] == claims[j]
        ensures claims[i] == 0
      {
        assert claims[..j][i] == claims[j];
        assert !Clashes(claims, j);
      }
      forall i: nat | i < |claims|
        ensures claims[i] != 22 && claims[i] != 80
      {
        assert !Clashes(claims, i);
      }
    }
  }

  method CheckNetwork(net: Addresses, n: Network) returns (problems: seq<Problem>)
    ensures problems == [] <==> ValidNetwork(net, n)
    ensures BadMode in problems <==> n.mode != "dhcp" && n.mode != "static"
    ensures BadAddress in problems <==> n.mode == "static" && !net.isCIDR(n.address)
    ensures BadGateway in problems <==> n.mode == "static" && !net.isIP(n.gateway)
    ensures BadDns in problems <==> exists i :: 0 <= i < |n.dns| && !net.isIP(n.dns[i])
  {
    problems := [];
    if n.mode != "dhcp" && n.mode != "static" { problems := problems + [BadMode]; }
    if n.mode == "static" {
      if !net.isCIDR(n.address) { problems := problems + [BadAddress]; }
      if !net.isIP(n.gateway) { problems := problems + [BadGateway]; }
    }
    ghost var before := problems;
    for i := 0 to |n.dns|
      invariant problems == [] <==> before == [] && forall k | 0 <= k < i :: net.isIP(n.dns[k])
      invariant BadDns in problems <==> exists k :: 0 <= k < i && !net.isIP(n.dns[k])
      invariant forall p | p != BadDns :: p in problems <==> p in before
    {
      if !net.isIP(n.dns[i]) { problems := problems + [BadDns]; }
    }
  }

  predicate IsCountry(s: string) { |s| == 2 && 'A' <= s[0] <= 'Z' && 'A' <= s[1] <= 'Z' }

  method CheckWifi(w: Wifi) returns (problems: seq<Problem>)
    ensures problems == [] <==> ValidWifi(w)
    ensures BadSsid in problems <==> |w.ssid| > 32 || !OneLine(w.ssid)
    ensures MissingSsid in problems <==> w.enabled && w.ssid == ""
    ensures BadPsk in problems <==> w.enabled && !(8 <= |w.psk| <= 63 && OneLine(w.psk))
    ensures BadCountry in problems <==> !IsCountry(w.country)
  {
    problems := [];
    if |w.ssid| > 32 || !OneLine(w.ssid) { problems := problems + [BadSsid]; }
    if w.enabled && w.ssid == "" { problems := problems + [MissingSsid]; }
    if w.enabled && (|w.psk| < 8 || |w.psk| > 63 || !OneLine(w.psk)) { problems := problems + [BadPsk]; }
    if !IsCountry(w.country) { problems := problems + [BadCountry]; }
  }

  /** All the checks in their order. Nothing is reported if and only if the
      settings are usable. */
  method Validate(net: Addresses, c: Settings) returns (problems: seq<Problem>)
    ensures problems == [] <==> Valid(net, c)
  {
    problems := CheckSystem(c.system);
    var more := CheckLink(c.grbl);
    problems := problems + more;
    more := CheckService(c.grbl);
    problems := problems + more;
    more := CheckPicture(c.camera);
    problems := problems + more;
    more := CheckStream(c.camera);
    problems := problems + more;
    more := CheckClaims(Claims(c.grbl, c.camera), ["grbl.port", "camera.port", "grbl.monitor_port"]);
    problems := problems + more;
    more := CheckNetwork(net, c.network);
    problems := problems + more;
    more := CheckWifi(c.wifi);
    problems := problems + more;
  }

  // Salvage.

  /** Keeps what the appliance is reached by: its name, its network, its Wi-Fi and
      the fact that it has been set up. */
  method Salvage(net: Addresses, broken: Settings) returns (safe: Settings)
    ensures safe == Salvaged(net, broken)
  {
    safe := DEFAULT;
    DefaultIsValid(net, safe);
    if IsHostname(broken.system.hostname) {
      safe := safe.(system := safe.system.(hostname := broken.system.hostname));
    }
    var problems := Validate(net, safe.(wifi := broken.wifi));
    var wifiUsable := problems == [];
    if wifiUsable {
      safe := safe.(wifi := broken.wifi);
    }
    problems := Validate(net, safe.(network := broken.network));
    if problems == [] {
      safe := safe.(network := broken.network);
    }
    if broken.system.setupComplete && (wifiUsable || !broken.wifi.enabled) {
      safe := safe.(system := safe.system.(setupComplete := true));
    }
    problems := Validate(net, safe);
    if problems != [] {
      // Not reached: whatever was kept is usable on its own, and nothing that was
      // kept has to do with anything else.
      assert false;
      return DEFAULT;
    }
  }

  /** What is left of settings that are not usable: each of three parts exactly
      when it is usable by itself. */
  function Salvaged(net: Addresses, broken: Settings): Settings {
    DEFAULT.(
      system := System(
        if IsHostname(broken.system.hostname) then broken.system.hostname else DEFAULT.system.hostname,
        broken.system.setupComplete && (ValidWifi(broken.wifi) || !broken.wifi.enabled),
        DEFAULT.system.usbAutosuspend),
      wifi := if ValidWifi(broken.wifi) then broken.wifi else DEFAULT.wifi,
      network := if ValidNetwork(net, broken.network) then broken.network else DEFAULT.network)
  }

  lemma DeviceIsClean(path: string, dir: string, name: string)
    requires path == ['/'] + dir + ['/'] + name && '/' !in dir && '/' !in name
    requires |dir| > 2 && |name| > 2
    ensures CleanAbsolute(path)
  {
    CutAt(dir, '/', name);
    CutNone(name, '/');
    assert path[1..] == dir + ['/'] + name;
    assert Split(path[1..], '/') == [dir] + Split(name, '/') && Split(name, '/') == [name];
  }

  lemma DefaultGrblPath(path: string)
    requires path == "/dev/ttyUSB0"
    ensures CleanAbsolute(path)
  {
    assert path == ['/'] + "dev" + ['/'] + "ttyUSB0";
    DeviceIsClean(path, "dev", "ttyUSB0");
  }

  lemma DefaultGrblText(path: string)
    requires path == "/dev/ttyUSB0"
    ensures OneLine(path) && Under(path, "/dev/ttyUSB")
  {}

  lemma UsbIsGrbl(path: string)
    requires CleanAbsolute(path) && OneLine(path) && Under(path, "/dev/ttyUSB")
    ensures IsGrblDevice(path)
  {}

  lemma DefaultGrblDevice()
    ensures IsGrblDevice(DEFAULT_GRBL.device)
  {
    var path := DEFAULT_GRBL.device;
    DefaultGrblPath(path);
    DefaultGrblText(path);
    UsbIsGrbl(path);
  }

  lemma DefaultCameraDevice()
    ensures CleanAbsolute(DEFAULT_CAMERA.device)
  {
    var path := DEFAULT_CAMERA.device;
    assert path == ['/'] + "dev" + ['/'] + "video0";
    DeviceIsClean(path, "dev", "video0");
  }

  /** Four digits of which the first is not above seven spell less than 8192. */
  lemma SmallDimension(s: string)
    requires 1 <= |s| <= 4 && AllDigits(s) && (|s| == 4 ==> s[0] <= '7')
    ensures AtoiAnyway(s) <= 8192
  {
    var a, b, c := s[..|s| - 1], s[..if |s| > 2 then |s| - 2 else 0], s[..if |s| > 3 then |s| - 3 else 0];
    assert DigitsValue(s) <= DigitsValue(a) * 10 + 9;
    if |s| > 1 { assert a[..|a| - 1] == b && DigitsValue(a) <= DigitsValue(b) * 10 + 9; }
    if |s| > 2 { assert b[..|b| - 1] == c && DigitsValue(b) <= DigitsValue(c) * 10 + 9; }
    if |s| > 3 { assert c[..0] == [] && DigitsValue(c) == c[0] as int - '0' as int; }
  }

  lemma ResolutionOf(s: string, w: string, h: string)
    requires s == w + ['x'] + h && IsDimension(w) && IsDimension(h)
    requires |w| <= 4 && (|w| == 4 ==> w[0] <= '7') && |h| <= 4 && (|h| == 4 ==> h[0] <= '7')
    ensures IsResolution(s) && IsSmall(s)
  {
    CutAt(w, 'x', h);
    SmallDimension(w);
    SmallDimension(h);
  }

  lemma DefaultCameraIsValid(c: Camera)
    requires c == DEFAULT_CAMERA
    ensures ValidCamera(c)
  {
    DefaultCameraDevice();
    assert OneLine(c.device) && Under(c.device, "/dev/video");
    ResolutionOf(c.resolution, "1280", "720");
  }

  lemma DefaultLinkIsValid(g: Grbl)
    requires g == DEFAULT_GRBL
    ensures ValidLink(g)
  {
    DefaultGrblDevice();
  }

  lemma DefaultServiceIsValid(g: Grbl)
    requires g == DEFAULT_GRBL
    ensures ValidService(g)
  {}

  lemma DefaultSystemIsValid(s: System)
    requires s == DEFAULT_SYSTEM
    ensures ValidSystem(s)
  {}

  lemma DefaultNetworkIsValid(net: Addresses, n: Network, w: Wifi)
    requires n == DEFAULT_NETWORK && w == DEFAULT_WIFI
    ensures ValidNetwork(net, n) && ValidWifi(w)
  {}

  lemma ValidInParts(net: Addresses, c: Settings)
    requires ValidSystem(c.system) && ValidGrbl(c.grbl) && ValidCamera(c.camera)
    requires c.grbl.port == 23 && c.camera.port == 8080 && c.grbl.monitorPort == 0
    requires ValidNetwork(net, c.network) && ValidWifi(c.wifi)
    ensures Valid(net, c)
  {}

  lemma DefaultIsValid(net: Addresses, c: Settings)
    requires c == DEFAULT
    ensures Valid(net, c)
  {
    DefaultSystemIsValid(c.system);
    DefaultLinkIsValid(c.grbl);
    DefaultServiceIsValid(c.grbl);
    DefaultCameraIsValid(c.camera);
    DefaultNetworkIsValid(net, c.network, c.wifi);
    ValidInParts(net, c);
  }

  /** What is salvaged is usable, so there is never a reason to give it up, and
      salvaging it again changes nothing. An appliance stays set up if and only if
      it was and its way onto the network is not lost with the rest; and settings
      that were usable all along keep everything they are reached by. */
  lemma SalvagedIsValid(net: Addresses, broken: Settings)
    ensures var safe := Salvaged(net, broken);
            && Valid(net, safe)
            && Salvaged(net, safe) == safe
            && (safe.system.setupComplete <==>
                  broken.system.setupComplete && (safe.wifi == broken.wifi || !broken.wifi.enabled))
            && (Valid(net, broken) ==> safe.wifi == broken.wifi && safe.network == broken.network
                                       && safe.system.hostname == broken.system.hostname)
  {
    DefaultIsValid(net, DEFAULT);
  }
}
