/** Finding the scale: the candidate port names, the filter that drops Windows names on other
    hosts, and the collector that picks the first port whose probe connected. */
module ScaleDiscovery {
  import opened Wrappers
  import opened Bytes
  import opened Serial
  import opened Strings
  import opened ScaleProbe

  const WindowsPortCount := 20

  /** `COM1`, `COM2`, ... as `fmt.Sprintf("COM%d", n)` renders them. */
  function ComName(n: nat): string {
    "COM" + Decimal(n)
  }

  const LinuxPorts: seq<string> := [
    "/dev/ttyUSB0", "/dev/ttyUSB1", "/dev/ttyUSB2", "/dev/ttyUSB3",
    "/dev/ttyACM0", "/dev/ttyACM1", "/dev/ttyACM2", "/dev/ttyACM3",
    "/dev/ttyS0", "/dev/ttyS1", "/dev/ttyS2", "/dev/ttyS3"
  ]

  const DarwinPorts: seq<string> := [
    "/dev/cu.usbserial", "/dev/cu.usbmodem",
    "/dev/tty.usbserial", "/dev/tty.usbmodem",
    "/dev/cu.SLAB_USBtoUART", "/dev/tty.SLAB_USBtoUART"
  ]

  /** `COM1` up to `COMn`, in order. */
  function ComNames(n: nat): (names: seq<string>)
    ensures |names| == n && forall k | 0 <= k < n :: names[k] == ComName(k + 1)
  {
    if n == 0 then [] else ComNames(n - 1) + [ComName(n)]
  }

  /** Device paths never start with "COM". */
  lemma PathsAreNotCom(ports: seq<string>)
    requires forall k | 0 <= k < |ports| :: |ports[k]| > 0 && ports[k][0] == '/'
    ensures forall k | 0 <= k < |ports| :: !HasPrefix(ports[k], "COM")
  {
    forall k | 0 <= k < |ports|
      ensures !HasPrefix(ports[k], "COM")
    {
      assert ports[k][0] != "COM"[0];
    }
  }

  /** `getCommonPorts` for the host system `os` (the value of `runtime.GOOS`). The Windows list
      is COM1..COM20 in order; no name in the Linux or macOS list starts with "COM"; any other
      system has no common ports. */
  function CommonPorts(os: string): (ports: seq<string>)
    ensures os == "windows" ==>
      |ports| == WindowsPortCount && forall k | 0 <= k < |ports| :: ports[k] == ComName(k + 1)
    ensures os != "windows" ==> forall k | 0 <= k < |ports| :: !HasPrefix(ports[k], "COM")
    ensures os != "windows" && os != "linux" && os != "darwin" ==> ports == []
  {
    if os == "windows" then ComNames(WindowsPortCount)
    else if os == "linux" then PathsAreNotCom(LinuxPorts); LinuxPorts
    else if os == "darwin" then PathsAreNotCom(DarwinPorts); DarwinPorts
    else []
  }

  /** The twenty Windows names are pairwise distinct. */
  lemma WindowsPortsDistinct(j: nat, k: nat)
    requires j < k < WindowsPortCount
    ensures CommonPorts("windows")[j] != CommonPorts("windows")[k]
  {
    var ports := CommonPorts("windows");
    if ports[j] == ports[k] {
      assert ports[j][3..] == Decimal(j + 1);
      assert ports[k][3..] == Decimal(k + 1);
      DecimalInjective(j + 1, k + 1);
    }
  }

  /** `getCommonPorts`, building the Windows list one name at a time. */
  method CommonPortList(os: string) returns (ports: seq<string>)
    ensures ports == CommonPorts(os)
  {
    if os == "windows" {
      ports := [];
      var i := 1;
      while i <= WindowsPortCount
        invariant 1 <= i <= WindowsPortCount + 1 && |ports| == i - 1
        invariant forall k | 0 <= k < |ports| :: ports[k] == ComName(k + 1)
      {
        ports := ports + [ComName(i)];
        i := i + 1;
      }
    } else if os == "linux" {
      ports := LinuxPorts;
    } else if os == "darwin" {
      ports := DarwinPorts;
    } else {
      ports := [];
    }
  }

  /** Whether the filter in `ConnectToScale` keeps a port name. */
  predicate Keep(name: string, windows: bool) {
    windows || !HasPrefix(name, "COM")
  }

  /** The names the filter keeps, in their original order. */
  function Kept(names: seq<string>, windows: bool): seq<string> {
    if names == [] then []
    else
      var last := names[|names| - 1];
      Kept(names[..|names| - 1], windows) + (if Keep(last, windows) then [last] else [])
  }

  /** The filter keeps exactly the names it should. */
  lemma {:induction false} KeptMembers(names: seq<string>, windows: bool, x: string)
    ensures x in Kept(names, windows) <==> x in names && Keep(x, windows)
  {
    if names != [] {
      var init := names[..|names| - 1];
      KeptMembers(init, windows, x);
      assert names == init + [names[|names| - 1]];
    }
  }

  /** The filter keeps the order: filtering a concatenation filters each part. */
  lemma {:induction false} KeptAppend(a: seq<string>, b: seq<string>, windows: bool)
    ensures Kept(a + b, windows) == Kept(a, windows) + Kept(b, windows)
    decreases |b|
  {
    if b != [] {
      var init := b[..|b| - 1];
      assert (a + b)[..|a + b| - 1] == a + init;
      var last := b[|b| - 1];
      assert (a + b)[|a + b| - 1] == last;
      var tail := if Keep(last, windows) then [last] else [];
      KeptAppend(a, init, windows);
      assert Kept(a + b, windows) == Kept(a, windows) + Kept(init, windows) + tail;
    } else {
      assert a + b == a;
    }
  }

  /** A list whose every name is kept passes the filter unchanged. */
  lemma {:induction false} KeptAll(names: seq<string>, windows: bool)
    requires forall k | 0 <= k < |names| :: Keep(names[k], windows)
    ensures Kept(names, windows) == names
  {
    if names != [] {
      KeptAll(names[..|names| - 1], windows);
    }
  }

  /** The port filter of `ConnectToScale`. */
  method FilterPorts(names: seq<string>, os: string) returns (valid: seq<string>)
    ensures valid == Kept(names, os == "windows")
  {
    valid := [];
    var i := 0;
    while i < |names|
      invariant 0 <= i <= |names| && valid == Kept(names[..i], os == "windows")
    {
      assert names[..i + 1][..i] == names[..i];
      if os != "windows" && HasPrefix(names[i], "COM") {
      } else {
        valid := valid + [names[i]];
      }
      i := i + 1;
    }
    assert names[..i] == names;
  }

  /** Why no scale was found. */
  datatype DiscoveryError =
    | NoPortsToCheck                             // every candidate was filtered out
    | ScaleNotFound(lastError: Option<ScaleError>) // no probe connected

  /** The names `getSerialPorts` yields: the enumerated names, or the common ports when
      enumeration failed (None) or found nothing. */
  function Candidates(enumerated: Option<seq<string>>, os: string): seq<string> {
    if enumerated.None? || enumerated.value == [] then CommonPorts(os) else enumerated.value
  }

  /** The ports `ConnectToScale` goes on to probe, or the error when none is left. */
  function PortsToCheck(enumerated: Option<seq<string>>, os: string): Result<seq<string>, DiscoveryError> {
    var valid := Kept(Candidates(enumerated, os), os == "windows");
    if valid == [] then Failure(NoPortsToCheck) else Success(valid)
  }

  /** Without enumerated ports, a known host probes its common ports unchanged, and any other
      host has nothing to probe. */
  lemma FallbackPorts(enumerated: Option<seq<string>>, os: string)
    requires enumerated.None? || enumerated.value == []
    ensures os == "windows" || os == "linux" || os == "darwin" ==> PortsToCheck(enumerated, os) == Success(CommonPorts(os))
    ensures os != "windows" && os != "linux" && os != "darwin" ==> PortsToCheck(enumerated, os) == Failure(NoPortsToCheck)
  {
    var ports := CommonPorts(os);
    KeptAll(ports, os == "windows");
    if os == "linux" {
      assert ports[0] in ports;
    } else if os == "darwin" {
      assert ports[0] in ports;
    }
  }

  /** On a host other than Windows, a list of only `COM` names leaves nothing to probe. */
  lemma OnlyComNamesFail(names: seq<string>, os: string)
    requires names != [] && os != "windows"
    requires forall k | 0 <= k < |names| :: HasPrefix(names[k], "COM")
    ensures PortsToCheck(Some(names), os) == Failure(NoPortsToCheck)
  {
    if Kept(names, false) != [] {
      var x := Kept(names, false)[0];
      KeptMembers(names, false, x);
    }
  }

  /** The port selection of `ConnectToScale`, up to the parallel probe. */
  method ValidPorts(enumerated: Option<seq<string>>, os: string) returns (r: Result<seq<string>, DiscoveryError>)
    ensures r == PortsToCheck(enumerated, os)
  {
    var names: seq<string>;
    if enumerated.None? || enumerated.value == [] {
      names := CommonPortList(os);
    } else {
      names := enumerated.value;
    }
    var valid := FilterPorts(names, os);
    if |valid| == 0 {
      return Failure(NoPortsToCheck);
    }
    return Success(valid);
  }

  /** One result as the collector receives it: the port and what its retry wrapper returned. */
  datatype Arrival = Arrival(portName: string, outcome: PortOutcome)

  /** The index of the first arrival that connected. */
  function FirstConnected(arrivals: seq<Arrival>): (r: Option<nat>)
    ensures r.Some? ==>
      && r.value < |arrivals| && arrivals[r.value].outcome.Connected?
      && forall k | 0 <= k < r.value :: !arrivals[k].outcome.Connected?
    ensures r.None? ==> forall k | 0 <= k < |arrivals| :: !arrivals[k].outcome.Connected?
  {
    if arrivals == [] then None
    else if arrivals[0].outcome.Connected? then Some(0)
    else
      var r := FirstConnected(arrivals[1..]);
      if r.None? then None else Some(r.value + 1)
  }

  /** The names of the arrivals that connected, in arrival order. */
  function ConnectedNames(arrivals: seq<Arrival>): seq<string> {
    if arrivals == [] then []
    else
      var last := arrivals[|arrivals| - 1];
      ConnectedNames(arrivals[..|arrivals| - 1]) + (if last.outcome.Connected? then [last.portName] else [])
  }

  /** The error of the last arrival that reported one; an arrival with neither a connection nor
      an error is passed over. */
  function LastReported(arrivals: seq<Arrival>): Option<ScaleError> {
    if arrivals == [] then None
    else
      var last := arrivals[|arrivals| - 1];
      if last.outcome.NotConnected? && last.outcome.lastError.Some? then last.outcome.lastError
      else LastReported(arrivals[..|arrivals| - 1])
  }

  /** What the collector of `connectToScaleParallel` decides for a given arrival order: the
      first port that connected together with the later connected ports it closes, or, when none
      connected, the last error reported. */
  function Collected(arrivals: seq<Arrival>): (Result<(string, LinkConfig), DiscoveryError>, seq<string>) {
    match FirstConnected(arrivals)
    case Some(k) =>
      (Success((arrivals[k].portName, arrivals[k].outcome.config)), ConnectedNames(arrivals[k + 1..]))
    case None => (Failure(ScaleNotFound(LastReported(arrivals))), [])
  }

  /** Every later connected port is closed, and no other. */
  lemma {:induction false} ConnectedNamesMembers(arrivals: seq<Arrival>, x: string)
    ensures x in ConnectedNames(arrivals) <==>
      exists j | 0 <= j < |arrivals| :: arrivals[j].outcome.Connected? && arrivals[j].portName == x
  {
    if arrivals != [] {
      var init := arrivals[..|arrivals| - 1];
      ConnectedNamesMembers(init, x);
      assert forall j | 0 <= j < |init| :: init[j] == arrivals[j];
    }
  }

  /** When no port connected, the error reported is that of the last arrival with an error:
      arrivals after it carry none. */
  lemma {:induction false} LastReportedIsLast(arrivals: seq<Arrival>, j: nat)
    requires j < |arrivals| && arrivals[j].outcome.NotConnected? && arrivals[j].outcome.lastError.Some?
    requires forall k | j < k < |arrivals| :: arrivals[k].outcome == NotConnected(None)
    ensures LastReported(arrivals) == arrivals[j].outcome.lastError
    decreases |arrivals|
  {
    if j < |arrivals| - 1 {
      LastReportedIsLast(arrivals[..|arrivals| - 1], j);
    }
  }

  /** With no arrival reporting an error and none connected, the error names no failure. */
  lemma {:induction false} NothingReported(arrivals: seq<Arrival>)
    requires forall k | 0 <= k < |arrivals| :: arrivals[k].outcome == NotConnected(None)
    ensures Collected(arrivals) == (Failure(ScaleNotFound(None)), [])
  {
    if arrivals != [] {
      NothingReported(arrivals[..|arrivals| - 1]);
    }
  }

  /** The draining goroutine of `connectToScaleParallel`: every connection among the results
      still to arrive, from index `from` on, is closed. */
  method CloseLate(arrivals: seq<Arrival>, from: nat) returns (closed: seq<string>)
    requires from <= |arrivals|
    ensures closed == ConnectedNames(arrivals[from..])
  {
    closed := [];
    var j := from;
    while j < |arrivals|
      invariant from <= j <= |arrivals| && closed == ConnectedNames(arrivals[from..j])
    {
      assert arrivals[from..j + 1][..j - from] == arrivals[from..j];
      if arrivals[j].outcome.Connected? {
        closed := closed + [arrivals[j].portName];
      }
      j := j + 1;
    }
    assert arrivals[from..j] == arrivals[from..];
  }

  /** The collector loop of `connectToScaleParallel` over the results in arrival order. */
  method Collect(arrivals: seq<Arrival>) returns (found: Result<(string, LinkConfig), DiscoveryError>, closed: seq<string>)
    ensures (found, closed) == Collected(arrivals)
  {
    var lastError: Option<ScaleError> := None;
    var i := 0;
    while i < |arrivals|
      invariant 0 <= i <= |arrivals|
      invariant forall k | 0 <= k < i :: !arrivals[k].outcome.Connected?
      invariant lastError == LastReported(arrivals[..i])
    {
      assert arrivals[..i + 1][..i] == arrivals[..i];
      var result := arrivals[i];
      if result.outcome.NotConnected? && result.outcome.lastError.Some? {
        lastError := result.outcome.lastError;
      } else if result.outcome.Connected? {
        closed := CloseLate(arrivals, i + 1);
        return Success((result.portName, result.outcome.config)), closed;
      }
      i := i + 1;
    }
    assert arrivals[..i] == arrivals;
    return Failure(ScaleNotFound(lastError)), [];
  }
}
