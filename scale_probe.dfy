/** The scale: the 5-byte weight reply, the liveness probe that classifies a port, the ordered
    walk over link configurations and the retry wrapper, all over an abstract port. */
module ScaleProbe {
  import opened Wrappers
  import opened Bytes
  import opened Config
  import opened Serial

  const StableStatus: byte := 128
  const ReplyLength: nat := 5
  /** The probe's reply buffer, its read budget and the reply length it waits for. */
  const ProbeBuffer: nat := 10
  const MaxReadAttempts: nat := 10
  const MinReply: nat := 2
  const FlushBuffer: nat := 256

  datatype ScaleError =
    | WeightUnreadable           // "не удалось прочитать вес"
    | NoValidReply               // "нет валидного ответа"
    | ReadFailed                 // "ошибка чтения: ..."
    | AllConfigsFailed(port: string)  // "все конфигурации не подошли для <port>"

  /** The weight a 5-byte reply encodes: status byte, mode byte, then a little-endian magnitude. */
  function DecodeWeight(reply: seq<byte>): (grams: nat)
    requires |reply| == ReplyLength
    ensures grams <= 655350
  {
    if reply[0] != StableStatus then 0
    else
      var raw := reply[3] as int * 256 + reply[2] as int;
      if reply[1] == 0 then raw
      else if reply[1] == 4 then raw * 10
      else 0
  }

  /** Without the stable status the weight is zero, whatever the other bytes are. */
  lemma UnstableReadsZero(reply: seq<byte>)
    requires |reply| == ReplyLength && reply[0] != StableStatus
    ensures DecodeWeight(reply) == 0
  {
  }

  /** Mode 0 gives the 16-bit magnitude, mode 4 ten times it, any other mode zero. */
  lemma WeightModes(reply: seq<byte>)
    requires |reply| == ReplyLength && reply[0] == StableStatus
    ensures reply[1] == 0 ==> DecodeWeight(reply) == 256 * (reply[3] as int) + reply[2] as int <= 65535
    ensures reply[1] == 4 ==> DecodeWeight(reply) == 10 * (256 * (reply[3] as int) + reply[2] as int)
    ensures reply[1] != 0 && reply[1] != 4 ==> DecodeWeight(reply) == 0
  {
  }

  /** The same magnitude read in mode 4 weighs ten times what it weighs in mode 0. */
  lemma ModeFourIsTenfold(a: seq<byte>, b: seq<byte>)
    requires |a| == ReplyLength && |b| == ReplyLength
    requires a[0] == b[0] == StableStatus && a[1] == 0 && b[1] == 4
    requires a[2] == b[2] && a[3] == b[3]
    ensures DecodeWeight(b) == 10 * DecodeWeight(a)
  {
  }

  /** Magnitude bytes 0x00, 0x01 weigh 256 grams in mode 0 and 2560 grams in mode 4. */
  lemma WeightExamples(trailer: byte)
    ensures DecodeWeight([StableStatus, 0, 0x00, 0x01, trailer]) == 256
    ensures DecodeWeight([StableStatus, 4, 0x00, 0x01, trailer]) == 2560
  {
  }

  /** A stable mode-0 reply for a weight up to 65535 grams; the trailer byte is not checked. */
  function EncodeWeight(grams: nat, trailer: byte): (reply: seq<byte>)
    requires grams <= 65535
    ensures |reply| == ReplyLength
  {
    [StableStatus, 0, grams % 256, grams / 256, trailer]
  }

  /** Every weight the scale can report in mode 0 is decoded exactly. */
  lemma DecodeEncodeWeight(grams: nat, trailer: byte)
    requires grams <= 65535
    ensures DecodeWeight(EncodeWeight(grams, trailer)) == grams
  {
  }

  /** The port after `ReadWeight`: the request written, then one read into a 5-byte buffer. */
  function AfterWeightRequest(s: PortState): (ReadResult, PortState) {
    ReadOn(WriteOn(s, [ScaleWeightRequest]), ReplyLength)
  }

  /** `ReadWeight`: one request, one read; anything but exactly 5 bytes without error fails. */
  method ReadWeight(port: Port) returns (r: Result<nat, ScaleError>)
    modifies port
    ensures var (res, s) := AfterWeightRequest(old(port.State()));
      && port.State() == s
      && r == if res.err != NoError || |res.data| != ReplyLength then Failure(WeightUnreadable)
              else Success(DecodeWeight(res.data))
  {
    port.Write([ScaleWeightRequest]);
    var data, err := port.Read(ReplyLength);
    if err != NoError || |data| != ReplyLength {
      return Failure(WeightUnreadable);
    }
    r := Success(DecodeWeight(data));
  }

  /** The weight request is the only byte written, before the read. */
  lemma ReadWeightWritesRequest(s: PortState)
    ensures AfterWeightRequest(s).1.written == s.written + [0x4A]
  {
  }

  /** The first reply bytes the probe accepts on their own. */
  predicate ValidFirstByte(b: byte) {
    b == 128 || b == 192 || b == 160 || b == 224 || b == 144 || b == 176 || b == 208 || b == 240
  }

  /** The classifier: at least two bytes, and a valid first byte or a second byte of 192. */
  predicate Accepts(reply: seq<byte>) {
    |reply| >= MinReply && (ValidFirstByte(reply[0]) || reply[1] == 192)
  }

  /** The valid first bytes are exactly those with the high bit set and the low nibble clear. */
  lemma ValidFirstByteIsMask(b: byte)
    ensures ValidFirstByte(b) <==> (b as bv8) & 0x8F == 0x80
  {
  }

  /** A reply of fewer than two bytes is never accepted, even with a valid first byte. */
  lemma ShortReplyRejected(reply: seq<byte>)
    requires |reply| < MinReply
    ensures !Accepts(reply)
  {
  }

  /** What the reply loop ends with: the bytes collected, or an abort on a read error other than
      a timeout; `readCount` counts the read calls made. */
  datatype Poll = Received(bytes: seq<byte>, readCount: nat) | Aborted(readCount: nat)

  /** The reply loop from attempt `attempt` with `acc` already collected. Each read goes into
      what is left of the 10-byte buffer; the loop stops once 2 bytes are in; a timeout or an
      empty read goes on polling, any other error aborts. */
  function PollFrom(s: PortState, attempt: nat, acc: seq<byte>): (p: (Poll, PortState))
    requires attempt <= MaxReadAttempts && |acc| < MinReply
    ensures p.1 == s.(pending := p.1.pending)
    decreases MaxReadAttempts - attempt
  {
    if attempt == MaxReadAttempts then (Received(acc, attempt), s)
    else
      var (r, s1) := ReadOn(s, ProbeBuffer - |acc|);
      var acc1 := acc + r.data;
      if |r.data| > 0 && |acc1| >= MinReply then (Received(acc1, attempt + 1), s1)
      else if r.err == Fault then (Aborted(attempt + 1), s1)
      else PollFrom(s1, attempt + 1, acc1)
  }

  /** The loop makes at most 10 reads, collects at most 10 bytes, and ends early only on an
      abort or once 2 bytes are in. */
  lemma {:induction false} PollBounds(s: PortState, attempt: nat, acc: seq<byte>)
    requires attempt <= MaxReadAttempts && |acc| < MinReply
    ensures var p := PollFrom(s, attempt, acc).0;
      && attempt <= p.readCount <= MaxReadAttempts
      && (p.Received? ==> |acc| <= |p.bytes| <= ProbeBuffer && p.bytes[..|acc|] == acc)
      && (p.Received? && p.readCount < MaxReadAttempts ==> |p.bytes| >= MinReply)
      && (p.Received? && |p.bytes| < MinReply ==> p.readCount == MaxReadAttempts)
    decreases MaxReadAttempts - attempt
  {
    if attempt < MaxReadAttempts {
      var (r, s1) := ReadOn(s, ProbeBuffer - |acc|);
      var acc1 := acc + r.data;
      if !(|r.data| > 0 && |acc1| >= MinReply) && r.err != Fault {
        PollBounds(s1, attempt + 1, acc1);
        var p := PollFrom(s1, attempt + 1, acc1).0;
        if p.Received? {
          assert p.bytes[..|acc1|] == acc1;
          assert p.bytes[..|acc|] == acc1[..|acc|];
        }
      }
    }
  }

  /** Results with no error other than a timeout never abort the loop. */
  predicate NoFaults(pending: seq<ReadResult>) {
    forall k | 0 <= k < |pending| :: pending[k].err != Fault
  }

  /** On a line that only times out or stays silent, the loop keeps polling: it never aborts. */
  lemma {:induction false} TimeoutsKeepPolling(s: PortState, attempt: nat, acc: seq<byte>)
    requires attempt <= MaxReadAttempts && |acc| < MinReply
    requires NoFaults(s.pending)
    ensures PollFrom(s, attempt, acc).0.Received?
    decreases MaxReadAttempts - attempt
  {
    if attempt < MaxReadAttempts {
      var (r, s1) := ReadOn(s, ProbeBuffer - |acc|);
      if s.pending != [] {
        var head := s.pending[0];
        if |head.data| > ProbeBuffer - |acc| {
          assert s1.pending[0].err == head.err;
          assert forall k | 1 <= k < |s1.pending| :: s1.pending[k] == s.pending[k];
        } else {
          assert forall k | 0 <= k < |s1.pending| :: s1.pending[k] == s.pending[k + 1];
        }
      }
      if !(|r.data| > 0 && |acc + r.data| >= MinReply) {
        TimeoutsKeepPolling(s1, attempt + 1, acc + r.data);
      }
    }
  }

  /** A first read that fails with a non-timeout error and no data aborts at once. */
  lemma FaultAborts(s: PortState)
    requires s.pending != [] && s.pending[0] == ReadResult([], Fault)
    ensures PollFrom(s, 0, []).0 == Aborted(1)
  {
  }

  /** One turn of the reply loop, as the loop of `AwaitReply` takes it. */
  lemma PollStep(s: PortState, attempt: nat, acc: seq<byte>)
    requires attempt < MaxReadAttempts && |acc| < MinReply
    ensures var (r, s1) := ReadOn(s, ProbeBuffer - |acc|);
      PollFrom(s, attempt, acc) ==
        if |r.data| > 0 && |acc + r.data| >= MinReply then (Received(acc + r.data, attempt + 1), s1)
        else if r.err == Fault then (Aborted(attempt + 1), s1)
        else PollFrom(s1, attempt + 1, if |r.data| > 0 then acc + r.data else acc)
  {
    var (r, s1) := ReadOn(s, ProbeBuffer - |acc|);
    if |r.data| == 0 {
      assert acc + r.data == acc;
    }
  }

  /** The reply loop of the probe. */
  method AwaitReply(port: Port) returns (p: Poll)
    modifies port
    ensures (p, port.State()) == PollFrom(old(port.State()), 0, [])
  {
    var readBuf: seq<byte> := [];
    var attempt := 0;
    while attempt < MaxReadAttempts
      invariant 0 <= attempt <= MaxReadAttempts && |readBuf| < MinReply
      invariant PollFrom(port.State(), attempt, readBuf) == PollFrom(old(port.State()), 0, [])
    {
      PollStep(port.State(), attempt, readBuf);
      var data, err := port.Read(ProbeBuffer - |readBuf|);
      if |data| > 0 {
        readBuf := readBuf + data;
        if |readBuf| >= MinReply {
          return Received(readBuf, attempt + 1);
        }
      }
      if err == Fault {
        return Aborted(attempt + 1);
      }
      attempt := attempt + 1;
    }
    p := Received(readBuf, attempt);
  }

  /** The verdict of one probe on an open link: flush, send the liveness opcode, await the
      reply, classify it. */
  function Probe(s: PortState): (p: (Result<(), ScaleError>, PortState))
    ensures p.1 == s.(written := p.1.written, pending := p.1.pending)
  {
    var s1 := WriteOn(Flushed(s, FlushBuffer), [ScaleLiveness]);
    var (poll, s2) := PollFrom(s1, 0, []);
    match poll
    case Aborted(_) => (Failure(ReadFailed), s2)
    case Received(bytes, _) => (if Accepts(bytes) then Success(()) else Failure(NoValidReply), s2)
  }

  /** `testScaleCommunicationWithContext`. */
  method TestCommunication(port: Port) returns (r: Result<(), ScaleError>)
    modifies port
    ensures (r, port.State()) == Probe(old(port.State()))
  {
    Flush(port, FlushBuffer);
    port.Write([ScaleLiveness]);
    var p := AwaitReply(port);
    match p
    case Aborted(_) =>
      r := Failure(ReadFailed);
    case Received(bytes, _) =>
      if |bytes| >= MinReply && (ValidFirstByte(bytes[0]) || bytes[1] == 192) {
        r := Success(());
      } else {
        r := Failure(NoValidReply);
      }
  }

  /** The probe touches only what was written and what is pending. */
  lemma ProbeKeepsLink(s: PortState)
    ensures var t := Probe(s).1;
      t.isOpen == s.isOpen && t.attempts == s.attempts && t.openScript == s.openScript
      && t.written[..|s.written|] == s.written
  {
  }

  /** The four link configurations, in the order they are tried. */
  const ConfigOrder: seq<LinkConfig> := [
    LinkConfig(4800, 8, EvenParity, 1, "4800-8-E-1"),
    LinkConfig(9600, 8, NoParity, 1, "9600-8-N-1"),
    LinkConfig(2400, 8, EvenParity, 1, "2400-8-E-1"),
    LinkConfig(9600, 8, EvenParity, 1, "9600-8-E-1")
  ]

  /** `after` extends `before` with the first few of `configs`, in order. */
  predicate OpenedInOrder(before: seq<LinkConfig>, after: seq<LinkConfig>, configs: seq<LinkConfig>) {
    |before| <= |after| <= |before| + |configs| && after == before + configs[..|after| - |before|]
  }

  /** What a walk over `configs` that starts from the open calls `before` may end with: the
      configurations opened in order, a success being the one opened last, and a failure
      having opened all of them. */
  predicate WalkShape(before: seq<LinkConfig>, p: (Result<LinkConfig, ScaleError>, PortState), configs: seq<LinkConfig>) {
    var (r, after) := (p.0, p.1.attempts);
    && OpenedInOrder(before, after, configs)
    && (r.Success? ==> |after| > |before| && r.value == after[|after| - 1])
    && (r.Failure? ==> after == before + configs)
  }

  /** What the rest of a turn may end with, on a link opened with `configs[0]` as the last of
      `before`: the remaining configurations opened in order, a success being the one opened
      last, and a failure having opened all of them. */
  predicate RestShape(before: seq<LinkConfig>, p: (Result<LinkConfig, ScaleError>, PortState), configs: seq<LinkConfig>)
    requires configs != []
  {
    var (r, after) := (p.0, p.1.attempts);
    && OpenedInOrder(before, after, configs[1..])
    && (r.Success? ==> |after| > 0 && r.value == after[|after| - 1])
    && (r.Failure? ==> after == before + configs[1..])
  }

  /** Opening the first configuration and then some of the rest opens some of all of them. */
  lemma OpenedFirst(before: seq<LinkConfig>, middle: seq<LinkConfig>, after: seq<LinkConfig>, configs: seq<LinkConfig>)
    requires configs != [] && middle == before + [configs[0]]
    requires OpenedInOrder(middle, after, configs[1..])
    ensures OpenedInOrder(before, after, configs)
    ensures after == middle + configs[1..] ==> after == before + configs
  {
    var n := |after| - |middle|;
    assert configs[..n + 1] == [configs[0]] + configs[1..][..n];
  }

  /** A turn whose open was refused ends as the walk over the rest did. */
  lemma RefusedShape(before: seq<LinkConfig>, middle: seq<LinkConfig>, p: (Result<LinkConfig, ScaleError>, PortState),
                     configs: seq<LinkConfig>)
    requires configs != [] && middle == before + [configs[0]]
    requires WalkShape(middle, p, configs[1..])
    ensures WalkShape(before, p, configs)
  {
    OpenedFirst(before, middle, p.1.attempts, configs);
  }

  /** A turn whose open succeeded ends as the rest of the turn did. */
  lemma OpenedShape(before: seq<LinkConfig>, middle: seq<LinkConfig>, p: (Result<LinkConfig, ScaleError>, PortState),
                    configs: seq<LinkConfig>)
    requires configs != [] && middle == before + [configs[0]]
    requires RestShape(middle, p, configs)
    ensures WalkShape(before, p, configs)
  {
    OpenedFirst(before, middle, p.1.attempts, configs);
  }

  /** The walk over `configs`: each is opened and probed in turn, the first accepted link is kept
      open and every rejected one closed. */
  function Walk(s: PortState, name: string, configs: seq<LinkConfig>): (p: (Result<LinkConfig, ScaleError>, PortState))
    requires !s.isOpen
    ensures p.1.isOpen <==> p.0.Success?
    ensures p.0.Failure? ==> p.0.error == AllConfigsFailed(name)
    ensures p.0.Success? ==> p.0.value in configs
    decreases |configs|, 2
  {
    if configs == [] then (Failure(AllConfigsFailed(name)), s)
    else TryFirst(s, name, configs)
  }

  /** One turn of the walk: open with the first configuration; on a refused open go on with
      the rest. */
  function TryFirst(s: PortState, name: string, configs: seq<LinkConfig>): (p: (Result<LinkConfig, ScaleError>, PortState))
    requires !s.isOpen && configs != []
    ensures p.1.isOpen <==> p.0.Success?
    ensures p.0.Failure? ==> p.0.error == AllConfigsFailed(name)
    ensures p.0.Success? ==> p.0.value in configs
    decreases |configs|, 1
  {
    var (ok, s1) := OpenOn(s, configs[0]);
    if ok then ProbeThen(s1, name, configs) else Walk(s1, name, configs[1..])
  }

  /** The rest of a turn on a link just opened with `configs[0]`: probe it; keep an accepted
      link, otherwise close it and go on with the rest. */
  function ProbeThen(s: PortState, name: string, configs: seq<LinkConfig>): (p: (Result<LinkConfig, ScaleError>, PortState))
    requires s.isOpen && configs != []
    ensures p.1.isOpen <==> p.0.Success?
    ensures p.0.Failure? ==> p.0.error == AllConfigsFailed(name)
    ensures p.0.Success? ==> p.0.value in configs
    decreases |configs|, 0
  {
    var (verdict, s2) := Probe(s);
    if verdict.Success? then (Success(configs[0]), s2)
    else Walk(CloseOn(s2), name, configs[1..])
  }

  /** The walk opens the configurations in the given order; a success is the configuration
      opened last, and without success all of them have been opened. */
  lemma {:induction false} WalkOrder(s: PortState, name: string, configs: seq<LinkConfig>)
    requires !s.isOpen
    ensures WalkShape(s.attempts, Walk(s, name, configs), configs)
    decreases |configs|, 2
  {
    if configs != [] {
      assert Walk(s, name, configs) == TryFirst(s, name, configs);
      TryFirstOrder(s, name, configs);
    }
  }

  lemma {:induction false} TryFirstOrder(s: PortState, name: string, configs: seq<LinkConfig>)
    requires !s.isOpen && configs != []
    ensures WalkShape(s.attempts, TryFirst(s, name, configs), configs)
    decreases |configs|, 1
  {
    var s1 := OpenOn(s, configs[0]).1;
    if OpenOn(s, configs[0]).0 {
      assert TryFirst(s, name, configs) == ProbeThen(s1, name, configs);
      ProbeThenOrder(s1, name, configs);
      OpenedShape(s.attempts, s1.attempts, TryFirst(s, name, configs), configs);
    } else {
      assert TryFirst(s, name, configs) == Walk(s1, name, configs[1..]);
      WalkOrder(s1, name, configs[1..]);
      RefusedShape(s.attempts, s1.attempts, TryFirst(s, name, configs), configs);
    }
  }

  lemma {:induction false} ProbeThenOrder(s: PortState, name: string, configs: seq<LinkConfig>)
    requires s.isOpen && configs != [] && |s.attempts| > 0 && s.attempts[|s.attempts| - 1] == configs[0]
    ensures RestShape(s.attempts, ProbeThen(s, name, configs), configs)
    decreases |configs|, 0
  {
    var s2 := Probe(s).1;
    if !Probe(s).0.Success? {
      assert ProbeThen(s, name, configs) == Walk(CloseOn(s2), name, configs[1..]);
      WalkOrder(CloseOn(s2), name, configs[1..]);
    }
  }

  /** `testPortWithContextInternal`. */
  method TestPortInternal(port: Port, name: string) returns (r: Result<LinkConfig, ScaleError>)
    requires !port.isOpen
    modifies port
    ensures (r, port.State()) == Walk(old(port.State()), name, ConfigOrder)
  {
    var k := 0;
    while k < |ConfigOrder|
      invariant 0 <= k <= |ConfigOrder| && !port.isOpen
      invariant Walk(port.State(), name, ConfigOrder[k..]) == Walk(old(port.State()), name, ConfigOrder)
    {
      ghost var before := port.State();
      assert Walk(before, name, ConfigOrder[k..]) == TryFirst(before, name, ConfigOrder[k..]);
      assert ConfigOrder[k..][1..] == ConfigOrder[k + 1..];
      var config := ConfigOrder[k];
      var ok := port.Open(config);
      if ok {
        var verdict := TestCommunication(port);
        if verdict.Success? {
          return Success(config);
        }
        port.Close();
      }
      k := k + 1;
    }
    r := Failure(AllConfigsFailed(name));
  }

  /** What probing one port yields: a link at a configuration, or the last error (none when no
      attempt was made). */
  datatype PortOutcome = Connected(config: LinkConfig) | NotConnected(lastError: Option<ScaleError>)

  /** The retry wrapper from attempt `attempt` (counted from 1) up to `maxRetries`, each attempt
      a full walk over `configs` (always `ConfigOrder` in the system). */
  function RetryFrom(s: PortState, name: string, configs: seq<LinkConfig>, attempt: nat, maxRetries: int,
                     lastError: Option<ScaleError>): (p: (PortOutcome, PortState))
    requires attempt >= 1 && !s.isOpen
    ensures p.1.isOpen <==> p.0.Connected?
    decreases maxRetries - attempt
  {
    if attempt > maxRetries then (NotConnected(lastError), s)
    else
      var (r, s1) := Walk(s, name, configs);
      if r.Success? then (Connected(r.value), s1)
      else RetryFrom(s1, name, configs, attempt + 1, maxRetries, Some(r.error))
  }

  /** The walks still allowed from attempt `attempt`. */
  function Rounds(attempt: nat, maxRetries: int): nat {
    if maxRetries >= attempt then maxRetries - attempt + 1 else 0
  }

  /** `n` walks over `configs`, back to back. */
  function Repeat(configs: seq<LinkConfig>, n: nat): (r: seq<LinkConfig>)
    ensures |r| == n * |configs|
  {
    if n == 0 then [] else configs + Repeat(configs, n - 1)
  }

  /** What the retries may end with, starting from the open calls `before`, when `all` lists
      the open calls of every allowed walk: a prefix of `all` was opened, a connection being
      the configuration opened last, and without connection every allowed walk was made. */
  predicate RetryShape(before: seq<LinkConfig>, p: (PortOutcome, PortState), all: seq<LinkConfig>) {
    var (o, after) := (p.0, p.1.attempts);
    && OpenedInOrder(before, after, all)
    && (o.Connected? ==> |after| > |before| && o.config == after[|after| - 1])
    && (o.NotConnected? ==> after == before + all)
  }

  /** A walk that opened all of `configs` followed by some of `rest` opened some of both. */
  lemma OpenedAll(before: seq<LinkConfig>, middle: seq<LinkConfig>, after: seq<LinkConfig>,
                  configs: seq<LinkConfig>, rest: seq<LinkConfig>)
    requires middle == before + configs && OpenedInOrder(middle, after, rest)
    ensures OpenedInOrder(before, after, configs + rest)
    ensures after == middle + rest ==> after == before + (configs + rest)
  {
    var n := |after| - |middle|;
    assert (configs + rest)[..|configs| + n] == configs + rest[..n];
  }

  /** A single walk's open calls are a prefix of the open calls of all the walks allowed. */
  lemma OpenedSome(before: seq<LinkConfig>, after: seq<LinkConfig>, configs: seq<LinkConfig>, rest: seq<LinkConfig>)
    requires OpenedInOrder(before, after, configs)
    ensures OpenedInOrder(before, after, configs + rest)
  {
    var n := |after| - |before|;
    assert (configs + rest)[..n] == configs[..n];
  }

  /** The retries open the configurations walk after walk, in order; a connection is the
      configuration opened last, and without one all `Rounds` walks were made in full. */
  lemma {:induction false} RetryOrder(s: PortState, name: string, configs: seq<LinkConfig>, attempt: nat, maxRetries: int,
                                      lastError: Option<ScaleError>)
    requires attempt >= 1 && !s.isOpen
    ensures RetryShape(s.attempts, RetryFrom(s, name, configs, attempt, maxRetries, lastError),
                       Repeat(configs, Rounds(attempt, maxRetries)))
    decreases maxRetries - attempt
  {
    if attempt <= maxRetries {
      var w := Walk(s, name, configs);
      var rest := Repeat(configs, Rounds(attempt + 1, maxRetries));
      assert Repeat(configs, Rounds(attempt, maxRetries)) == configs + rest;
      WalkOrder(s, name, configs);
      if w.0.Success? {
        OpenedSome(s.attempts, w.1.attempts, configs, rest);
      } else {
        var p := RetryFrom(w.1, name, configs, attempt + 1, maxRetries, Some(w.0.error));
        RetryOrder(w.1, name, configs, attempt + 1, maxRetries, Some(w.0.error));
        OpenedAll(s.attempts, w.1.attempts, p.1.attempts, configs, rest);
      }
    }
  }

  /** Without success the error reported is the last walk's, or the given one when no walk was
      allowed; a success is always one of the configurations. */
  lemma {:induction false} RetryError(s: PortState, name: string, configs: seq<LinkConfig>, attempt: nat, maxRetries: int,
                                      lastError: Option<ScaleError>)
    requires attempt >= 1 && !s.isOpen
    ensures var r := RetryFrom(s, name, configs, attempt, maxRetries, lastError).0;
      && (r.Connected? ==> r.config in configs)
      && (r.NotConnected? ==>
            r.lastError == if Rounds(attempt, maxRetries) == 0 then lastError else Some(AllConfigsFailed(name)))
    decreases maxRetries - attempt
  {
    if attempt <= maxRetries {
      var w := Walk(s, name, configs);
      if w.0.Failure? {
        RetryError(w.1, name, configs, attempt + 1, maxRetries, Some(AllConfigsFailed(name)));
      }
    }
  }

  /** `testPortWithContext`: at most `maxRetries` walks over the four configurations, stopping
      at the first success. */
  method TestPort(port: Port, name: string, maxRetries: int) returns (outcome: PortOutcome)
    requires !port.isOpen
    modifies port
    ensures (outcome, port.State()) == RetryFrom(old(port.State()), name, ConfigOrder, 1, maxRetries, None)
  {
    var lastError: Option<ScaleError> := None;
    var attempt := 1;
    while attempt <= maxRetries
      invariant attempt >= 1 && !port.isOpen
      invariant RetryFrom(port.State(), name, ConfigOrder, attempt, maxRetries, lastError)
             == RetryFrom(old(port.State()), name, ConfigOrder, 1, maxRetries, None)
      decreases maxRetries - attempt
    {
      var r := TestPortInternal(port, name);
      if r.Success? {
        return Connected(r.value);
      }
      lastError := Some(r.error);
      attempt := attempt + 1;
    }
    outcome := NotConnected(lastError);
  }
}
