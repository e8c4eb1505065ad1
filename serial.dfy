/** An abstract serial port: it records what is written, answers reads from a given script of
    read results, and opens or refuses to open according to a given script of outcomes. */
module Serial {
  import opened Bytes

  /** A read either succeeds, times out, or fails with some other I/O error. */
  datatype ReadError = NoError | Timeout | Fault

  /** What one read call returns: the bytes it delivered and its error. */
  datatype ReadResult = ReadResult(data: seq<byte>, err: ReadError)

  datatype Parity = NoParity | EvenParity

  /** Baud rate, data bits, parity and stop bits of an open link, with the name the logs use. */
  datatype LinkConfig = LinkConfig(baud: nat, dataBits: nat, parity: Parity, stopBits: nat, name: string)

  /** Everything about a port that the system can observe or change. `attempts` lists the
      configuration of every open call made so far, in order. */
  datatype PortState = PortState(
    isOpen: bool,
    written: seq<byte>,
    pending: seq<ReadResult>,
    attempts: seq<LinkConfig>,
    openScript: seq<bool>)

  /** All bytes still to be delivered, in order. */
  function PendingBytes(pending: seq<ReadResult>): seq<byte> {
    if pending == [] then [] else pending[0].data + PendingBytes(pending[1..])
  }

  /** A measure that every read of a non-empty script decreases. */
  function Size(pending: seq<ReadResult>): nat {
    if pending == [] then 0 else |pending[0].data| + 1 + Size(pending[1..])
  }

  /** One read into a buffer of `max` bytes. The next scripted result is delivered whole when it
      fits; otherwise the buffer is filled and the rest stays queued. An exhausted script is a
      silent line: zero bytes and no error. */
  function ReadOn(s: PortState, max: nat): (p: (ReadResult, PortState))
    requires max > 0
    ensures p.1 == s.(pending := p.1.pending)
    ensures |p.0.data| <= max
    ensures s.pending == [] ==> p == (ReadResult([], NoError), s)
    ensures s.pending != [] ==> Size(p.1.pending) < Size(s.pending)
  {
    if s.pending == [] then (ReadResult([], NoError), s)
    else
      var head := s.pending[0];
      if |head.data| <= max then (head, s.(pending := s.pending[1..]))
      else
        var rest := [ReadResult(head.data[max..], head.err)] + s.pending[1..];
        assert rest[1..] == s.pending[1..];
        (ReadResult(head.data[..max], NoError), s.(pending := rest))
  }

  /** A read loses and invents nothing: the bytes delivered followed by the bytes still pending
      are the bytes that were pending. */
  lemma ReadConserves(s: PortState, max: nat)
    requires max > 0
    ensures var (r, t) := ReadOn(s, max);
      r.data + PendingBytes(t.pending) == PendingBytes(s.pending)
  {
    if s.pending != [] {
      var head := s.pending[0];
      if |head.data| > max {
        var rest := ReadOn(s, max).1.pending;
        assert rest[1..] == s.pending[1..];
        assert head.data[..max] + head.data[max..] == head.data;
      }
    }
  }

  function WriteOn(s: PortState, bytes: seq<byte>): PortState {
    s.(written := s.written + bytes)
  }

  /** An open call: it succeeds when the port is closed and the next scripted outcome is a
      success; an exhausted script refuses. Every call is recorded in `attempts`. */
  function OpenOn(s: PortState, config: LinkConfig): (p: (bool, PortState))
    ensures p.0 <==> !s.isOpen && s.openScript != [] && s.openScript[0]
    ensures p.1.isOpen == (s.isOpen || p.0)
    ensures p.1.attempts == s.attempts + [config]
    ensures p.1.written == s.written && p.1.pending == s.pending
  {
    var ok := !s.isOpen && s.openScript != [] && s.openScript[0];
    var script := if s.openScript == [] then [] else s.openScript[1..];
    (ok, s.(isOpen := s.isOpen || ok, attempts := s.attempts + [config], openScript := script))
  }

  function CloseOn(s: PortState): PortState {
    s.(isOpen := false)
  }

  /** The port after draining stale input: reads into a `max`-byte buffer until a read errors
      or delivers nothing. */
  function Flushed(s: PortState, max: nat): (t: PortState)
    requires max > 0
    ensures t == s.(pending := t.pending)
    decreases Size(s.pending)
  {
    var (r, s1) := ReadOn(s, max);
    if r.err != NoError || |r.data| == 0 then s1 else Flushed(s1, max)
  }

  /** Results that deliver bytes without an error are all stale input to a flush. */
  predicate AllCleanData(pending: seq<ReadResult>) {
    forall k | 0 <= k < |pending| :: pending[k].err == NoError && |pending[k].data| > 0
  }

  /** Flushing a line that only ever delivered bytes without error discards all of them. */
  lemma {:induction false} FlushDiscardsCleanInput(s: PortState, max: nat)
    requires max > 0 && AllCleanData(s.pending)
    ensures Flushed(s, max).pending == []
    decreases Size(s.pending)
  {
    var (r, s1) := ReadOn(s, max);
    if s.pending != [] {
      var head := s.pending[0];
      if |head.data| > max {
        assert s1.pending[0] == ReadResult(head.data[max..], head.err);
        assert forall k | 1 <= k < |s1.pending| :: s1.pending[k] == s.pending[k];
      } else {
        assert forall k | 0 <= k < |s1.pending| :: s1.pending[k] == s.pending[k + 1];
      }
      FlushDiscardsCleanInput(s1, max);
    }
  }

  /** A flush never invents input: what remains is a suffix of what was pending. */
  lemma {:induction false} FlushKeepsSuffix(s: PortState, max: nat)
    requires max > 0
    ensures var all, rest := PendingBytes(s.pending), PendingBytes(Flushed(s, max).pending);
      |rest| <= |all| && rest == all[|all| - |rest|..]
    decreases Size(s.pending)
  {
    var (r, s1) := ReadOn(s, max);
    var all := PendingBytes(s.pending);
    var mid := PendingBytes(s1.pending);
    ReadConserves(s, max);
    assert mid == all[|r.data|..];
    if r.err == NoError && |r.data| > 0 {
      FlushKeepsSuffix(s1, max);
      var rest := PendingBytes(Flushed(s1, max).pending);
      assert rest == mid[|mid| - |rest|..];
      assert mid[|mid| - |rest|..] == all[|all| - |rest|..];
    }
  }

  class Port {
    var isOpen: bool
    var written: seq<byte>
    var pending: seq<ReadResult>
    var attempts: seq<LinkConfig>
    var openScript: seq<bool>

    function State(): PortState
      reads this
    {
      PortState(isOpen, written, pending, attempts, openScript)
    }

    /** A port whose reads will return `replies` and whose open calls will see `openScript`. */
    constructor (isOpen: bool, replies: seq<ReadResult>, openScript: seq<bool>)
      ensures State() == PortState(isOpen, [], replies, [], openScript)
    {
      this.isOpen := isOpen;
      this.written := [];
      this.pending := replies;
      this.attempts := [];
      this.openScript := openScript;
    }

    method Read(max: nat) returns (data: seq<byte>, err: ReadError)
      requires max > 0
      modifies this
      ensures (ReadResult(data, err), State()) == ReadOn(old(State()), max)
    {
      var p := ReadOn(State(), max);
      data, err := p.0.data, p.0.err;
      pending := p.1.pending;
    }

    method Write(bytes: seq<byte>)
      modifies this
      ensures State() == WriteOn(old(State()), bytes)
    {
      written := written + bytes;
    }

    method Open(config: LinkConfig) returns (ok: bool)
      modifies this
      ensures (ok, State()) == OpenOn(old(State()), config)
    {
      ok := !isOpen && openScript != [] && openScript[0];
      isOpen := isOpen || ok;
      attempts := attempts + [config];
      openScript := if openScript == [] then [] else openScript[1..];
    }

    method Close()
      modifies this
      ensures State() == CloseOn(old(State()))
    {
      isOpen := false;
    }
  }

  /** Drains stale input (the `flush` helper of the dimension sensor and the buffer clearing
      loop of the scale probe). */
  method Flush(port: Port, max: nat)
    requires max > 0
    modifies port
    ensures port.State() == Flushed(old(port.State()), max)
  {
    var done := false;
    while !done
      invariant done ==> port.State() == Flushed(old(port.State()), max)
      invariant !done ==> Flushed(port.State(), max) == Flushed(old(port.State()), max)
      decreases if done then 0 else Size(port.pending) + 1
    {
      var data, err := port.Read(max);
      if err != NoError || |data| == 0 {
        done := true;
      }
    }
  }
}
