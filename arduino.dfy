/** The dimension sensor's command side: the dispatcher for operator commands, the
    dimension request and the ping health check, all over an abstract port. */
module Arduino {
  import opened Wrappers
  import opened Bytes
  import opened Strings
  import opened Config
  import opened Serial
  import opened DimensionCodec

  /** Buffer sizes of the flush, the dimension window and the ping window. */
  const FlushBuffer: nat := 256
  const DimensionsBuffer: nat := 50
  const PingBuffer: nat := 20

  /** What a command returns: a message, or the raw reply to a ping that did not contain "OK". */
  datatype Reply = Message(text: string) | UnexpectedPing(response: seq<byte>)

  /** A polling window of `polls` reads into a `max`-byte buffer, appending to `acc`: a read
      contributes its bytes only when it reports no error. */
  function GatherFrom(s: PortState, polls: nat, max: nat, acc: seq<byte>): (p: (seq<byte>, PortState))
    requires max > 0
    ensures p.1 == s.(pending := p.1.pending)
    decreases polls
  {
    if polls == 0 then (acc, s)
    else
      var (r, s1) := ReadOn(s, max);
      GatherFrom(s1, polls - 1, max, acc + if r.err == NoError && |r.data| > 0 then r.data else [])
  }

  /** The bytes a polling window gathers, and the port after it. */
  function Gather(s: PortState, polls: nat, max: nat): (seq<byte>, PortState)
    requires max > 0
  {
    GatherFrom(s, polls, max, [])
  }

  predicate FitsBuffer(pending: seq<ReadResult>, max: nat) {
    forall k | 0 <= k < |pending| :: |pending[k].data| <= max
  }

  lemma {:induction false} GatherFromLosesNothing(s: PortState, polls: nat, max: nat, acc: seq<byte>)
    requires max > 0 && polls >= |s.pending|
    requires FitsBuffer(s.pending, max)
    requires forall k | 0 <= k < |s.pending| :: s.pending[k].err == NoError
    ensures GatherFrom(s, polls, max, acc).0 == acc + PendingBytes(s.pending)
    ensures GatherFrom(s, polls, max, acc).1.pending == []
    decreases polls
  {
    if polls > 0 {
      var (r, s1) := ReadOn(s, max);
      if s.pending != [] {
        assert s1.pending == s.pending[1..];
        assert r == s.pending[0];
      }
      var got := if r.err == NoError && |r.data| > 0 then r.data else [];
      GatherFromLosesNothing(s1, polls - 1, max, acc + got);
    }
  }

  /** When every scripted reply arrives without error and fits the buffer, a window with at least
      one read per reply gathers exactly the bytes the device sent, in order. */
  lemma GatherLosesNothing(s: PortState, polls: nat, max: nat)
    requires max > 0 && polls >= |s.pending|
    requires FitsBuffer(s.pending, max)
    requires forall k | 0 <= k < |s.pending| :: s.pending[k].err == NoError
    ensures Gather(s, polls, max).0 == PendingBytes(s.pending)
    ensures Gather(s, polls, max).1.pending == []
  {
    GatherFromLosesNothing(s, polls, max, []);
  }

  /** Reads for `polls` rounds and appends what arrives without error. */
  method PollWindow(port: Port, polls: nat, max: nat) returns (allData: seq<byte>)
    requires max > 0
    modifies port
    ensures (allData, port.State()) == Gather(old(port.State()), polls, max)
  {
    allData := [];
    var k := 0;
    while k < polls
      invariant 0 <= k <= polls
      invariant GatherFrom(port.State(), polls - k, max, allData) == Gather(old(port.State()), polls, max)
    {
      ghost var before := port.State();
      var data, err := port.Read(max);
      ghost var got := if err == NoError && |data| > 0 then data else [];
      assert GatherFrom(before, polls - k, max, allData) == GatherFrom(port.State(), polls - k - 1, max, allData + got);
      if err == NoError && |data| > 0 {
        allData := allData + data;
      } else {
        assert allData + got == allData;
      }
      k := k + 1;
    }
  }

  /** `SendCommandToArduino`: writes the single opcode. */
  method SendCommand(port: Port, cmd: byte)
    modifies port
    ensures port.State() == WriteOn(old(port.State()), [cmd])
  {
    port.Write([cmd]);
  }

  /** The port after a dimension request: flushed, the request written, the window read. */
  function AfterDimensionRequest(s: PortState, polls: nat): (seq<byte>, PortState) {
    Gather(WriteOn(Flushed(s, FlushBuffer), [CmdGetDimensions]), polls, DimensionsBuffer)
  }

  /** `GetDimensionsFromArduino`, with the 600 ms window given as a number of reads. */
  method GetDimensions(port: Port, polls: nat) returns (d: Dimensions)
    modifies port
    ensures var (data, s) := AfterDimensionRequest(old(port.State()), polls);
      port.State() == s && d == DimensionsFromReply(data)
  {
    Flush(port, FlushBuffer);
    port.Write([CmdGetDimensions]);
    var allData := PollWindow(port, polls, DimensionsBuffer);
    d := DecodeDimensions(allData);
  }

  /** The reply contains the two bytes "OK" somewhere. */
  predicate ContainsOK(data: seq<byte>) {
    exists i | 0 <= i < |data| - 1 :: data[i] == 'O' as int && data[i + 1] == 'K' as int
  }

  const NoAnswer := "Нет ответа от Arduino"
  const AnsweredOK := "Arduino ответил: OK"

  /** The classification of the ping branch. */
  function PingReply(allData: seq<byte>): Reply {
    if |allData| == 0 then Message(NoAnswer)
    else if ContainsOK(allData) then Message(AnsweredOK)
    else UnexpectedPing(allData)
  }

  /** The three outcomes of a ping are told apart exactly by "empty" and "contains OK". */
  lemma PingClassification(allData: seq<byte>)
    ensures PingReply(allData) == Message(NoAnswer) <==> |allData| == 0
    ensures PingReply(allData) == Message(AnsweredOK) <==> ContainsOK(allData)
    ensures PingReply(allData).UnexpectedPing? <==> |allData| > 0 && !ContainsOK(allData)
  {
    assert NoAnswer != AnsweredOK by { assert NoAnswer[0] != AnsweredOK[0]; }
  }

  /** The port after a ping: flushed, the opcode written, the window read. */
  function AfterPing(s: PortState, polls: nat): (seq<byte>, PortState) {
    Gather(WriteOn(Flushed(s, FlushBuffer), [CmdPing]), polls, PingBuffer)
  }

  method Ping(port: Port, polls: nat) returns (reply: Reply)
    modifies port
    ensures var (data, s) := AfterPing(old(port.State()), polls);
      port.State() == s && reply == PingReply(data)
  {
    Flush(port, FlushBuffer);
    SendCommand(port, CmdPing);
    var allData := PollWindow(port, polls, PingBuffer);
    if |allData| == 0 {
      return Message(NoAnswer);
    }
    if ContainsOK(allData) {
      reply := Message(AnsweredOK);
    } else {
      reply := UnexpectedPing(allData);
    }
  }

  /** The name of a command: the text before its first ':'. */
  function CommandName(command: string): string {
    Split(command, ':')[0]
  }

  /** The argument of a command: the text between its first and second ':', if it has a ':'. */
  function CommandArgument(command: string): Option<string> {
    var parts := Split(command, ':');
    if |parts| < 2 then None else Some(parts[1])
  }

  lemma CommandParts(command: string)
    ensures ':' !in command ==> CommandName(command) == command && CommandArgument(command) == None
    ensures ':' in command ==>
      CommandName(command) == command[..IndexOf(command, ':')] && CommandArgument(command).Some?
    ensures ':' !in CommandName(command)
  {
    SplitHead(command, ':');
  }

  /** The commands that write one opcode and answer with a fixed message. */
  function SimpleCommand(name: string): Option<(byte, string)> {
    if name == "start" then Some((CmdStart, "Команда START отправлена"))
    else if name == "reset_sensors" then Some((CmdResetSensors, "Сенсоры сброшены"))
    else if name == "led_on" then Some((CmdLedOn, "Светодиоды включены"))
    else if name == "led_off" then Some((CmdLedOff, "Светодиоды выключены"))
    else None
  }

  /** The three threshold commands: their opcode and the text before the value in the reply. */
  function LimitCommand(name: string): Option<(byte, string)> {
    if name == "set_top_max" then Some((CmdSetTopMax, "Максимальная высота установлена: "))
    else if name == "set_width_max" then Some((CmdSetWidthMax, "Максимальная ширина установлена: "))
    else if name == "set_length_max" then Some((CmdSetLengthMax, "Максимальная длина установлена: "))
    else None
  }

  const MissingValue := "Не указано значение"
  const InvalidValue := "Неверное значение (1-255)"
  const UnknownCommand := "Неизвестная команда"

  /** The argument check of the threshold commands: present, an integer, and in [1, 255]. */
  function CheckLimit(arg: Option<string>): (r: Result<byte, string>)
    ensures r.Success? <==> arg.Some? && Atoi(arg.value).Some? && 1 <= Atoi(arg.value).value <= 255
    ensures r.Success? ==> Atoi(arg.value) == Some(r.value as int)
    ensures r.Failure? ==> r.error == (if arg.None? then MissingValue else InvalidValue)
  {
    match arg
    case None => Failure(MissingValue)
    case Some(text) =>
      match Atoi(text)
      case None => Failure(InvalidValue)
      case Some(v) => if v < 1 || v > 255 then Failure(InvalidValue) else Success(v)
  }

  /** `name:n` with n from 1 to 255 in decimal passes the check with the value n. */
  lemma CheckLimitAccepts(name: string, n: nat)
    requires ':' !in name && 1 <= n <= 255
    ensures CheckLimit(CommandArgument(name + ":" + Decimal(n))) == Success(n)
  {
    SplitAtOne(name, Decimal(n), ':');
    assert name + ":" + Decimal(n) == name + [':'] + Decimal(n);
    AtoiDecimal(n);
  }

  /** `name:n` with n above 255 (as `set_top_max:300`) or n = 0 is refused as out of range. */
  lemma CheckLimitRejectsOutOfRange(name: string, n: nat)
    requires ':' !in name && (n == 0 || n > 255)
    ensures CheckLimit(CommandArgument(name + ":" + Decimal(n))) == Failure(InvalidValue)
  {
    SplitAtOne(name, Decimal(n), ':');
    assert name + ":" + Decimal(n) == name + [':'] + Decimal(n);
    if n <= MaxInt64 {
      AtoiDecimal(n);
    } else {
      AtoiRejectsHuge(n);
    }
  }

  /** A command without ':' has no value to check. */
  lemma CheckLimitNeedsValue(name: string)
    requires ':' !in name
    ensures CheckLimit(CommandArgument(name)) == Failure(MissingValue)
  {
    SplitHead(name, ':');
  }

  /** The reply to `get_dimensions`. */
  function DimensionsText(d: Dimensions): string {
    "Размеры: Д=" + Decimal(d.length) + ", Ш=" + Decimal(d.width) + ", В=" + Decimal(d.height)
  }

  predicate IsKnown(name: string) {
    SimpleCommand(name).Some? || LimitCommand(name).Some? || name == "ping" || name == "get_dimensions"
  }

  /** A threshold command: the opcode and the value are written only after the check passes. */
  function LimitOutcome(s: PortState, opcode: byte, prefix: string, arg: Option<string>): (Reply, PortState) {
    match CheckLimit(arg)
    case Success(v) => (Message(prefix + Decimal(v)), WriteOn(s, [opcode, v]))
    case Failure(e) => (Message(e), s)
  }

  method SetLimit(port: Port, opcode: byte, prefix: string, arg: Option<string>) returns (reply: Reply)
    modifies port
    ensures (reply, port.State()) == LimitOutcome(old(port.State()), opcode, prefix, arg)
  {
    if arg.None? {
      return Message(MissingValue);
    }
    var value := Atoi(arg.value);
    if value.None? || value.value < 1 || value.value > 255 {
      return Message(InvalidValue);
    }
    port.Write([opcode, value.value]);
    reply := Message(prefix + Decimal(value.value));
  }

  /** The reply to a command and the port after it. */
  function Dispatch(s: PortState, command: string, pingPolls: nat, dimensionPolls: nat): (Reply, PortState) {
    var name := CommandName(command);
    if SimpleCommand(name).Some? then
      (Message(SimpleCommand(name).value.1), WriteOn(s, [SimpleCommand(name).value.0]))
    else if name == "ping" then
      var (data, t) := AfterPing(s, pingPolls);
      (PingReply(data), t)
    else if name == "get_dimensions" then
      var (data, t) := AfterDimensionRequest(WriteOn(s, [CmdGetDimensions]), dimensionPolls);
      (Message(DimensionsText(DimensionsFromReply(data))), t)
    else if LimitCommand(name).Some? then
      LimitOutcome(s, LimitCommand(name).value.0, LimitCommand(name).value.1, CommandArgument(command))
    else (Message(UnknownCommand), s)
  }

  /** What each command does: a simple command writes its opcode and answers its fixed text; a
      threshold command writes its opcode and value only when the value checks out and otherwise
      changes nothing; a ping and a dimension request answer from their reading windows (the
      dimension opcode goes out twice, once before the flush); anything else changes nothing
      and is reported unknown. */
  lemma DispatchCases(s: PortState, command: string, pingPolls: nat, dimensionPolls: nat)
    ensures var name, (reply, t) := CommandName(command), Dispatch(s, command, pingPolls, dimensionPolls);
      && (SimpleCommand(name).Some? ==>
            t == WriteOn(s, [SimpleCommand(name).value.0]) && reply == Message(SimpleCommand(name).value.1))
      && (LimitCommand(name).Some? ==>
            var (opcode, prefix) := LimitCommand(name).value;
            match CheckLimit(CommandArgument(command))
            case Success(v) => t == WriteOn(s, [opcode, v]) && reply == Message(prefix + Decimal(v))
            case Failure(e) => t == s && reply == Message(e))
      && (name == "ping" ==> (reply, t) == (PingReply(AfterPing(s, pingPolls).0), AfterPing(s, pingPolls).1))
      && (name == "get_dimensions" ==>
            var (data, after) := AfterDimensionRequest(WriteOn(s, [CmdGetDimensions]), dimensionPolls);
            t == after && reply == Message(DimensionsText(DimensionsFromReply(data))))
      && (!IsKnown(name) ==> t == s && reply == Message(UnknownCommand))
  {
    var name := CommandName(command);
    if LimitCommand(name).Some? {
      assert SimpleCommand(name).None? && name != "ping" && name != "get_dimensions";
    }
  }

  /** A command named `set_top_max` is the height threshold command. */
  lemma TopMaxDispatch(s: PortState, command: string, pingPolls: nat, dimensionPolls: nat)
    requires CommandName(command) == "set_top_max"
    ensures Dispatch(s, command, pingPolls, dimensionPolls)
         == LimitOutcome(s, 0x90, "Максимальная высота установлена: ", CommandArgument(command))
  {
  }

  /** `set_top_max:n` writes exactly the two bytes 0x90 and n when 1 <= n <= 255 (as for
      `set_top_max:50`), and otherwise (as for `set_top_max:300`) writes nothing and is refused. */
  lemma SetTopMaxValues(s: PortState, n: nat, pingPolls: nat, dimensionPolls: nat)
    ensures var (reply, t) := Dispatch(s, "set_top_max:" + Decimal(n), pingPolls, dimensionPolls);
      if 1 <= n <= 255 then reply == Message("Максимальная высота установлена: " + Decimal(n)) && t == WriteOn(s, [0x90, n])
      else reply == Message(InvalidValue) && t == s
  {
    var command := "set_top_max:" + Decimal(n);
    assert command == "set_top_max" + [':'] + Decimal(n);
    SplitAtOne("set_top_max", Decimal(n), ':');
    TopMaxDispatch(s, command, pingPolls, dimensionPolls);
    if 1 <= n <= 255 {
      CheckLimitAccepts("set_top_max", n);
    } else {
      CheckLimitRejectsOutOfRange("set_top_max", n);
    }
  }

  /** `ExecuteArduinoCommand`, with the ping and dimension windows given as numbers of reads. */
  method ExecuteCommand(port: Port, command: string, pingPolls: nat, dimensionPolls: nat) returns (reply: Reply)
    modifies port
    ensures (reply, port.State()) == Dispatch(old(port.State()), command, pingPolls, dimensionPolls)
  {
    var parts := Split(command, ':');
    var name := parts[0];
    var arg := if |parts| < 2 then None else Some(parts[1]);
    if SimpleCommand(name).Some? {
      var (opcode, text) := SimpleCommand(name).value;
      SendCommand(port, opcode);
      reply := Message(text);
    } else if name == "ping" {
      reply := Ping(port, pingPolls);
    } else if name == "get_dimensions" {
      SendCommand(port, CmdGetDimensions);
      var d := GetDimensions(port, dimensionPolls);
      reply := Message(DimensionsText(d));
    } else if LimitCommand(name).Some? {
      var (opcode, prefix) := LimitCommand(name).value;
      reply := SetLimit(port, opcode, prefix, arg);
    } else {
      reply := Message(UnknownCommand);
    }
  }

  /** The opcodes of the simple commands, as the sensor's firmware expects them. */
  lemma SimpleCommandOpcodes()
    ensures SimpleCommand("start") == Some((0x95, "Команда START отправлена"))
    ensures SimpleCommand("reset_sensors").value.0 == 0x93
    ensures SimpleCommand("led_on").value.0 == 0x66
    ensures SimpleCommand("led_off").value.0 == 0x55
    ensures LimitCommand("set_top_max").value.0 == 0x90
    ensures LimitCommand("set_width_max").value.0 == 0x91
    ensures LimitCommand("set_length_max").value.0 == 0x92
  {
  }
}
