/** How raw bytes from the devices are rendered in the log: printable text with escapes, the
    sensor frames decoded by name, and a hexadecimal dump when neither applies. */
module LogFormat {
  import opened Wrappers
  import opened Bytes
  import opened Strings
  import opened DimensionCodec

  const ConnectedText := "Подключен"
  const DisconnectedText := "Отключен"
  const NoData := "нет данных"
  const Undecodable := "Не удалось декодировать данные сенсоров"

  /** `BoolToString`: the connection state as the status page shows it. */
  function BoolToString(b: bool): (s: string)
    ensures s == ConnectedText <==> b
    ensures s == DisconnectedText <==> !b
  {
    if b then ConnectedText else DisconnectedText
  }

  const RightSensorId: byte := 0xBB

  /** `decodeSensorID`: the name of a sensor id, or `SENSOR_0xHH` for an unknown one. */
  function SensorName(id: byte): (name: string)
    ensures id == WidthId <==> name == "WIDTH"
    ensures id == HeightId <==> name == "HEIGHT"
    ensures id == LengthId <==> name == "LENGTH"
    ensures id == RightSensorId <==> name == "Right Sensor"
    ensures id !in [WidthId, HeightId, LengthId, RightSensorId] <==>
      |name| == 11 && name[..9] == "SENSOR_0x" && ParseHex2(name[9..]) == Some(id)
  {
    if id == WidthId then "WIDTH"
    else if id == HeightId then "HEIGHT"
    else if id == LengthId then "LENGTH"
    else if id == RightSensorId then "Right Sensor"
    else
      Hex2RoundTrip(id);
      var name := "SENSOR_0x" + Hex2(id);
      assert name[9..] == Hex2(id);
      name
  }

  /** Different ids get different names, so a logged name identifies its sensor. */
  lemma SensorNameInjective(a: byte, b: byte)
    requires a != b
    ensures SensorName(a) != SensorName(b)
  {
    if (a == HeightId && b == LengthId) || (a == LengthId && b == HeightId) {
      assert SensorName(a)[0] != SensorName(b)[0];
    }
  }

  /** A byte as `0xHH`. */
  function HexItem(b: byte): string {
    "0x" + Hex2(b)
  }

  /** The `0xHH` rendering of every byte, in order. */
  function HexItems(data: seq<byte>): (items: seq<string>)
    ensures |items| == |data| && forall k | 0 <= k < |data| :: items[k] == HexItem(data[k])
  {
    if data == [] then [] else HexItems(data[..|data| - 1]) + [HexItem(data[|data| - 1])]
  }

  /** `[0xHH 0xHH ...]`. */
  function HexList(data: seq<byte>): string {
    "[" + Join(HexItems(data), " ") + "]"
  }

  /** One 4-byte block of `DecodeArduinoSensorData`: `NAME=value` for a well-formed frame, the
      bracketed bytes otherwise. */
  function Entry(block: seq<byte>): string
    requires |block| == 4
  {
    if block[0] == FrameStart && block[3] == FrameEnd then SensorName(block[1]) + "=" + Decimal(block[2])
    else HexList(block)
  }

  /** An entry is bracketed exactly when its block is not a well-formed frame. */
  lemma EntryBracketedIff(block: seq<byte>)
    requires |block| == 4
    ensures |Entry(block)| > 0
    ensures Entry(block)[0] == '[' <==> !(block[0] == FrameStart && block[3] == FrameEnd)
  {
    if block[0] == FrameStart && block[3] == FrameEnd {
      var name := SensorName(block[1]);
      assert Entry(block)[0] == name[0];
    }
  }

  /** The `k`-th aligned block. */
  function Block(data: seq<byte>, k: nat): seq<byte>
    requires 4 * k + 4 <= |data|
  {
    data[4 * k..4 * k + 4]
  }

  /** The entries of the first `n` aligned blocks: entry `k` renders block `k`. */
  function EntriesUpTo(data: seq<byte>, n: nat): (entries: seq<string>)
    requires 4 * n <= |data|
    ensures |entries| == n && forall k | 0 <= k < n :: entries[k] == Entry(Block(data, k))
  {
    if n == 0 then [] else EntriesUpTo(data, n - 1) + [Entry(Block(data, n - 1))]
  }

  /** One entry per complete aligned block; trailing bytes have none. */
  function Entries(data: seq<byte>): seq<string> {
    EntriesUpTo(data, |data| / 4)
  }

  /** The entries depend only on the complete blocks: bytes after them are ignored. */
  lemma {:induction false} EntriesIgnoreTail(data: seq<byte>, n: nat, m: nat)
    requires 4 * n <= m <= |data|
    ensures EntriesUpTo(data, n) == EntriesUpTo(data[..m], n)
  {
    if n > 0 {
      EntriesIgnoreTail(data, n - 1, m);
      assert Block(data, n - 1) == Block(data[..m], n - 1);
    }
  }

  /** What `DecodeArduinoSensorData` returns. */
  function SensorText(data: seq<byte>): string {
    if |data| < 4 then "Данные слишком короткие: " + Decimal(|data|) + " байт"
    else
      var entries := Entries(data);
      if |entries| > 0 then "Данные сенсоров: {" + Join(entries, ", ") + "}"
      else Undecodable
  }

  /** Short input is reported with its length; otherwise there is one entry per complete block,
      so the "could not decode" text is never produced. */
  lemma SensorTextCases(data: seq<byte>)
    ensures |data| < 4 ==> SensorText(data) == "Данные слишком короткие: " + Decimal(|data|) + " байт"
    ensures |data| >= 4 ==>
      && |Entries(data)| == |data| / 4 >= 1
      && SensorText(data) == "Данные сенсоров: {" + Join(Entries(data), ", ") + "}"
    ensures SensorText(data) != Undecodable
  {
    if |data| >= 4 {
      var t := SensorText(data);
      assert t[0] != Undecodable[0];
    }
  }

  /** `DecodeArduinoSensorData`: walks the aligned blocks, appending one entry each. */
  method DecodeArduinoSensorData(data: seq<byte>) returns (s: string)
    ensures s == SensorText(data)
  {
    if |data| < 4 {
      return "Данные слишком короткие: " + Decimal(|data|) + " байт";
    }
    var result: seq<string> := [];
    var i := 0;
    ghost var k := 0;
    while i < |data| - 3
      invariant i == 4 * k && i <= |data| && result == EntriesUpTo(data, k)
    {
      var block := data[i..i + 4];
      assert block == Block(data, k);
      if block[0] == FrameStart && block[3] == FrameEnd {
        result := result + [SensorName(block[1]) + "=" + Decimal(block[2])];
      } else {
        result := result + ["[" + Join(HexItems(block), " ") + "]"];
      }
      i := i + 4;
      k := k + 1;
    }
    assert k == |data| / 4;
    if |result| > 0 {
      return "Данные сенсоров: {" + Join(result, ", ") + "}";
    }
    return Undecodable;
  }

  /** A byte the text part shows as itself or as a one-letter escape. */
  predicate IsText(b: byte) {
    32 <= b <= 126 || b == 10 || b == 13 || b == 9
  }

  /** How one byte appears in the text part: printable ASCII as itself, newline, carriage
      return and tab as `\n`, `\r`, `\t`, anything else as `\xHH`. */
  function Escape(b: byte): string {
    if 32 <= b <= 126 then [b as char]
    else if b == 10 then "\\n"
    else if b == 13 then "\\r"
    else if b == 9 then "\\t"
    else "\\x" + Hex2(b)
  }

  /** The text part before quoting: every byte escaped, in order. */
  function EscapeAll(data: seq<byte>): string {
    if data == [] then [] else EscapeAll(data[..|data| - 1]) + Escape(data[|data| - 1])
  }

  lemma {:induction false} EscapeAllAppend(a: seq<byte>, b: seq<byte>)
    ensures EscapeAll(a + b) == EscapeAll(a) + EscapeAll(b)
    decreases |b|
  {
    if b != [] {
      var init := b[..|b| - 1];
      assert (a + b)[..|a + b| - 1] == a + init;
      assert (a + b)[|a + b| - 1] == b[|b| - 1];
      EscapeAllAppend(a, init);
      assert EscapeAll(a + b) == EscapeAll(a) + EscapeAll(init) + Escape(b[|b| - 1]);
    } else {
      assert a + b == a;
    }
  }

  /** Reads back the byte escaped at the start of `s`, with the number of characters it took. */
  function UnescapeOne(s: string): (r: Option<(byte, nat)>)
    requires s != []
    ensures r.Some? ==> 1 <= r.value.1 <= |s|
  {
    if s[0] != '\\' then
      if s[0] as int < 256 then Some((s[0] as int as byte, 1)) else None
    else if |s| >= 2 && s[1] == 'n' then Some((10, 2))
    else if |s| >= 2 && s[1] == 'r' then Some((13, 2))
    else if |s| >= 2 && s[1] == 't' then Some((9, 2))
    else if |s| >= 4 && s[1] == 'x' && ParseHex2(s[2..4]).Some? then Some((ParseHex2(s[2..4]).value, 4))
    else None
  }

  /** Reads a whole text part back into bytes. */
  function Unescape(s: string): Option<seq<byte>>
    decreases |s|
  {
    if s == [] then Some([])
    else match UnescapeOne(s)
      case None => None
      case Some((b, width)) =>
        match Unescape(s[width..])
        case None => None
        case Some(rest) => Some([b] + rest)
  }

  /** Every byte except the backslash is read back from its escape. */
  lemma UnescapeOneEscape(b: byte, rest: string)
    requires b != 92
    ensures UnescapeOne(Escape(b) + rest) == Some((b, |Escape(b)|))
  {
    var s := Escape(b) + rest;
    if !(32 <= b <= 126) && b != 10 && b != 13 && b != 9 {
      assert s[2..4] == Hex2(b);
      Hex2RoundTrip(b);
    }
  }

  lemma EscapeAllSingle(b: byte)
    ensures EscapeAll([b]) == Escape(b)
  {
    assert [b][..0] == [];
  }

  /** Reading back an escaped byte followed by more text gives the byte followed by what the
      rest reads back as. */
  lemma UnescapeFirst(b: byte, rest: string)
    requires b != 92
    ensures Unescape(Escape(b) + rest) ==
      if Unescape(rest).Some? then Some([b] + Unescape(rest).value) else None
  {
    var s := Escape(b) + rest;
    UnescapeOneEscape(b, rest);
    assert s[|Escape(b)|..] == rest;
  }

  /** Escaping loses nothing on data without a backslash: the text part reads back as the
      bytes it was made from. */
  lemma {:induction false} EscapeRoundTrip(data: seq<byte>)
    requires forall k | 0 <= k < |data| :: data[k] != 92
    ensures Unescape(EscapeAll(data)) == Some(data)
    decreases |data|
  {
    if data != [] {
      var rest := data[1..];
      EscapeAllAppend([data[0]], rest);
      assert [data[0]] + rest == data;
      EscapeAllSingle(data[0]);
      EscapeRoundTrip(rest);
      UnescapeFirst(data[0], EscapeAll(rest));
    }
  }

  /** A backslash is copied as it is, so on data containing one the text part can be
      ambiguous: the byte 0x01 and the four bytes of the text `\x01` look the same. */
  lemma BackslashAmbiguous()
    ensures EscapeAll([1]) == EscapeAll([92, 120, 48, 49])
  {
    var text: seq<byte> := [92, 120, 48, 49];
    assert text[..3] == [92, 120, 48] && text[..2] == [92, 120] && text[..1] == [92];
    assert text[..3][..2] == text[..2] && text[..2][..1] == text[..1];
    assert EscapeAll(text[..1]) == "\\" by {
      EscapeAllSingle(92);
    }
    assert EscapeAll(text[..2]) == "\\x";
    assert EscapeAll(text[..3]) == "\\x0";
    assert EscapeAll(text) == "\\x01";
    EscapeAllSingle(1);
    assert Hex2(1) == "01";
  }

  /** Some offset starts a well-formed frame (`hasArduinoBlocks`). */
  predicate HasFrame(data: seq<byte>) {
    exists i | 0 <= i < |data| :: FrameAt(data, i)
  }

  /** Some byte shows as text (`hasText`). */
  predicate HasText(data: seq<byte>) {
    exists i | 0 <= i < |data| :: IsText(data[i])
  }

  /** The frame bytes are printable, so data with a frame always has text. */
  lemma FrameMeansText(data: seq<byte>)
    requires HasFrame(data)
    ensures HasText(data)
  {
    var i :| 0 <= i < |data| && FrameAt(data, i);
    assert IsText(data[i]);
  }

  /** Whether the escaping loop sets byte `i` aside as frame data: a byte shown as `\xHH` that
      is a frame marker or sits next to one. */
  predicate SetAside(data: seq<byte>, i: nat)
    requires i < |data|
  {
    && !IsText(data[i])
    && (|| data[i] == FrameStart || data[i] == FrameEnd
        || (i > 0 && data[i - 1] == FrameStart)
        || (i < |data| - 1 && data[i + 1] == FrameEnd))
  }

  /** `binaryPart` after the first `n` bytes; nothing is set aside without a frame. */
  function BinaryPart(data: seq<byte>, blocks: bool, n: nat): seq<byte>
    requires n <= |data|
  {
    if n == 0 then []
    else BinaryPart(data, blocks, n - 1) + (if blocks && SetAside(data, n - 1) then [data[n - 1]] else [])
  }

  /** Only bytes that do not show as text are ever set aside. */
  lemma {:induction false} BinaryPartNotText(data: seq<byte>, blocks: bool, n: nat)
    requires n <= |data|
    ensures forall k | 0 <= k < |BinaryPart(data, blocks, n)| :: !IsText(BinaryPart(data, blocks, n)[k])
  {
    if n > 0 {
      BinaryPartNotText(data, blocks, n - 1);
    }
  }

  /** The offsets the frame scans look at: `0 <= i < len(data) - 3`. */
  function ScanLimit(data: seq<byte>): nat {
    if |data| >= 3 then |data| - 3 else 0
  }

  /** `structuredBlocks` after scanning the first `n` offsets: the four bytes at every offset
      where a frame starts, overlapping ones included. */
  function StructuredBlocks(data: seq<byte>, n: nat): seq<byte>
    requires n <= ScanLimit(data)
  {
    if n == 0 then []
    else StructuredBlocks(data, n - 1) + (if FrameAt(data, n - 1) then data[n - 1..n + 3] else [])
  }

  /** A sequence of whole, well-formed frames. */
  predicate AllFrames(s: seq<byte>) {
    |s| % 4 == 0 && forall k | 0 <= k < |s| / 4 :: FrameAt(s, 4 * k)
  }

  lemma AppendFrame(s: seq<byte>, frame: seq<byte>)
    requires AllFrames(s) && |frame| == 4 && FrameAt(frame, 0)
    ensures AllFrames(s + frame)
  {
    var t := s + frame;
    assert |t| / 4 == |s| / 4 + 1;
    forall k | 0 <= k < |t| / 4
      ensures FrameAt(t, 4 * k)
    {
      if k < |s| / 4 {
        assert FrameAt(s, 4 * k);
      } else {
        assert 4 * k == |s|;
      }
    }
  }

  /** The collected blocks are whole frames, one for each offset where a frame starts; there
      are some exactly when the data has a frame. */
  lemma {:induction false} StructuredBlocksAreFrames(data: seq<byte>, n: nat)
    requires n <= ScanLimit(data)
    ensures AllFrames(StructuredBlocks(data, n))
    ensures |StructuredBlocks(data, n)| > 0 <==> exists i | 0 <= i < n :: FrameAt(data, i)
  {
    if n > 0 {
      var before := StructuredBlocks(data, n - 1);
      StructuredBlocksAreFrames(data, n - 1);
      if FrameAt(data, n - 1) {
        AppendFrame(before, data[n - 1..n + 3]);
      } else {
        assert StructuredBlocks(data, n) == before;
      }
    }
  }

  /** Every entry decoded from the collected blocks is a `NAME=value` entry. */
  lemma DecodedEntriesNamed(data: seq<byte>)
    ensures var entries := Entries(StructuredBlocks(data, ScanLimit(data)));
      forall k | 0 <= k < |entries| :: |entries[k]| > 0 && entries[k][0] != '['
  {
    var blocks := StructuredBlocks(data, ScanLimit(data));
    StructuredBlocksAreFrames(data, ScanLimit(data));
    forall k | 0 <= k < |blocks| / 4
      ensures |Entries(blocks)[k]| > 0 && Entries(blocks)[k][0] != '['
    {
      assert FrameAt(blocks, 4 * k);
      EntryBracketedIff(Block(blocks, k));
    }
  }

  /** Whether the sensor decoding is appended. */
  predicate Decoded(data: seq<byte>) {
    var blocks := StructuredBlocks(data, ScanLimit(data));
    HasFrame(data) && |BinaryPart(data, true, |data|)| >= 4 && |blocks| >= 4
  }

  /** The quoted text part, present when some byte shows as text. */
  function Quoted(data: seq<byte>): string {
    if HasText(data) then "\"" + EscapeAll(data) + "\"" else ""
  }

  /** The decoded frames, when they are appended. */
  function DecodedPart(data: seq<byte>): Option<string> {
    if Decoded(data) then Some(SensorText(StructuredBlocks(data, ScanLimit(data)))) else None
  }

  /** The text part and the decoded frames, joined by ` + ` when there are both. */
  function Combine(quoted: string, decoded: Option<string>): string {
    match decoded
    case None => quoted
    case Some(d) => if quoted != "" then quoted + " + " + d else d
  }

  /** The rendering before the length suffix; the hexadecimal dump when there is nothing else. */
  function LogBody(data: seq<byte>): string {
    var result := Combine(Quoted(data), DecodedPart(data));
    if result == "" then HexList(data) else result
  }

  /** ` (N байт)`. */
  function LengthSuffix(n: nat): string {
    " (" + Decimal(n) + " байт)"
  }

  /** What `FormatDataForLog` returns. */
  function LogText(data: seq<byte>): string {
    if |data| == 0 then NoData else LogBody(data) + LengthSuffix(|data|)
  }

  /** "нет данных" is the rendering of empty input and of nothing else; any other rendering ends
      with the input length. */
  lemma LogTextEnds(data: seq<byte>)
    ensures LogText(data) == NoData <==> |data| == 0
    ensures |data| > 0 ==> HasSuffix(LogText(data), LengthSuffix(|data|))
  {
    if |data| > 0 {
      var r := LogText(data);
      var suffix := LengthSuffix(|data|);
      assert r[|r| - |suffix|..] == suffix;
      assert r[|r| - 1] == ')';
    }
  }

  /** With some byte shown as text the rendering opens with the quoted text. */
  lemma QuotedFirst(data: seq<byte>)
    requires |data| > 0 && HasText(data)
    ensures HasPrefix(LogText(data), "\"" + EscapeAll(data) + "\"")
  {
    var quoted := Quoted(data);
    var rest := match DecodedPart(data) case None => "" case Some(d) => " + " + d;
    assert LogBody(data) == quoted + rest;
    PrefixOfPrefix(quoted, rest, LengthSuffix(|data|));
  }

  lemma PrefixOfPrefix(a: string, b: string, c: string)
    ensures HasPrefix(a + b + c, a)
  {
    assert (a + b + c)[..|a|] == a;
  }

  /** With no byte shown as text the rendering is the hexadecimal dump alone: without text there
      is no frame, so nothing is decoded. */
  lemma HexWithoutText(data: seq<byte>)
    requires |data| > 0 && !HasText(data)
    ensures LogText(data) == HexList(data) + LengthSuffix(|data|)
  {
    if HasFrame(data) {
      FrameMeansText(data);
    }
  }

  /** Printable text alone is rendered quoted, with no decoding appended, whatever frames it
      contains. */
  lemma PrintableVerbatim(data: seq<byte>)
    requires |data| > 0 && forall k | 0 <= k < |data| :: 32 <= data[k] <= 126
    ensures LogText(data) == "\"" + EscapeAll(data) + "\"" + LengthSuffix(|data|)
  {
    assert IsText(data[0]);
    BinaryPartEmpty(data, |data|);
  }

  lemma {:induction false} BinaryPartEmpty(data: seq<byte>, n: nat)
    requires n <= |data| && forall k | 0 <= k < |data| :: 32 <= data[k] <= 126
    ensures BinaryPart(data, true, n) == []
  {
    if n > 0 {
      BinaryPartEmpty(data, n - 1);
    }
  }

  /** The first loop of `FormatDataForLog`: is there a frame at any offset? */
  method ScanForFrame(data: seq<byte>) returns (found: bool)
    ensures found == HasFrame(data)
  {
    found := false;
    var i := 0;
    while i < |data| - 3
      invariant 0 <= i && (|data| >= 3 ==> i <= |data| - 3)
      invariant forall j | 0 <= j < i :: !FrameAt(data, j)
    {
      if data[i] == FrameStart && data[i + 3] == FrameEnd {
        assert FrameAt(data, i);
        found := true;
        return;
      }
      i := i + 1;
    }
  }

  /** One more byte adds its escape to the text part, and is text or not. */
  lemma EscapeStep(data: seq<byte>, i: nat)
    requires i < |data|
    ensures EscapeAll(data[..i + 1]) == EscapeAll(data[..i]) + Escape(data[i])
    ensures HasText(data[..i + 1]) <==> HasText(data[..i]) || IsText(data[i])
  {
    var prefix := data[..i + 1];
    assert prefix[..i] == data[..i];
    if HasText(data[..i]) {
      var j :| 0 <= j < i && IsText(data[..i][j]);
      assert IsText(prefix[j]);
    }
    if HasText(prefix) {
      var j :| 0 <= j < i + 1 && IsText(prefix[j]);
      if j < i {
        assert IsText(data[..i][j]);
      }
    }
    if IsText(data[i]) {
      assert IsText(prefix[i]);
    }
  }

  /** The body of the escaping loop for byte `i`: its escape, whether it shows as text, and
      whether it is set aside as frame data. */
  method EscapeByte(data: seq<byte>, i: nat, hasBlocks: bool) returns (piece: string, text: bool, aside: bool)
    requires i < |data|
    ensures piece == Escape(data[i]) && text == IsText(data[i]) && aside == (hasBlocks && SetAside(data, i))
  {
    var b := data[i];
    aside := false;
    if 32 <= b <= 126 {
      piece, text := [b as char], true;
    } else if b == 10 {
      piece, text := "\\n", true;
    } else if b == 13 {
      piece, text := "\\r", true;
    } else if b == 9 {
      piece, text := "\\t", true;
    } else {
      text := false;
      if hasBlocks && (b == FrameStart || b == FrameEnd || (i > 0 && data[i - 1] == FrameStart)
                       || (i < |data| - 1 && data[i + 1] == FrameEnd)) {
        aside := true;
        piece := "\\x" + Hex2(b);
      } else {
        piece := "\\x" + Hex2(b);
      }
    }
  }

  /** The escaping loop of `FormatDataForLog`: builds the text part, notes whether any byte
      showed as text, and, when the data has a frame, sets aside the bytes around it. */
  method EscapeBytes(data: seq<byte>, hasBlocks: bool) returns (printable: string, hasText: bool, binaryPart: seq<byte>)
    ensures printable == EscapeAll(data)
    ensures hasText == HasText(data)
    ensures binaryPart == BinaryPart(data, hasBlocks, |data|)
  {
    printable, hasText, binaryPart := "", false, [];
    var i := 0;
    while i < |data|
      invariant 0 <= i <= |data|
      invariant printable == EscapeAll(data[..i])
      invariant hasText == HasText(data[..i])
      invariant binaryPart == BinaryPart(data, hasBlocks, i)
    {
      EscapeStep(data, i);
      var piece, text, aside := EscapeByte(data, i, hasBlocks);
      printable := printable + piece;
      if text {
        hasText := true;
      }
      if aside {
        binaryPart := binaryPart + [data[i]];
      }
      i := i + 1;
    }
    assert data[..i] == data;
  }

  /** The block collecting loop of `FormatDataForLog`. */
  method CollectBlocks(data: seq<byte>) returns (blocks: seq<byte>)
    ensures blocks == StructuredBlocks(data, ScanLimit(data))
  {
    blocks := [];
    var i := 0;
    while i < |data| - 3
      invariant 0 <= i <= ScanLimit(data) && blocks == StructuredBlocks(data, i)
    {
      if data[i] == FrameStart && data[i + 3] == FrameEnd {
        if i + 4 <= |data| {
          blocks := blocks + data[i..i + 4];
        }
      }
      i := i + 1;
    }
  }

  /** The hexadecimal fallback of `FormatDataForLog`, filling one slot per byte. */
  method HexDump(data: seq<byte>) returns (s: string)
    ensures s == HexList(data)
  {
    var hexStr := new string[|data|](_ => "");
    var i := 0;
    while i < |data|
      invariant 0 <= i <= |data|
      invariant forall k | 0 <= k < i :: hexStr[k] == HexItem(data[k])
    {
      hexStr[i] := "0x" + Hex2(data[i]);
      i := i + 1;
    }
    assert hexStr[..] == HexItems(data);
    s := "[" + Join(hexStr[..], " ") + "]";
  }

  /** `FormatDataForLog`. */
  method FormatDataForLog(data: seq<byte>) returns (s: string)
    ensures s == LogText(data)
  {
    if |data| == 0 {
      return NoData;
    }
    var hasArduinoBlocks := ScanForFrame(data);
    var printableStr, hasText, binaryPart := EscapeBytes(data, hasArduinoBlocks);
    var result := "";
    if hasText {
      result := "\"" + printableStr + "\"";
    }
    ghost var quoted := result;
    ghost var decoded: Option<string> := None;
    if hasArduinoBlocks && |binaryPart| >= 4 {
      var structuredBlocks := CollectBlocks(data);
      if |structuredBlocks| >= 4 {
        var decodedData := DecodeArduinoSensorData(structuredBlocks);
        decoded := Some(decodedData);
        if result != "" {
          result := result + " + " + decodedData;
        } else {
          // A frame starts with the printable 0x2D, so there is always text here.
          assert false;
          result := decodedData;
        }
      }
    }
    assert quoted == Quoted(data) && decoded == DecodedPart(data);
    assert result == Combine(quoted, decoded);
    if result == "" {
      result := HexDump(data);
    }
    return result + LengthSuffix(|data|);
  }
}
