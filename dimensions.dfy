/** The dimension sensor's frame codec: each reading is a 4-byte frame
    `[0x2D, sensor id, value, 0x7B]`; a response is a run of such frames. */
module DimensionCodec {
  import opened Wrappers
  import opened Bytes

  const FrameStart: byte := 0x2D
  const FrameEnd: byte := 0x7B
  const FrameSize: nat := 4
  /** Bytes in the window cut at the start of a valid run. */
  const WindowLength: nat := 41
  /** Frames the pattern search inspects from a start offset, and the run it needs. */
  const MaxFrames: nat := 10
  const MinRun: nat := 8

  const WidthId: byte := 0x0B
  const HeightId: byte := 0x16
  const LengthId: byte := 0x21
  /** The frame index at which each dimension is taken. */
  const WidthFrame: nat := 7
  const HeightFrame: nat := 8
  const LengthFrame: nat := 9

  /** A well-formed frame starts at `off`. */
  predicate FrameAt(data: seq<byte>, off: nat) {
    off + 3 < |data| && data[off] == FrameStart && data[off + 3] == FrameEnd
  }

  /** The number of consecutive well-formed frames at `i + 4j`, `i + 4(j+1)`, ..., stopping
      after frame 9. */
  function RunFrom(data: seq<byte>, i: nat, j: nat): (n: nat)
    requires j <= MaxFrames
    ensures n <= MaxFrames - j
    decreases MaxFrames - j
  {
    if j < MaxFrames && FrameAt(data, i + FrameSize * j) then 1 + RunFrom(data, i, j + 1) else 0
  }

  function RunLength(data: seq<byte>, i: nat): nat {
    RunFrom(data, i, 0)
  }

  /** The run at `i` reaches `n` frames exactly when its first `n` frames are all well-formed. */
  lemma {:induction false} RunFromCovers(data: seq<byte>, i: nat, j: nat, n: nat)
    requires j <= n <= MaxFrames
    ensures RunFrom(data, i, j) >= n - j <==> forall k | j <= k < n :: FrameAt(data, i + FrameSize * k)
    decreases n - j
  {
    if j < n {
      RunFromCovers(data, i, j + 1, n);
    }
  }

  /** Offset `i` may start the window: a full window fits and a run of at least 8 frames starts there. */
  predicate Qualifies(data: seq<byte>, i: nat) {
    i + WindowLength <= |data| && data[i] == FrameStart && RunLength(data, i) >= MinRun
  }

  /** The same condition, stated without the run counter. */
  lemma QualifiesIff(data: seq<byte>, i: nat)
    ensures Qualifies(data, i) <==>
      i + WindowLength <= |data| && forall k | 0 <= k < MinRun :: FrameAt(data, i + FrameSize * k)
  {
    RunFromCovers(data, i, 0, MinRun);
    if i + WindowLength <= |data| && forall k | 0 <= k < MinRun :: FrameAt(data, i + FrameSize * k) {
      assert FrameAt(data, i + FrameSize * 0);
    }
  }

  /** The smallest qualifying offset at or after `from`. */
  function FirstQualifying(data: seq<byte>, from: nat): (r: Option<nat>)
    ensures r.Some? ==> from <= r.value && r.value + WindowLength <= |data|
    decreases |data| - from
  {
    if from + WindowLength > |data| then None
    else if Qualifies(data, from) then Some(from)
    else FirstQualifying(data, from + 1)
  }

  lemma {:induction false} FirstQualifyingIsFirst(data: seq<byte>, from: nat)
    ensures match FirstQualifying(data, from)
      case Some(i) => from <= i && Qualifies(data, i) && forall k | from <= k < i :: !Qualifies(data, k)
      case None => forall k: nat | from <= k :: !Qualifies(data, k)
    decreases |data| - from
  {
    if from + WindowLength <= |data| && !Qualifies(data, from) {
      FirstQualifyingIsFirst(data, from + 1);
    }
  }

  /** What `findValidDataPattern` returns: the 41-byte window at the first qualifying offset,
      or the whole buffer when there is none. */
  function PatternWindow(data: seq<byte>): seq<byte> {
    match FirstQualifying(data, 0)
    case Some(i) => data[i..i + WindowLength]
    case None => data
  }

  /** `i` is the smallest offset that qualifies. */
  predicate IsFirstQualifying(data: seq<byte>, i: nat) {
    Qualifies(data, i) && forall k: nat | k < i :: !Qualifies(data, k)
  }

  /** The window is either the input unchanged or the 41 bytes at the smallest qualifying offset. */
  lemma PatternWindowCases(data: seq<byte>)
    ensures PatternWindow(data) == data
         || exists i: nat :: IsFirstQualifying(data, i) && PatternWindow(data) == data[i..i + WindowLength]
  {
    FirstQualifyingIsFirst(data, 0);
    match FirstQualifying(data, 0)
    case Some(i) =>
      assert IsFirstQualifying(data, i);
    case None =>
  }

  /** With no qualifying offset the buffer comes back unchanged. */
  lemma PatternWindowWhenNoRun(data: seq<byte>)
    requires forall k: nat :: !Qualifies(data, k)
    ensures PatternWindow(data) == data
  {
    FirstQualifyingIsFirst(data, 0);
  }

  /** At the smallest qualifying offset the window is cut, and it starts with 8 well-formed frames. */
  lemma PatternWindowAtFirst(data: seq<byte>, i: nat)
    requires IsFirstQualifying(data, i)
    ensures i + WindowLength <= |data| && PatternWindow(data) == data[i..i + WindowLength]
    ensures data[i] == FrameStart
    ensures forall f | 0 <= f < MinRun :: FrameAt(data, i + FrameSize * f)
  {
    FirstQualifyingFinds(data, 0, i);
    QualifiesIff(data, i);
  }

  lemma {:induction false} FirstQualifyingFinds(data: seq<byte>, from: nat, i: nat)
    requires from <= i && Qualifies(data, i)
    requires forall k: nat | from <= k < i :: !Qualifies(data, k)
    ensures FirstQualifying(data, from) == Some(i)
    decreases i - from
  {
    if from < i {
      FirstQualifyingFinds(data, from + 1, i);
    }
  }

  /** Only a buffer of at least 41 bytes can be cut; a shorter one comes back unchanged, and a
      longer one never comes back shorter than 41 bytes. */
  lemma PatternWindowLength(data: seq<byte>)
    ensures |data| < WindowLength ==> PatternWindow(data) == data
    ensures |data| >= WindowLength ==> |PatternWindow(data)| >= WindowLength
    ensures PatternWindow(data) == data || |PatternWindow(data)| == WindowLength
  {
    FirstQualifyingIsFirst(data, 0);
  }

  /** The inner loop of `findValidDataPattern`: counts the well-formed frames of the run at `i`,
      stopping at the first bad or incomplete frame or after `MaxFrames`. */
  method CountRun(data: seq<byte>, i: nat) returns (validBlocks: nat)
    ensures validBlocks == RunLength(data, i)
  {
    validBlocks := 0;
    var j := 0;
    while j < MaxFrames && i + j * FrameSize + 3 < |data|
      invariant 0 <= j <= MaxFrames && validBlocks == j
      invariant RunLength(data, i) == validBlocks + RunFrom(data, i, j)
    {
      var offset := i + j * FrameSize;
      if offset + 3 < |data| && data[offset] == FrameStart && data[offset + 3] == FrameEnd {
        validBlocks := validBlocks + 1;
      } else {
        break;
      }
      j := j + 1;
    }
  }

  /** `findValidDataPattern`: scans offsets in increasing order, counting the frames of the run at
      each offset that starts with 0x2D. */
  method FindValidDataPattern(data: seq<byte>) returns (r: seq<byte>)
    ensures r == PatternWindow(data)
  {
    var i := 0;
    while i + WindowLength <= |data|
      invariant FirstQualifying(data, 0) == FirstQualifying(data, i)
      decreases |data| - i
    {
      if data[i] == FrameStart {
        var validBlocks := CountRun(data, i);
        if validBlocks >= MinRun {
          if i + WindowLength <= |data| {
            return data[i..i + WindowLength];
          }
        }
      }
      i := i + 1;
    }
    return data;
  }

  /** Length, width and height, in the order the source returns them. */
  datatype Dimensions = Dimensions(length: nat, width: nat, height: nat)

  const Unknown := Dimensions(0, 0, 0)

  /** The value of frame `index` when that frame is complete, well-formed and carries `id`. */
  function FrameValue(buf: seq<byte>, index: nat, id: byte): (v: byte) {
    var off := FrameSize * index;
    if FrameAt(buf, off) && buf[off + 1] == id then buf[off + 2] else 0
  }

  /** What `parseDimensionsData` computes: each dimension from its one fixed frame. */
  function ParsedDimensions(buf: seq<byte>): Dimensions {
    Dimensions(
      FrameValue(buf, LengthFrame, LengthId),
      FrameValue(buf, WidthFrame, WidthId),
      FrameValue(buf, HeightFrame, HeightId))
  }

  /** `parseDimensionsData`: walks frames 0..9 and commits a value only for the expected id at
      the expected index. */
  method ParseDimensionsData(buf: seq<byte>) returns (length: int, width: int, height: int)
    ensures width == (if FrameAt(buf, 28) && buf[29] == WidthId then buf[30] else 0)
    ensures height == (if FrameAt(buf, 32) && buf[33] == HeightId then buf[34] else 0)
    ensures length == (if FrameAt(buf, 36) && buf[37] == LengthId then buf[38] else 0)
    ensures Dimensions(length, width, height) == ParsedDimensions(buf)
  {
    width, height, length := 0, 0, 0;
    var i := 0;
    while i < MaxFrames && i * FrameSize + 3 < |buf|
      invariant 0 <= i <= MaxFrames
      invariant forall k | i <= k < MaxFrames :: FrameSize * k + 3 < |buf| ==> i * FrameSize + 3 < |buf|
      invariant width == if i > WidthFrame then FrameValue(buf, WidthFrame, WidthId) else 0
      invariant height == if i > HeightFrame then FrameValue(buf, HeightFrame, HeightId) else 0
      invariant length == if i > LengthFrame then FrameValue(buf, LengthFrame, LengthId) else 0
    {
      var offset := i * FrameSize;
      var block := buf[offset..offset + 4];
      if block[0] == FrameStart && block[3] == FrameEnd {
        var sensorId := block[1];
        var value := block[2];
        if sensorId == WidthId {
          if i == WidthFrame { width := value; }
        } else if sensorId == HeightId {
          if i == HeightFrame { height := value; }
        } else if sensorId == LengthId {
          if i == LengthFrame { length := value; }
        }
      }
      i := i + 1;
    }
  }

  /** Every dimension is a single byte's value. */
  lemma DimensionsAreBytes(buf: seq<byte>)
    ensures var d := ParsedDimensions(buf); d.length <= 255 && d.width <= 255 && d.height <= 255
  {
  }

  /** Frames 0 to 6 never matter: two buffers of at least 40 bytes that agree on bytes 28..39
      parse to the same dimensions. */
  lemma OnlyFramesSevenToNineMatter(a: seq<byte>, b: seq<byte>)
    requires |a| >= 40 && |b| >= 40 && a[28..40] == b[28..40]
    ensures ParsedDimensions(a) == ParsedDimensions(b)
  {
    assert forall k | 28 <= k < 40 :: a[k] == a[28..40][k - 28] == b[28..40][k - 28] == b[k];
  }

  /** Bytes after the tenth frame are never inspected. */
  lemma TrailingBytesIgnored(buf: seq<byte>)
    requires |buf| >= 40
    ensures ParsedDimensions(buf) == ParsedDimensions(buf[..40])
  {
  }

  /** The post-read part of `GetDimensionsFromArduino`: fewer than 41 bytes, or a window shorter
      than 41 bytes, give the all-zero sentinel; otherwise the window is parsed. */
  function DimensionsFromReply(allData: seq<byte>): Dimensions {
    if |allData| < WindowLength then Unknown
    else
      var validData := PatternWindow(allData);
      if |validData| < WindowLength then Unknown
      else ParsedDimensions(validData)
  }

  method DecodeDimensions(allData: seq<byte>) returns (d: Dimensions)
    ensures d == DimensionsFromReply(allData)
    ensures |allData| < WindowLength ==> d == Unknown
  {
    if |allData| < WindowLength {
      return Unknown;
    }
    var validData := FindValidDataPattern(allData);
    if |validData| < WindowLength {
      return Unknown;
    }
    var length, width, height := ParseDimensionsData(validData);
    d := Dimensions(length, width, height);
  }

  /** For 41 bytes or more the second length check never rejects: the result is the parse of the
      window (of the whole buffer when no run of 8 frames is found). */
  lemma {:induction false} SecondCheckNeverRejects(allData: seq<byte>)
    requires |allData| >= WindowLength
    ensures DimensionsFromReply(allData) == ParsedDimensions(PatternWindow(allData))
  {
    PatternWindowLength(allData);
  }

  /** A buffer without any run of 8 frames is still parsed, and can give a non-zero result:
      here frame 0 is broken, frames 7..9 carry width 5, height 6 and length 7. */
  lemma NoRunStillParsed()
    ensures var data := [0 as byte, 0, 0, 0] + Frames(6) + [0x2D, 0x0B, 5, 0x7B, 0x2D, 0x16, 6, 0x7B, 0x2D, 0x21, 7, 0x7B, 0];
      |data| == 41 && (forall k: nat :: !Qualifies(data, k)) && DimensionsFromReply(data) == Dimensions(7, 5, 6)
  {
    var data := [0 as byte, 0, 0, 0] + Frames(6) + [0x2D, 0x0B, 5, 0x7B, 0x2D, 0x16, 6, 0x7B, 0x2D, 0x21, 7, 0x7B, 0];
    assert |data| == 41;
    assert !Qualifies(data, 0) by { assert data[0] == 0; }
    forall k: nat ensures !Qualifies(data, k) {
      if k > 0 { assert k + WindowLength > |data|; }
    }
    FirstQualifyingIsFirst(data, 0);
    assert PatternWindow(data) == data;
  }

  /** `n` copies of a well-formed frame that no dimension uses. */
  function Frames(n: nat): (s: seq<byte>)
    ensures |s| == FrameSize * n
  {
    if n == 0 then [] else [0x2D, 0x01, 0x00, 0x7B] + Frames(n - 1)
  }
}
