/**
 * The validated value types of the lighting pipeline: a tempo (BPM), a colour
 * decoded from six hex digits (RGB), a 512-channel DMX frame built by writing
 * colours at channel offsets (Scene), and a chase that cycles through its
 * scenes forever (Chase).
 */
module DataClasses {
  import opened Results
  import opened Arith

  // ---------------------------------------------------------------------------
  // BPM
  // ---------------------------------------------------------------------------

  /** Slowest tempo accepted, so that the clock does not take ages per beat. */
  const MinBpm := 30
  /** Fastest tempo accepted: 40 Hz times 60 s, below the 44 Hz DMX refresh limit. */
  const MaxBpm := 2400

  type BPM = v: int | MinBpm <= v <= MaxBpm witness MinBpm

  /** The validating constructor BPM(value). */
  function NewBPM(value: int): (r: Result<BPM>)
    ensures r.Ok? <==> MinBpm <= value <= MaxBpm
    ensures r.Ok? ==> r.value == value
    ensures r.Err? ==> r.error == BpmOutOfRange
  {
    if MinBpm <= value <= MaxBpm then Ok(value) else Err(BpmOutOfRange)
  }

  // ---------------------------------------------------------------------------
  // RGB: six hex digits to three bytes, and back
  // ---------------------------------------------------------------------------

  /** A colour is the byte string decoded from its hex digits (3 bytes for RGB). */
  type RGB = seq<Byte>

  predicate IsHexDigit(c: char) {
    '0' <= c <= '9' || 'a' <= c <= 'f' || 'A' <= c <= 'F'
  }

  predicate AllHex(s: string) {
    forall i :: 0 <= i < |s| ==> IsHexDigit(s[i])
  }

  function HexValue(c: char): (v: nat)
    requires IsHexDigit(c)
    ensures v < 16
  {
    if '0' <= c <= '9' then c as int - '0' as int
    else if 'a' <= c <= 'f' then c as int - 'a' as int + 10
    else c as int - 'A' as int + 10
  }

  /** The lower-case digit that bytes.hex() prints for v. */
  function HexChar(v: nat): (c: char)
    requires v < 16
    ensures IsHexDigit(c) && HexValue(c) == v
  {
    "0123456789abcdef"[v]
  }

  function ToLower(c: char): char {
    if 'A' <= c <= 'Z' then (c as int + 32) as char else c
  }

  function LowerString(s: string): (r: string)
    ensures |r| == |s| && forall i :: 0 <= i < |s| ==> r[i] == ToLower(s[i])
  {
    if s == [] then [] else [ToLower(s[0])] + LowerString(s[1..])
  }

  /** The byte spelled by two hex digits, high nibble first. */
  function HexPair(hi: char, lo: char): Byte
    requires IsHexDigit(hi) && IsHexDigit(lo)
  {
    16 * HexValue(hi) + HexValue(lo)
  }

  /**
   * RGB(value): a string of any length other than 6 is refused; otherwise the
   * string is decoded by bytes.fromhex, which refuses a non-hex character.
   */
  function NewRGB(value: string): (r: Result<RGB>)
    ensures r.Ok? <==> |value| == 6 && AllHex(value)
    ensures |value| != 6 ==> r == Err(HexLength)
    ensures r.Ok? ==> |r.value| == 3 &&
                      forall i :: 0 <= i < 3 ==> r.value[i] == HexPair(value[2 * i], value[2 * i + 1])
  {
    if |value| != 6 then Err(HexLength)
    else if !AllHex(value) then Err(NonHexDigit)
    else Ok([HexPair(value[0], value[1]), HexPair(value[2], value[3]), HexPair(value[4], value[5])])
  }

  /** bytes.hex(): two lower-case hex digits per byte. */
  function ToHex(c: seq<Byte>): (s: string)
    ensures |s| == 2 * |c| && AllHex(s)
  {
    if c == [] then "" else [HexChar(c[0] / 16), HexChar(c[0] % 16)] + ToHex(c[1..])
  }

  lemma HexCharOfValue(c: char)
    requires IsHexDigit(c)
    ensures HexChar(HexValue(c)) == ToLower(c)
  {
  }

  lemma {:induction false} HexPairDigits(hi: char, lo: char)
    requires IsHexDigit(hi) && IsHexDigit(lo)
    ensures HexPair(hi, lo) / 16 == HexValue(hi) && HexPair(hi, lo) % 16 == HexValue(lo)
  {
  }

  /** bytes.hex() of a three-byte colour, digit by digit. */
  lemma ToHexThree(c: seq<Byte>)
    requires |c| == 3
    ensures ToHex(c) == [HexChar(c[0] / 16), HexChar(c[0] % 16), HexChar(c[1] / 16),
                         HexChar(c[1] % 16), HexChar(c[2] / 16), HexChar(c[2] % 16)]
  {
    assert c[1..][1..][1..] == [];
    assert ToHex(c[1..][1..]) == [HexChar(c[2] / 16), HexChar(c[2] % 16)];
    assert ToHex(c[1..]) == [HexChar(c[1] / 16), HexChar(c[1] % 16)] + ToHex(c[1..][1..]);
  }

  /** Decoding six hex digits and printing them back gives the lower-cased input. */
  lemma RGBHexRoundTrip(s: string)
    requires |s| == 6 && AllHex(s)
    ensures NewRGB(s).Ok? && ToHex(NewRGB(s).value) == LowerString(s)
  {
    var c := NewRGB(s).value;
    ToHexThree(c);
    PairRoundTrip(s[0], s[1]);
    PairRoundTrip(s[2], s[3]);
    PairRoundTrip(s[4], s[5]);
    var lower := LowerString(s);
    assert lower == [ToLower(s[0]), ToLower(s[1]), ToLower(s[2]), ToLower(s[3]), ToLower(s[4]), ToLower(s[5])];
  }

  /** One byte decoded from two hex digits prints back as those digits in lower case. */
  lemma PairRoundTrip(hi: char, lo: char)
    requires IsHexDigit(hi) && IsHexDigit(lo)
    ensures HexChar(HexPair(hi, lo) / 16) == ToLower(hi) && HexChar(HexPair(hi, lo) % 16) == ToLower(lo)
  {
    HexPairDigits(hi, lo);
    HexCharOfValue(hi);
    HexCharOfValue(lo);
  }

  /** Every three-byte colour is decoded back from its own hex rendering. */
  lemma RGBFromOwnHex(c: seq<Byte>)
    requires |c| == 3
    ensures NewRGB(ToHex(c)) == Ok(c)
  {
    ToHexThree(c);
    var h := ToHex(c);
    assert NewRGB(h).Ok?;
    var r := NewRGB(h).value;
    forall i | 0 <= i < 3 ensures r[i] == c[i] {
      assert h[2 * i] == HexChar(c[i] / 16) && h[2 * i + 1] == HexChar(c[i] % 16);
    }
    assert r == c;
  }

  // ---------------------------------------------------------------------------
  // Scene: a 512-byte frame with colours written at channel offsets
  // ---------------------------------------------------------------------------

  /** Number of channels (bytes) in one DMX universe. */
  const Channels := 512

  /** A frame of channel values; a successfully built Scene has Channels of them. */
  type Scene = seq<Byte>

  /** A colour to write and the channel its first byte goes to. */
  type Write = (nat, RGB)

  function Zeros(n: nat): (z: seq<Byte>)
    ensures |z| == n && forall k :: 0 <= k < n ==> z[k] == 0
  {
    seq(n, _ => 0)
  }

  /** The write `w` fits in the frame: its last byte is at most channel 511. */
  predicate FitsFrame(w: Write) {
    w.0 + |w.1| <= Channels
  }

  /** Channel k is one of the bytes that write `w` sets. */
  predicate Covers(w: Write, k: int) {
    w.0 <= k < w.0 + |w.1|
  }

  /** The slice assignment frame[ch:ch+len(c)] = c. */
  function Overwrite(frame: seq<Byte>, ch: nat, c: RGB): (r: seq<Byte>)
    requires ch + |c| <= |frame|
    ensures |r| == |frame|
    ensures forall k :: 0 <= k < |frame| ==>
      r[k] == if ch <= k < ch + |c| then c[k - ch] else frame[k]
  {
    frame[..ch] + c + frame[ch + |c|..]
  }

  /** The loop of Scene(*args) from a given frame: writes in argument order, stopping at the first that does not fit. */
  function WriteAll(frame: seq<Byte>, writes: seq<Write>): (r: Result<Scene>)
    requires |frame| == Channels
    decreases |writes|
    ensures r.Ok? ==> |r.value| == Channels
  {
    if writes == [] then Ok(frame)
    else if FitsFrame(writes[0]) then WriteAll(Overwrite(frame, writes[0].0, writes[0].1), writes[1..])
    else Err(ColorOverflow)
  }

  /** Scene(*args): start from 512 zero bytes and apply the writes. */
  function SceneOf(writes: seq<Write>): (r: Result<Scene>)
    ensures r.Ok? ==> |r.value| == Channels
  {
    WriteAll(Zeros(Channels), writes)
  }

  /**
   * What WriteAll produces, stated without the fold: it fails exactly when some
   * write does not fit; otherwise a byte no write covers keeps its old value and
   * a byte takes its value from the LAST write covering it.
   */
  lemma {:induction false} WriteAllSpec(frame: seq<Byte>, writes: seq<Write>)
    requires |frame| == Channels
    decreases |writes|
    ensures WriteAll(frame, writes).Ok? <==> forall i :: 0 <= i < |writes| ==> FitsFrame(writes[i])
    ensures WriteAll(frame, writes).Ok? ==> |WriteAll(frame, writes).value| == Channels
    ensures WriteAll(frame, writes).Ok? ==>
      forall k :: 0 <= k < Channels && (forall j :: 0 <= j < |writes| ==> !Covers(writes[j], k)) ==>
        WriteAll(frame, writes).value[k] == frame[k]
    ensures WriteAll(frame, writes).Ok? ==>
      forall j, k ::
        (0 <= j < |writes| && Covers(writes[j], k) &&
         (forall j' :: j < j' < |writes| ==> !Covers(writes[j'], k))) ==>
        WriteAll(frame, writes).value[k] == writes[j].1[k - writes[j].0]
  {
    if writes == [] {
    } else if !FitsFrame(writes[0]) {
    } else {
      var w := writes[0];
      var rest := writes[1..];
      var next := Overwrite(frame, w.0, w.1);
      WriteAllSpec(next, rest);
      assert forall i :: 0 <= i < |rest| ==> rest[i] == writes[i + 1];
      if WriteAll(frame, writes).Ok? {
        var s := WriteAll(frame, writes).value;
        assert s == WriteAll(next, rest).value;
        forall j, k | 0 <= j < |writes| && Covers(writes[j], k) &&
          (forall j' :: j < j' < |writes| ==> !Covers(writes[j'], k))
          ensures s[k] == writes[j].1[k - writes[j].0]
        {
          if j == 0 {
            assert forall j' :: 0 <= j' < |rest| ==> !Covers(rest[j'], k) by {
              forall j' | 0 <= j' < |rest| ensures !Covers(rest[j'], k) {
                assert rest[j'] == writes[j' + 1];
              }
            }
          } else {
            assert rest[j - 1] == writes[j];
            assert forall j' :: j - 1 < j' < |rest| ==> !Covers(rest[j'], k) by {
              forall j' | j - 1 < j' < |rest| ensures !Covers(rest[j'], k) {
                assert rest[j'] == writes[j' + 1];
              }
            }
          }
        }
        forall k | 0 <= k < Channels && (forall j :: 0 <= j < |writes| ==> !Covers(writes[j], k))
          ensures s[k] == frame[k]
        {
          assert !Covers(writes[0], k);
          assert forall j' :: 0 <= j' < |rest| ==> !Covers(rest[j'], k) by {
            forall j' | 0 <= j' < |rest| ensures !Covers(rest[j'], k) {
              assert rest[j'] == writes[j' + 1];
            }
          }
        }
      }
    }
  }

  /** Scene(*args) in full: the 512-byte frame its writes describe, or ColorOverflow. */
  lemma SceneOfSpec(writes: seq<Write>)
    ensures SceneOf(writes).Ok? <==> forall i :: 0 <= i < |writes| ==> FitsFrame(writes[i])
    ensures SceneOf(writes).Err? ==> SceneOf(writes).error == ColorOverflow
    ensures SceneOf(writes).Ok? ==> |SceneOf(writes).value| == Channels
    ensures SceneOf(writes).Ok? ==>
      forall k :: 0 <= k < Channels && (forall j :: 0 <= j < |writes| ==> !Covers(writes[j], k)) ==>
        SceneOf(writes).value[k] == 0
    ensures SceneOf(writes).Ok? ==>
      forall j, k ::
        (0 <= j < |writes| && Covers(writes[j], k) &&
         (forall j' :: j < j' < |writes| ==> !Covers(writes[j'], k))) ==>
        SceneOf(writes).value[k] == writes[j].1[k - writes[j].0]
  {
    WriteAllSpec(Zeros(Channels), writes);
    WriteAllError(Zeros(Channels), writes);
  }

  lemma {:induction false} WriteAllError(frame: seq<Byte>, writes: seq<Write>)
    requires |frame| == Channels
    decreases |writes|
    ensures WriteAll(frame, writes).Err? ==> WriteAll(frame, writes).error == ColorOverflow
  {
    if writes != [] && FitsFrame(writes[0]) {
      WriteAllError(Overwrite(frame, writes[0].0, writes[0].1), writes[1..]);
    }
  }

  /** A three-byte colour fits at channel 509 but not at channel 510. */
  lemma SceneEdge(c: RGB)
    requires |c| == 3
    ensures SceneOf([(509, c)]).Ok?
    ensures SceneOf([(510, c)]) == Err(ColorOverflow)
  {
    SceneOfSpec([(509, c)]);
  }

  /** Scene.__init__: fill a zeroed 512-byte buffer in place, one write at a time. */
  method NewScene(writes: seq<Write>) returns (r: Result<Scene>)
    ensures r == SceneOf(writes)
  {
    var frame := new Byte[Channels](_ => 0);
    assert frame[..] == Zeros(Channels);
    var i := 0;
    while i < |writes|
      invariant 0 <= i <= |writes|
      invariant WriteAll(frame[..], writes[i..]) == SceneOf(writes)
    {
      var (channel, color) := writes[i];
      var upperBound := channel + |color|;
      if upperBound <= Channels {
        ghost var before := frame[..];
        forall k | channel <= k < upperBound {
          frame[k] := color[k - channel];
        }
        assert frame[..] == Overwrite(before, channel, color);
        assert writes[i..][1..] == writes[i + 1..];
        i := i + 1;
      } else {
        return Err(ColorOverflow);
      }
    }
    return Ok(frame[..]);
  }

  // ---------------------------------------------------------------------------
  // Chase: cycle through the scenes forever
  // ---------------------------------------------------------------------------

  /** The first k values that next() returns on a chase over `scenes`. */
  function CycleTake<T>(scenes: seq<T>, k: nat): (r: seq<T>)
    requires |scenes| > 0
    ensures |r| == k
  {
    if k == 0 then [] else CycleTake(scenes, k - 1) + [scenes[(k - 1) % |scenes|]]
  }

  /** `s` written out `times` times in a row. */
  function Repeat<T>(s: seq<T>, times: nat): (r: seq<T>)
    ensures |r| == times * |s|
  {
    if times == 0 then [] else Repeat(s, times - 1) + s
  }

  /** Calling next() times * n times returns the n scenes in order, `times` times over. */
  lemma {:induction false} CycleRepeats<T>(scenes: seq<T>, times: nat)
    requires |scenes| > 0
    ensures CycleTake(scenes, times * |scenes|) == Repeat(scenes, times)
  {
    if times > 0 {
      var n := |scenes|;
      CycleRepeats(scenes, times - 1);
      var base := (times - 1) * n;
      assert times * n == base + n;
      CycleTakeExtend(scenes, times - 1, n);
    }
  }

  lemma {:induction false} CycleTakeExtend<T>(scenes: seq<T>, q: nat, j: nat)
    requires |scenes| > 0 && j <= |scenes|
    ensures CycleTake(scenes, q * |scenes| + j) == CycleTake(scenes, q * |scenes|) + scenes[..j]
  {
    if j > 0 {
      CycleTakeExtend(scenes, q, j - 1);
      ModUnique(q * |scenes| + j - 1, |scenes|, q, j - 1);
      assert scenes[..j] == scenes[..j - 1] + [scenes[j - 1]];
    }
  }

  /** A Chase over a list of scenes: a cursor into the list that wraps around. */
  class Chase {
    const scenes: seq<Scene>
    var cursor: nat
    /** How many values next() has returned so far. */
    ghost var taken: nat

    ghost predicate Valid()
      reads this
    {
      |scenes| > 0 ==> cursor == taken % |scenes|
    }

    /** Chase(*args). No scene list is refused here; an empty one fails at next(). */
    constructor (scenes: seq<Scene>)
      ensures Valid() && this.scenes == scenes && taken == 0
    {
      this.scenes := scenes;
      cursor := 0;
      taken := 0;
    }

    /**
     * next(chase): the scene at position `taken` of the endless cycle, never an
     * end-of-sequence signal; on an empty chase the cycle is exhausted at once.
     */
    method Next() returns (r: Result<Scene>)
      requires Valid()
      modifies this
      ensures Valid()
      ensures |scenes| == 0 ==> r == Err(ChaseExhausted) && taken == old(taken)
      ensures |scenes| > 0 ==> r == Ok(scenes[old(taken) % |scenes|]) && taken == old(taken) + 1
      ensures |scenes| > 0 ==> r.value == CycleTake(scenes, taken)[old(taken)]
    {
      if |scenes| == 0 {
        return Err(ChaseExhausted);
      }
      r := Ok(scenes[cursor]);
      ModSucc(taken, |scenes|);
      cursor := if cursor + 1 == |scenes| then 0 else cursor + 1;
      taken := taken + 1;
    }
  }
}
