/**
 * The DMX transmitter: a thread that holds the last frame it was given and
 * sends it over the serial line again and again, one DMX512 packet per loop
 * iteration (ANSI E1.11 DMX512-A, section 8: break, mark after break, the NULL
 * START code 0x00 of section 8.5.1, the data slots).
 *
 * The serial port is an abstract device that records the operations performed
 * on it; the inbound queue is the sequence of outcomes of its timed get().
 */
module Transmitter {
  import opened Results
  import DataClasses

  // ---------------------------------------------------------------------------
  // Protocol settings
  // ---------------------------------------------------------------------------

  datatype Parity = ParityNone | ParityEven | ParityOdd | ParityMark | ParitySpace

  datatype LinkSettings = LinkSettings(baudRate: nat, byteSize: nat, parity: Parity, stopBits: nat)

  const BaudRate := 250000
  const ByteSize := 8
  const StopBits := 2
  /** The serial settings a DMX512 link needs: 250 kbaud, 8 data bits, no parity, 2 stop bits. */
  const DmxLink := LinkSettings(BaudRate, ByteSize, ParityNone, StopBits)

  /** NULL START code: the data slots that follow are dimmer levels. */
  const StartCode: seq<Byte> := [0x00]
  /** The break is held for 0.000068 s, written here in microseconds. */
  const BreakMicros: nat := 68
  /** The byte sent right after the break; its start bit extends the low period. */
  const MarkAfterBreak: seq<Byte> := [0x01]

  /** Number of data slots in the frame held before anything arrives. */
  const Slots := 512

  // ---------------------------------------------------------------------------
  // The abstract serial port and the inbound queue
  // ---------------------------------------------------------------------------

  /** One operation on the serial device. */
  datatype SerialOp = Break(micros: nat) | Write(bytes: seq<Byte>) | Flush

  /** The outcome of one data_queue.get(True, timeout): a frame, or queue.Empty. */
  datatype Received = Frame(data: seq<Byte>) | Empty

  /** The operations that send one DMX packet carrying `frame`. */
  function Packet(frame: seq<Byte>): (ops: seq<SerialOp>)
    ensures |ops| == 4 && ops[0].Break? && ops[0].micros >= 68
    ensures ops[1] == Write([0x01, 0x00]) && ops[2] == Write(frame) && ops[3] == Flush
  {
    assert MarkAfterBreak + StartCode == [0x01, 0x00];
    [Break(BreakMicros), Write(MarkAfterBreak + StartCode), Write(frame), Flush]
  }

  /** The frame held after one queue outcome: a frame that arrives replaces it, a timeout keeps it. */
  function NextHeld(held: seq<Byte>, got: Received): seq<Byte> {
    if got.Frame? then got.data else held
  }

  /** The frame held after a run of queue outcomes, starting from `init`. */
  function HeldAfter(init: seq<Byte>, gots: seq<Received>): seq<Byte> {
    if gots == [] then init else NextHeld(HeldAfter(init, gots[..|gots| - 1]), gots[|gots| - 1])
  }

  /** Everything written to the port over a run of iterations, one packet per queue outcome. */
  function Transmissions(init: seq<Byte>, gots: seq<Received>): seq<SerialOp> {
    if gots == [] then [] else Transmissions(init, gots[..|gots| - 1]) + Packet(HeldAfter(init, gots))
  }

  /**
   * The held frame is the most recently received one, or the initial frame if
   * nothing has arrived yet: a timeout never changes what is held.
   */
  lemma {:induction false} HeldIsLatestFrame(init: seq<Byte>, gots: seq<Received>)
    ensures (forall j :: 0 <= j < |gots| ==> gots[j].Empty?) ==> HeldAfter(init, gots) == init
    ensures forall j ::
      (0 <= j < |gots| && gots[j].Frame? && (forall j' :: j < j' < |gots| ==> gots[j'].Empty?)) ==>
      HeldAfter(init, gots) == gots[j].data
  {
    if gots != [] {
      var prefix := gots[..|gots| - 1];
      HeldIsLatestFrame(init, prefix);
      assert forall j :: 0 <= j < |prefix| ==> prefix[j] == gots[j];
    }
  }

  /**
   * Every iteration emits exactly one packet: break, 0x01 0x00, the held frame
   * verbatim, flush; iteration i sends the frame held after the (i+1)-th outcome.
   */
  lemma {:induction false} TransmissionLayout(init: seq<Byte>, gots: seq<Received>)
    ensures |Transmissions(init, gots)| == 4 * |gots|
    ensures forall i :: 0 <= i < |gots| ==>
      Transmissions(init, gots)[4 * i..4 * i + 4] == Packet(HeldAfter(init, gots[..i + 1]))
  {
    if gots != [] {
      var n := |gots| - 1;
      var prefix := gots[..n];
      TransmissionLayout(init, prefix);
      var t := Transmissions(init, gots);
      assert t == Transmissions(init, prefix) + Packet(HeldAfter(init, gots));
      forall i | 0 <= i < |gots|
        ensures t[4 * i..4 * i + 4] == Packet(HeldAfter(init, gots[..i + 1]))
      {
        if i < n {
          assert prefix[..i + 1] == gots[..i + 1];
          assert t[4 * i..4 * i + 4] == Transmissions(init, prefix)[4 * i..4 * i + 4];
        } else {
          assert gots[..i + 1] == gots;
        }
      }
    }
  }

  /** The frame written by iteration i of a run. */
  function SentFrame(init: seq<Byte>, gots: seq<Received>, i: nat): seq<Byte>
    requires i < |gots|
  {
    HeldAfter(init, gots[..i + 1])
  }

  /** Keep-alive: after a timeout the frame of the previous iteration is sent again, unchanged. */
  lemma KeepAlive(init: seq<Byte>, gots: seq<Received>, i: nat)
    requires 0 < i < |gots| && gots[i].Empty?
    ensures SentFrame(init, gots, i) == SentFrame(init, gots, i - 1)
    ensures |Transmissions(init, gots)| == 4 * |gots|
    ensures Transmissions(init, gots)[4 * i + 2] == Transmissions(init, gots)[4 * (i - 1) + 2]
  {
    assert gots[..i + 1][..i] == gots[..i];
    TransmissionLayout(init, gots);
    assert Transmissions(init, gots)[4 * i + 2] == Transmissions(init, gots)[4 * i..4 * i + 4][2];
    assert Transmissions(init, gots)[4 * (i - 1) + 2] == Transmissions(init, gots)[4 * (i - 1)..4 * (i - 1) + 4][2];
  }

  /** A frame that arrives is the one written in the same iteration. */
  lemma FrameSentAtOnce(init: seq<Byte>, gots: seq<Received>, i: nat)
    requires i < |gots| && gots[i].Frame?
    ensures |Transmissions(init, gots)| == 4 * |gots|
    ensures Transmissions(init, gots)[4 * i + 2] == Write(gots[i].data)
  {
    TransmissionLayout(init, gots);
    assert Transmissions(init, gots)[4 * i + 2] == Transmissions(init, gots)[4 * i..4 * i + 4][2];
  }

  // ---------------------------------------------------------------------------
  // The serial device and the transmitter thread
  // ---------------------------------------------------------------------------

  /** A serial device opened with fixed settings; `ops` is everything done to it so far. */
  class SerialPort {
    const port: string
    const settings: LinkSettings
    var ops: seq<SerialOp>

    constructor (port: string, settings: LinkSettings)
      ensures this.port == port && this.settings == settings && ops == []
    {
      this.port := port;
      this.settings := settings;
      ops := [];
    }

    method SendBreak(micros: nat)
      modifies this
      ensures ops == old(ops) + [SerialOp.Break(micros)]
    {
      ops := ops + [SerialOp.Break(micros)];
    }

    method Write(bytes: seq<Byte>)
      modifies this
      ensures ops == old(ops) + [SerialOp.Write(bytes)]
    {
      ops := ops + [SerialOp.Write(bytes)];
    }

    method Flush()
      modifies this
      ensures ops == old(ops) + [SerialOp.Flush]
    {
      ops := ops + [SerialOp.Flush];
    }
  }

  class DMXConnection {
    const connection: SerialPort
    var terminated: bool

    /** Opens the port with the DMX512 link settings. */
    constructor (port: string)
      ensures fresh(connection) && connection.port == port && connection.settings == DmxLink
      ensures connection.ops == [] && !terminated
    {
      connection := new SerialPort(port, DmxLink);
      terminated := false;
    }

    /** exit(): raise the termination flag. */
    method Exit()
      modifies this
      ensures terminated
    {
      terminated := true;
    }

    /**
     * run(): the transmit loop. `gots` lists the outcomes of the queue get in
     * successive iterations; the controlling thread's exit() lands during the
     * iteration that takes the last of them. The flag is read only at the top
     * of the loop, so that iteration still sends its whole packet and no
     * further one starts. A flag already raised before run() sends nothing.
     */
    method Run(gots: seq<Received>)
      requires terminated || |gots| > 0
      modifies this, connection
      ensures terminated
      ensures connection.ops == old(connection.ops) +
        (if old(terminated) then [] else Transmissions(DataClasses.Zeros(Slots), gots))
    {
      var data := DataClasses.Zeros(Slots);
      var i := 0;
      while !terminated
        invariant 0 <= i <= |gots|
        invariant !terminated ==> i < |gots|
        invariant old(terminated) ==> terminated && i == 0
        invariant terminated ==> old(terminated) || i == |gots|
        invariant data == HeldAfter(DataClasses.Zeros(Slots), gots[..i])
        invariant connection.ops == old(connection.ops) + Transmissions(DataClasses.Zeros(Slots), gots[..i])
        decreases |gots| - i
      {
        if gots[i].Frame? {
          data := gots[i].data;
        }
        connection.SendBreak(BreakMicros);
        connection.Write(MarkAfterBreak + StartCode);
        connection.Write(data);
        connection.Flush();
        assert gots[..i + 1][..i] == gots[..i];
        i := i + 1;
        if i == |gots| {
          Exit();
        }
      }
      assert gots[..i] == gots || old(terminated);
    }
  }
}
