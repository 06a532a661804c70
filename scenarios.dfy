/** Two IR transceivers of BlynkTank/CIR.cpp driven event by event, as the
    timers and the edge interrupt of two facing tanks would drive them.

    The channel is an assumption of the model, not something it proves: the
    receiver's falling edge comes with the transmitter's start bit, and
    after the settling delay of `beginReceivingData` each receive tick
    samples the bit the transmitter put on the wire in the same bit period,
    so receive sample i is transmit bit i + 1. */
module LinkScenarios {
  import opened Bits
  import opened IRFrame
  import opened IRState
  import opened CIR

  /** One bit period on a channel from `tx` to `rx`: the transmit ticker
      fires, then the receive ticker samples the level it put on the wire. */
  method BitPeriod(tx: IRLink, rx: IRLink)
    requires tx != rx && tx.Valid() && rx.Valid() && tx.txActive
    modifies tx`txBuffer, tx`bitTXed, tx`txActive, tx`txFrame, tx`txEmitted, tx`txLevel
    modifies rx`rxBuffer, rx`bitRXed, rx`rxActive, rx`rxSamples, rx`edgeArmed
    ensures tx.Valid() && rx.Valid()
    ensures tx.Tx() == TxNext(old(tx.Tx()))
    ensures rx.Rx() == RxNext(old(rx.Rx()), Bit(old(tx.txFrame), old(tx.bitTXed)))
  {
    tx.TxTick();
    rx.RxTick(tx.txLevel != 0);
  }

  /** Two fresh links; the first sends b and puts the start bit on the
      wire, whose falling edge starts a receive session on the second. */
  method StartBit(b: Byte) returns (tx: IRLink, rx: IRLink, sent: bool)
    ensures fresh(tx) && fresh(rx) && tx != rx
    ensures tx.Valid() && rx.Valid() && sent
    ensures tx.txFrame == Frame(b) && tx.bitTXed == 1 && tx.txActive
    ensures rx.rxActive && rx.bitRXed == 0 && rx.rxSamples == []
  {
    tx := new IRLink();
    rx := new IRLink();
    sent := tx.SendByte(b);
    tx.TxTick();
    rx.Edge();
  }

  /** Bit periods 1 to 10 of a frame of b on the channel from `tx` to `rx`,
      with `rx` in the session the start bit began: the receiver ends with
      b in its mailbox and the transmitter is left with the trailing bit. */
  method DataBits(tx: IRLink, rx: IRLink, b: Byte)
    requires tx != rx && tx.Valid() && rx.Valid()
    requires tx.txFrame == Frame(b) && tx.bitTXed == 1 && tx.txActive
    requires rx.rxActive && rx.bitRXed == 0 && rx.rxSamples == []
    modifies tx`txBuffer, tx`bitTXed, tx`txActive, tx`txFrame, tx`txEmitted, tx`txLevel
    modifies rx`rxBuffer, rx`bitRXed, rx`rxActive, rx`rxSamples, rx`edgeArmed
    ensures tx.Valid() && rx.Valid()
    ensures tx.txFrame == Frame(b) && tx.bitTXed == 11 && tx.txActive
    ensures !rx.rxActive && rx.rxBuffer == b
  {
    var n := 1;
    while n < 11
      invariant 1 <= n <= 11
      invariant tx.Valid() && rx.Valid()
      invariant tx.txFrame == Frame(b) && tx.bitTXed == n && tx.txActive
      invariant rx.rxSamples == CleanSamples(b)[..n - 1]
      invariant n < 11 ==> rx.rxActive && rx.bitRXed == n - 1
      invariant n == 11 ==> !rx.rxActive && rx.rxBuffer == Decode(Value(rx.rxSamples))
    {
      RxNextSample(rx.Rx(), Bit(Frame(b), n));
      BitPeriod(tx, rx);
      assert CleanSamples(b)[..n] == CleanSamples(b)[..n - 1] + [Bit(Frame(b), n)];
      n := n + 1;
    }
    assert rx.rxSamples == CleanSamples(b);
    RoundTrip(b);
  }

  /** A byte sent by one link is received by the other: the transmit
      session ends after 12 ticks, the receiver then offers exactly the byte
      sent, hands it out once, and a second read finds NO_VALID_DATA. */
  method Transfer(b: Byte) returns (sent: bool, sending: bool, waiting: bool, got: int, again: int)
    ensures sent && !sending && waiting
    ensures got == b && again == NoValidData
  {
    var tx, rx;
    tx, rx, sent := StartBit(b);
    DataBits(tx, rx, b);
    tx.TxTick();
    sending := tx.IsSendingData();
    waiting := rx.Available();
    got := rx.ReceiveByte();
    again := rx.ReceiveByte();
  }

  /** Carrier mode does not block a send: with no receive session running,
      `sendByte` switches the carrier off and sends, and carrier mode can be
      entered again only after the frame has gone out. */
  method CarrierThenSend(b: Byte) returns (on: bool, sent: bool, carrier: bool, onAgain: bool)
    ensures on && sent && !carrier && !onAgain
  {
    var link := new IRLink();
    on := link.TransmitCarrier(true);
    sent := link.SendByte(b);
    carrier := link.carrierOn;
    onAgain := link.TransmitCarrier(true);
  }

  /** Transmit and receive are not mutually exclusive: `sendByte` leaves
      the edge interrupt attached, so a falling edge during a send starts a
      receive session while the send goes on, and carrier mode is then
      refused. */
  method EdgeDuringSend(b: Byte) returns (sending: bool, receiving: bool, carrier: bool)
    ensures sending && receiving && !carrier
  {
    var link := new IRLink();
    var sent := link.SendByte(b);
    link.Edge();
    sending := link.IsSendingData();
    receiving := link.IsReceivingData();
    carrier := link.TransmitCarrier(true);
  }
}
