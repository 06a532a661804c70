/** The registers of the IR transceiver of BlynkTank/CIR.cpp as values, the
    invariants the link keeps, and one step of each ticker callback. */
module IRState {
  import opened Bits
  import opened IRFrame

  /** PWMRANGE of the ESP8266 core. */
  const PwmRange: nat := 1023
  /** DUTY_CYCLE_DIVIDER: a 50 % duty cycle. */
  const DutyCycleDivider: nat := 2
  /** `PWMRANGE / DUTY_CYCLE_DIVIDER`: the PWM value that keys the carrier on. */
  const CarrierLevel: nat := PwmRange / DutyCycleDivider

  /** Bit periods emitted per frame (the 12th is a trailing 0). */
  const TxBits: nat := 12
  /** Bit periods sampled per frame. */
  const RxBits: nat := 10

  /** The transmit side of the link: shift register (`txBuffer`),
      `bitTXed`, transmit ticker attached, and two ghosts of the model: the
      frame of the session and the bits emitted so far. */
  datatype TxRegs = TxRegs(buffer: nat, bits: nat, active: bool, frame: nat, emitted: seq<bool>)

  /** The transmitter's invariant: the register is the frame shifted right
      by the number of bits already emitted, those bits are the frame's low
      bits, and an idle register is empty. */
  ghost predicate TxInv(t: TxRegs)
  {
    && t.frame < 2048
    && t.bits <= TxBits
    && t.buffer == Shr(t.frame, t.bits)
    && |t.emitted| == t.bits
    && (forall i :: 0 <= i < t.bits ==> t.emitted[i] == Bit(t.frame, i))
    && (t.active ==> t.bits < TxBits)
    && (!t.active ==> t.buffer == 0)
  }

  /** One run of `sendData` on the register (the pin write is separate):
      nothing while the ticker is detached; otherwise the low bit goes out,
      the register shifts right and the ticker is detached after bit 12. */
  function TxNext(t: TxRegs): (u: TxRegs)
    ensures u.frame == t.frame
    ensures !t.active ==> u == t
    ensures t.active ==> u.bits == t.bits + 1 && u.emitted == t.emitted + [t.buffer % 2 == 1]
    ensures u.active ==> t.active
  {
    if !t.active then t
    else TxRegs(t.buffer / 2, t.bits + 1, t.bits + 1 != TxBits, t.frame, t.emitted + [t.buffer % 2 == 1])
  }

  /** A session loaded with an 11-bit frame satisfies the invariant. */
  lemma TxLoadInv(frame: nat)
    requires frame < 2048
    ensures TxInv(TxRegs(frame, 0, true, frame, []))
  {
  }

  /** A transmit tick keeps the transmitter's invariant; the bit it emits is
      the frame's next bit, and after the 12th the register is empty. */
  lemma TxNextInv(t: TxRegs)
    requires TxInv(t)
    ensures TxInv(TxNext(t))
    ensures t.active ==> (t.buffer % 2 == 1) == Bit(t.frame, t.bits)
  {
    if t.active {
      ShrStep(t.frame, t.bits);
      if t.bits + 1 == TxBits {
        Pow2Values();
        ShrSmall(t.frame, TxBits);
      }
    }
  }

  /** The receive side of the link: accumulator or mailbox (`rxBuffer`),
      `bitRXed`, receive ticker attached, the samples of the session (a
      ghost of the model) and edge interrupt attached. */
  datatype RxRegs = RxRegs(buffer: int, bits: nat, active: bool, samples: seq<bool>, armed: bool)

  /** The receiver's invariant: while sampling, the accumulator is the value
      of the samples taken and the edge interrupt is detached; otherwise
      the mailbox holds a byte or NO_VALID_DATA. */
  ghost predicate RxInv(r: RxRegs)
  {
    && r.bits <= RxBits
    && (r.active ==> r.bits < RxBits && |r.samples| == r.bits && r.buffer == Value(r.samples) && !r.armed)
    && (!r.active ==> r.buffer == NoValidData || 0 <= r.buffer < 256)
  }

  /** One run of `receiveData` with `sample` = `!digitalRead(rxIntPin)`:
      nothing while the ticker is detached; otherwise `sample << bitRXed` is
      added to the accumulator and, at the 10th sample, the ticker is
      detached and the end-of-frame check leaves the byte or NO_VALID_DATA
      (re-attaching the edge interrupt) in the mailbox. */
  function RxNext(r: RxRegs, sample: bool): (u: RxRegs)
    requires RxInv(r)
    ensures RxInv(u)
    ensures u.samples == if r.active then r.samples + [sample] else r.samples
  {
    if !r.active then r
    else
      ValueAppend(r.samples, sample);
      var acc: nat := r.buffer + (if sample then Pow2(r.bits) else 0);
      if r.bits + 1 == RxBits then
        var verdict := Decode(acc);
        RxRegs(verdict, r.bits + 1, false, r.samples + [sample], verdict == NoValidData)
      else
        RxRegs(acc, r.bits + 1, true, r.samples + [sample], r.armed)
  }

  /** What a receive tick does during a session: the sample is recorded;
      before the 10th the accumulator is the value of the samples so far,
      at the 10th the mailbox holds the receiver's verdict on those ten
      samples and the edge interrupt is re-attached exactly when it is
      NO_VALID_DATA. */
  lemma RxNextSample(r: RxRegs, sample: bool)
    requires RxInv(r) && r.active
    ensures RxNext(r, sample).samples == r.samples + [sample]
    ensures RxNext(r, sample).bits == r.bits + 1
    ensures r.bits + 1 < RxBits ==>
              RxNext(r, sample).active && RxNext(r, sample).buffer == Value(r.samples + [sample])
    ensures r.bits + 1 == RxBits ==>
              !RxNext(r, sample).active
              && RxNext(r, sample).buffer == Decode(Value(r.samples + [sample]))
              && RxNext(r, sample).armed == (RxNext(r, sample).buffer == NoValidData)
  {
    ValueAppend(r.samples, sample);
  }

  /** Outside a session a receive tick changes nothing. */
  lemma RxNextIdle(r: RxRegs, sample: bool)
    requires RxInv(r) && !r.active
    ensures RxNext(r, sample) == r
  {
  }

  /** The link's invariant: both sides' invariants, and the transmit pin
      is either off or at the carrier level. */
  ghost predicate LinkInv(t: TxRegs, r: RxRegs, level: nat)
  {
    TxInv(t) && RxInv(r) && (level == 0 || level == CarrierLevel)
  }

  /** A falling edge while the interrupt is attached runs
      `beginReceivingData`: with NO_VALID_DATA in the mailbox it detaches the
      interrupt and starts a session with an empty accumulator; with a byte
      waiting it does nothing. */
  function RxEdge(r: RxRegs): (u: RxRegs)
    ensures RxInv(r) ==> RxInv(u)
    ensures u.active == (r.active || (r.armed && r.buffer == NoValidData))
    ensures u.active && !r.active ==> u.bits == 0 && u.samples == [] && !u.armed
    ensures !(r.armed && r.buffer == NoValidData) ==> u == r
  {
    if r.armed && r.buffer == NoValidData then RxRegs(0, 0, true, [], false) else r
  }

  /** n runs of the transmit ticker. */
  function TxRun(t: TxRegs, n: nat): TxRegs
    decreases n
  {
    if n == 0 then t else TxRun(TxNext(t), n - 1)
  }

  /** Ticks within a session advance the bit counter one by one, the ticker
      stays attached until bit 12, and the invariant holds throughout. */
  lemma {:induction false} TxRunInv(t: TxRegs, n: nat)
    requires TxInv(t) && t.active && t.bits + n <= TxBits
    ensures TxInv(TxRun(t, n)) && TxRun(t, n).frame == t.frame
    ensures TxRun(t, n).bits == t.bits + n
    ensures TxRun(t, n).active == (t.bits + n < TxBits)
    decreases n
  {
    if n > 0 {
      TxNextInv(t);
      var u := TxNext(t);
      if n > 1 {
        TxRunInv(u, n - 1);
      }
    }
  }

  /** A whole transmit session: the 12 ticks after `sendByte` put the
      frame's bits on the wire, least significant first, and then leave the
      ticker detached and the register empty; bits 1 to 10 are exactly what
      a receiver aligned on the start bit samples. */
  lemma TxSession(b: Byte)
    ensures TxInv(TxRun(TxRegs(Frame(b), 0, true, Frame(b), []), TxBits))
    ensures !TxRun(TxRegs(Frame(b), 0, true, Frame(b), []), TxBits).active
    ensures TxRun(TxRegs(Frame(b), 0, true, Frame(b), []), TxBits).buffer == 0
    ensures |TxRun(TxRegs(Frame(b), 0, true, Frame(b), []), TxBits).emitted| == TxBits
    ensures forall i :: 0 <= i < TxBits ==>
              TxRun(TxRegs(Frame(b), 0, true, Frame(b), []), TxBits).emitted[i] == Bit(Frame(b), i)
    ensures TxRun(TxRegs(Frame(b), 0, true, Frame(b), []), TxBits).emitted[1..11] == CleanSamples(b)
  {
    var t := TxRegs(Frame(b), 0, true, Frame(b), []);
    TxLoadInv(Frame(b));
    TxRunInv(t, TxBits);
    var e := TxRun(t, TxBits).emitted;
    forall i | 0 <= i < 10
      ensures e[1..11][i] == CleanSamples(b)[i]
    {
      assert e[1..11][i] == e[i + 1];
    }
  }

  /** The receive ticker fed with `samples`, one per bit period. */
  ghost function RxRun(r: RxRegs, samples: seq<bool>): RxRegs
    requires RxInv(r)
    decreases |samples|
  {
    if samples == [] then r
    else
      RxRun(RxNext(r, samples[0]), samples[1..])
  }

  /** A receive session in progress: after the next samples, the session
      has recorded them; before the 10th the accumulator is their value, at
      the 10th the mailbox holds the receiver's verdict on all ten and the
      edge interrupt is re-attached exactly when that is NO_VALID_DATA. */
  lemma {:induction false} RxRunSession(r: RxRegs, samples: seq<bool>)
    requires RxInv(r) && r.active && r.bits + |samples| <= RxBits
    ensures RxInv(RxRun(r, samples))
    ensures RxRun(r, samples).samples == r.samples + samples
    ensures r.bits + |samples| < RxBits ==>
              RxRun(r, samples).active && RxRun(r, samples).buffer == Value(r.samples + samples)
    ensures r.bits + |samples| == RxBits ==>
              && !RxRun(r, samples).active
              && RxRun(r, samples).buffer == Decode(Value(r.samples + samples))
              && RxRun(r, samples).armed == (RxRun(r, samples).buffer == NoValidData)
    decreases |samples|
  {
    if samples == [] {
      assert r.samples + samples == r.samples;
    } else {
      var x := samples[0];
      RxNextSample(r, x);
      var u := RxNext(r, x);
      assert r.samples + samples == u.samples + samples[1..];
      if r.bits + 1 < RxBits {
        RxRunSession(u, samples[1..]);
      } else {
        assert samples[1..] == [];
      }
    }
  }

  /** A whole receive session started by the falling edge of the start bit:
      after ten samples the ticker is detached and the mailbox holds the
      verdict on them, a byte exactly when they are the clean samples of
      that byte, and the edge interrupt is re-attached only on
      NO_VALID_DATA. */
  lemma RxSession(r: RxRegs, samples: seq<bool>)
    requires RxInv(r) && r.armed && r.buffer == NoValidData && |samples| == RxBits
    ensures !RxRun(RxEdge(r), samples).active
    ensures RxRun(RxEdge(r), samples).samples == samples
    ensures RxRun(RxEdge(r), samples).buffer == Decode(Value(samples))
    ensures RxRun(RxEdge(r), samples).armed == (RxRun(RxEdge(r), samples).buffer == NoValidData)
  {
    RxRunSession(RxEdge(r), samples);
    assert [] + samples == samples;
  }

  /** End to end: a receiver whose edge interrupt catches the start bit of a
      frame and then samples bit periods 1 to 10 of the transmit session of
      byte b (which TxSession shows are `CleanSamples(b)`) ends with b in its
      mailbox; if any one of those samples is corrupted it ends with
      NO_VALID_DATA and re-attaches the edge interrupt. */
  lemma Transfer(r: RxRegs, b: Byte, i: nat)
    requires RxInv(r) && r.armed && r.buffer == NoValidData && i < RxBits
    ensures RxRun(RxEdge(r), CleanSamples(b)).buffer == b
    ensures var noisy := CleanSamples(b)[i := !CleanSamples(b)[i]];
            RxRun(RxEdge(r), noisy).buffer == NoValidData && RxRun(RxEdge(r), noisy).armed
  {
    var s := CleanSamples(b);
    RxSession(r, s);
    RoundTrip(b);
    var noisy := s[i := !s[i]];
    RxSession(r, noisy);
    SingleFlipRejected(b, i);
  }
}
