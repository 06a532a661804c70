/** The IR transceiver of BlynkTank/CIR.cpp as an explicit state machine.

    The source keeps its shift registers and counters in globals driven by
    two Ticker callbacks (`sendData`, `receiveData`) and a falling-edge
    interrupt (`beginReceivingData`). Here they are the fields of one
    IRLink object, and each interrupt source is an event method:
      - TxTick: the transmit ticker fires (only while it is attached);
      - RxTick(sample): the receive ticker fires, `sample` is `!digitalRead`;
      - Edge: a falling edge on the receive pin (only while the interrupt
        is attached).
    Ticker or interrupt attached/detached is a flag. */
module CIR {
  import opened Bits
  import opened IRFrame
  import opened IRState

  /** The end-of-frame check of `receiveData` on the complete accumulator:
      the low byte when the parity sample (bit 8) matches the even parity of
      the low byte and the stop sample (bit 9) is 1, else NO_VALID_DATA
      (the caller then re-attaches the edge interrupt). */
  method CheckFrame(acc: nat) returns (r: int)
    ensures r == Decode(acc)
  {
    var buffer: Byte := acc % 256;
    var evenParity := RxParity(buffer);
    if (acc / 256) % 2 != evenParity {
      return NoValidData;
    }
    if (acc / 512) % 2 != 1 {
      return NoValidData;
    }
    return buffer;
  }

  class IRLink {
    /** uint16_t txBuffer: the frame still to be shifted out. */
    var txBuffer: nat
    /** uint8_t bitTXed. */
    var bitTXed: nat
    /** txTicker.active(). */
    var txActive: bool
    /** int16_t rxBuffer: the accumulator while sampling, afterwards the mailbox. */
    var rxBuffer: int
    /** uint8_t bitRXed. */
    var bitRXed: nat
    /** rxTicker.active(). */
    var rxActive: bool
    /** The falling-edge interrupt is attached to beginReceivingData. */
    var edgeArmed: bool
    /** m_isTransmittingCarrier. */
    var carrierOn: bool
    /** The last value written with analogWrite to the transmit pin. */
    var txLevel: nat

    /** The frame of the current (or last) transmit session. */
    ghost var txFrame: nat
    /** The bits emitted so far in the current transmit session. */
    ghost var txEmitted: seq<bool>
    /** The samples taken so far in the current receive session. */
    ghost var rxSamples: seq<bool>

    /** The transmit side's registers. */
    ghost function Tx(): TxRegs
      reads this`txBuffer, this`bitTXed, this`txActive, this`txFrame, this`txEmitted
    {
      TxRegs(txBuffer, bitTXed, txActive, txFrame, txEmitted)
    }


    /** The receive side's registers. */
    ghost function Rx(): RxRegs
      reads this`rxBuffer, this`bitRXed, this`rxActive, this`rxSamples, this`edgeArmed
    {
      RxRegs(rxBuffer, bitRXed, rxActive, rxSamples, edgeArmed)
    }


    ghost predicate Valid()
      reads this`txBuffer, this`bitTXed, this`txActive, this`txFrame, this`txEmitted
      reads this`rxBuffer, this`bitRXed, this`rxActive, this`rxSamples, this`edgeArmed, this`txLevel
    {
      LinkInv(Tx(), Rx(), txLevel)
    }

    /** `CIR::CIR`: output off, edge interrupt attached, empty mailbox. */
    constructor ()
      ensures Valid()
      ensures !txActive && !rxActive && edgeArmed && !carrierOn
      ensures rxBuffer == NoValidData && txBuffer == 0 && bitTXed == 0 && bitRXed == 0
      ensures txLevel == 0
    {
      txBuffer, bitTXed, txActive := 0, 0, false;
      rxBuffer, bitRXed, rxActive := NoValidData, 0, false;
      edgeArmed, carrierOn, txLevel := true, false, 0;
      txFrame, txEmitted, rxSamples := 0, [], [];
    }

    /** `isSendingData`. */
    method IsSendingData() returns (r: bool)
      ensures r == txActive
    {
      r := txActive;
    }

    /** `isReceivingData`. */
    method IsReceivingData() returns (r: bool)
      ensures r == rxActive
    {
      r := rxActive;
    }

    /** `transmitCarrier(enable)`: refused while sending or receiving; on
        switches the steady carrier on and detaches the edge interrupt, off
        switches it off and re-attaches the edge interrupt. */
    method TransmitCarrier(enable: bool) returns (ok: bool)
      requires Valid()
      modifies this`edgeArmed, this`txLevel, this`carrierOn
      ensures Valid()
      ensures ok == !(old(txActive) || old(rxActive))
      ensures !ok ==> unchanged(this)
      ensures ok ==> carrierOn == enable && edgeArmed == !enable
      ensures ok ==> txLevel == if enable then CarrierLevel else 0
    {
      var sending := IsSendingData();
      var receiving := IsReceivingData();
      if sending || receiving {
        return false;
      }
      if enable {
        edgeArmed := false;
        txLevel := CarrierLevel;
        carrierOn := true;
      } else {
        txLevel := 0;
        carrierOn := false;
        edgeArmed := true;
      }
      return true;
    }

    /** `sendByte(data)`: refused while a send is active; otherwise switches
        carrier mode off if it was on (which `transmitCarrier` refuses while a
        receive is active), loads the frame and starts the transmit ticker.
        The receive side is left alone. */
    method SendByte(data: Byte) returns (ok: bool)
      requires Valid()
      modifies this`txBuffer, this`bitTXed, this`txActive, this`txFrame, this`txEmitted,
               this`carrierOn, this`edgeArmed, this`txLevel
      ensures Valid()
      ensures ok == !old(txActive)
      ensures !ok ==> unchanged(this)
      ensures ok ==> Tx() == TxRegs(Frame(data), 0, true, Frame(data), [])
      ensures ok ==> carrierOn == (old(carrierOn) && old(rxActive))
      ensures ok ==> edgeArmed == (old(edgeArmed) || (old(carrierOn) && !old(rxActive)))
      ensures ok ==> txLevel == if old(carrierOn) && !old(rxActive) then 0 else old(txLevel)
    {
      var sending := IsSendingData();
      if sending {
        return false;
      }
      if carrierOn {
        var dropped := TransmitCarrier(false);
      }
      var parity := TxParity(data);
      // start bit + data + even parity + stop bit
      var frame: nat := 1 + data * 2 + parity * 512 + 0x0400;
      TxLoadInv(frame);
      bitTXed, txBuffer, txActive := 0, frame, true;
      txFrame, txEmitted := frame, [];
      return true;
    }

    /** `sendData`, run by the transmit ticker: writes the carrier level for
        the register's low bit, which is the frame's next bit, then shifts
        the register (a no-op while the ticker is detached). */
    method TxTick()
      requires Valid()
      modifies this`txBuffer, this`bitTXed, this`txActive, this`txFrame, this`txEmitted, this`txLevel
      ensures Valid()
      ensures Tx() == TxNext(old(Tx()))
      ensures old(txActive) ==> txLevel == if old(txBuffer) % 2 == 1 then CarrierLevel else 0
      ensures old(txActive) ==> (txLevel != 0) == Bit(txFrame, old(bitTXed))
      ensures !old(txActive) ==> txLevel == old(txLevel)
    {
      TxNextInv(Tx());
      if txActive {
        if txBuffer % 2 == 1 {
          txLevel := CarrierLevel;
        } else {
          txLevel := 0;
        }
        txBuffer, bitTXed, txEmitted := txBuffer / 2, bitTXed + 1, txEmitted + [txBuffer % 2 == 1];
        if TxBits == bitTXed {
          txActive := false;
        }
      }
    }

    /** A falling edge on the receive pin: runs `beginReceivingData` while
        the interrupt is attached, and is ignored otherwise. */
    method Edge()
      requires Valid()
      modifies this`rxBuffer, this`bitRXed, this`rxActive, this`rxSamples, this`edgeArmed
      ensures Valid()
      ensures Rx() == RxEdge(old(Rx()))
    {
      if edgeArmed {
        if NoValidData == rxBuffer {
          edgeArmed := false;
          bitRXed := 0;
          rxBuffer := 0;
          rxSamples := [];
          rxActive := true;
        }
      }
    }

    /** `receiveData`, run by the receive ticker (a no-op while the ticker
        is detached). */
    method RxTick(sample: bool)
      requires Valid()
      modifies this`rxBuffer, this`bitRXed, this`rxActive, this`rxSamples, this`edgeArmed
      ensures Valid()
      ensures Rx() == RxNext(old(Rx()), sample)
    {
      ghost var before := Rx();
      if rxActive {
        // `buffer << bitRXed` with buffer = !digitalRead(...) in {0, 1}
        var shifted: nat := if sample then Pow2(bitRXed) else 0;
        var acc: nat := rxBuffer + shifted;
        if RxBits == bitRXed + 1 {
          var verdict := CheckFrame(acc);
          rxBuffer, bitRXed, rxActive, rxSamples, edgeArmed :=
            verdict, bitRXed + 1, false, rxSamples + [sample], verdict == NoValidData;
        } else {
          rxBuffer, bitRXed, rxSamples := acc, bitRXed + 1, rxSamples + [sample];
        }
      }
      assert Rx() == RxNext(before, sample);
    }

    /** `available`: a byte is waiting and no receive session is running. */
    method Available() returns (r: bool)
      requires Valid()
      ensures r == (rxBuffer != NoValidData && !rxActive)
      ensures r ==> 0 <= rxBuffer < 256
    {
      var receiving := IsReceivingData();
      if NoValidData == rxBuffer || receiving {
        return false;
      }
      return true;
    }

    /** `receiveByte`: NO_VALID_DATA without any change while sampling;
        otherwise the mailbox content, and a byte taken out of the mailbox
        empties it and re-attaches the edge interrupt. */
    method ReceiveByte() returns (r: int)
      requires Valid()
      modifies this`rxBuffer, this`edgeArmed
      ensures Valid()
      ensures r == NoValidData || 0 <= r < 256
      ensures old(rxActive) ==> r == NoValidData && unchanged(this)
      ensures !old(rxActive) ==> r == old(rxBuffer)
      ensures r == NoValidData ==> unchanged(this)
      ensures r != NoValidData ==> rxBuffer == NoValidData && edgeArmed
    {
      var receiving := IsReceivingData();
      if receiving {
        return NoValidData;
      }
      var temp := rxBuffer;
      if NoValidData != rxBuffer {
        rxBuffer := NoValidData;
        edgeArmed := true;
      }
      return temp;
    }
  }
}
