/**
 * The plugin itself: its globals as the fields of one object, each exported
 * entry point and the driver's data callback as a method that updates them
 * in place, and every driver call appended to `trace`. Each method is tied
 * to the function of `QrState` that says what it does to the globals.
 */
module T613Qr {
  import opened Types
  import opened ScanDriver
  import QrState

  class QrPlugin {
    var qrBuffer: seq<uint8>
    var qrDetected: bool
    var lastSendTime: uint64
    var lastUsingTime: uint64
    var trace: seq<Command>

    /** The globals as a value. */
    function Snapshot(): QrState.State
      reads this
    {
      QrState.State(qrBuffer, qrDetected, lastSendTime, lastUsingTime, trace)
    }

    ghost predicate Valid()
      reads this
    {
      QrState.Inv(Snapshot())
    }

    /** The globals' static initial values. */
    constructor ()
      ensures Valid()
      ensures Snapshot() == QrState.INITIAL
    {
      qrBuffer := [];
      qrDetected := false;
      lastSendTime := 0;
      lastUsingTime := 0;
      trace := [];
    }

    /** `scan_change`: switch scanning on or off. */
    method ScanChange(state: uint8)
      modifies this`trace
      ensures trace == old(trace) + [ScanCommand(state)]
    {
      trace := trace + [ScanSw(state)];
    }

    /** `light_change`: ask for light mode `state + 1`, permanently. */
    method LightChange(state: uint8)
      modifies this`trace
      ensures trace == old(trace) + [LightCommand(state)]
    {
      trace := trace + [SetLightMode(LightModeFor(state), 0)];
    }

    /** `bind_change`: arm (light, then scan) or disarm (scan, then light). */
    method BindChange(state: uint8)
      modifies this`trace
      ensures trace == old(trace) + BindCommands(state)
    {
      if state != 0 {
        LightChange(1);
        ScanChange(1);
      } else {
        ScanChange(0);
        LightChange(0);
      }
    }

    /**
     * `scan_callback`: the driver hands over `uiBufLen` bytes at `pBuf`.
     * A null buffer or a zero length is refused and changes nothing;
     * otherwise the buffer is emptied and refilled with exactly those bytes,
     * the flag is raised and the device disarmed.
     */
    method ScanCallback(pBuf: array?<uint8>, uiBufLen: uint32) returns (status: QrState.Status)
      requires Valid()
      requires pBuf != null ==> uiBufLen as int <= pBuf.Length
      modifies this
      ensures Valid()
      ensures (Snapshot(), status)
           == QrState.ScanCallback(old(Snapshot()), if pBuf == null then None else Some(pBuf[..uiBufLen]))
      ensures status == QrState.Fail ==> Snapshot() == old(Snapshot())
      ensures status == QrState.Succ ==>
                qrBuffer == pBuf[..uiBufLen] && qrDetected && trace == old(trace) + BindCommands(0)
    {
      ghost var delivered := if pBuf == null then None else Some(pBuf[..uiBufLen]);
      if pBuf == null || uiBufLen == 0 {
        return QrState.Fail;
      }
      qrBuffer := [];
      for i := 0 to uiBufLen as int
        invariant qrBuffer == pBuf[..i]
        invariant qrDetected == old(qrDetected) && trace == old(trace)
        invariant lastSendTime == old(lastSendTime) && lastUsingTime == old(lastUsingTime)
      {
        qrBuffer := qrBuffer + [pBuf[i]];
      }
      qrDetected := true;
      BindChange(0);
      status := QrState.Succ;
      QrState.ScanCallbackKeepsInv(old(Snapshot()), delivered);
    }

    /** `CheckQr`: report whether a code arrived since the last call, and forget it. */
    method CheckQr() returns (found: bool)
      requires Valid()
      modifies this`qrDetected
      ensures Valid()
      ensures found == old(qrDetected) && !qrDetected
      ensures (Snapshot(), found) == QrState.CheckQr(old(Snapshot()))
    {
      QrState.CheckQrKeepsInv(Snapshot());
      if qrDetected {
        qrDetected := false;
        return true;
      }
      return false;
    }

    /**
     * `GetQr`: copy the held payload into the caller's buffer when there is
     * one and it fits in `lenLimit` bytes, stamp the send time and re-arm;
     * otherwise return 0 and change nothing. The payload is not cleared.
     */
    method GetQr(lenLimit: nat, buffer: array<uint8>, now: uint64) returns (n: nat)
      requires Valid()
      requires lenLimit <= buffer.Length
      modifies this, buffer
      ensures Valid()
      ensures (Snapshot(), n) == QrState.GetQr(old(Snapshot()), lenLimit, now)
      ensures n <= lenLimit
      ensures buffer[..n] == qrBuffer[..n]
      ensures buffer[n..] == old(buffer[n..])
      ensures n != 0 ==> buffer[..n] == qrBuffer == old(qrBuffer)
    {
      if |qrBuffer| == 0 || |qrBuffer| > lenLimit {
        return 0;
      }
      lastSendTime := now;
      var i := 0;
      while i < |qrBuffer|
        invariant Snapshot() == old(Snapshot()).(lastSend := now)
        invariant 0 <= i <= |qrBuffer| <= buffer.Length
        invariant buffer[..i] == qrBuffer[..i]
        invariant buffer[i..] == old(buffer[i..])
      {
        buffer[i] := qrBuffer[i];
        i := i + 1;
      }
      BindChange(1);
      n := |qrBuffer|;
      QrState.GetQrKeepsInv(old(Snapshot()), lenLimit, now);
    }

    /** `UsingQr`: stamp the time the host started using the scanner. */
    method UsingQr(now: uint64)
      requires Valid()
      modifies this`lastUsingTime
      ensures Valid()
      ensures Snapshot() == QrState.UsingQr(old(Snapshot()), now)
    {
      QrState.UsingQrKeepsInv(Snapshot(), now);
      lastUsingTime := now;
    }

    /**
     * `Init`, once the driver library is loaded: register the data and the
     * state callback, initialise the driver, arm.
     */
    method Init()
      requires Valid()
      modifies this`trace
      ensures Valid()
      ensures trace == old(trace) + [RegisterDataCallback, RegisterStateCallback, ScanInit] + BindCommands(1)
      ensures Snapshot() == QrState.Init(old(Snapshot()))
    {
      trace := trace + [RegisterDataCallback];
      trace := trace + [RegisterStateCallback];
      trace := trace + [ScanInit];
      BindChange(1);
      assert Snapshot() == QrState.Init(old(Snapshot()));
      QrState.InitKeepsInv(old(Snapshot()));
    }

    /** `Exit`: disarm, then release the driver. */
    method Exit()
      requires Valid()
      modifies this`trace
      ensures Valid()
      ensures trace == old(trace) + BindCommands(0) + [ScanDeinit]
      ensures Snapshot() == QrState.Exit(old(Snapshot()))
    {
      BindChange(0);
      trace := trace + [ScanDeinit];
      assert Snapshot() == QrState.Exit(old(Snapshot()));
      QrState.ExitKeepsInv(old(Snapshot()));
    }
  }
}
