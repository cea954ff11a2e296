/**
 * The plugin's process-wide state (the payload buffer, the detection flag,
 * the two timestamps) together with the trace of driver commands, and what
 * each exported entry point and the data callback do to it.
 */
module QrState {
  import opened Types
  import opened ScanDriver

  /** `SUCC` / `FAIL`, the status the data callback reports back to the driver. */
  datatype Status = Succ | Fail

  datatype State = State(
    buffer: seq<uint8>,      // qr_buffer
    detected: bool,          // qr_detected
    lastSend: uint64,        // last_send_time
    lastUsing: uint64,       // last_using_time
    trace: seq<Command>)     // every driver call issued so far, oldest first

  /** The globals' static initial values; no driver call issued yet. */
  const INITIAL := State([], false, 0, 0, [])

  /**
   * What every entry point keeps: a raised flag always has a payload behind
   * it, and light and scan are always set by the same `bind_change`.
   */
  predicate Inv(s: State) {
    (s.detected ==> |s.buffer| > 0) && Coupled(Device(s.trace))
  }

  lemma InitialInv()
    ensures Inv(INITIAL)
  {
  }

  /** The data callback accepts a payload only from a non-null buffer with a non-zero length. */
  predicate Accepted(delivered: Option<seq<uint8>>) {
    delivered.Some? && |delivered.value| > 0
  }

  /**
   * `scan_callback`. `delivered` is `None` for a null buffer and otherwise
   * the `uiBufLen` bytes the driver hands over. A malformed event is
   * refused; an accepted one replaces the buffer, raises the flag and
   * disarms.
   */
  function ScanCallback(s: State, delivered: Option<seq<uint8>>): (r: (State, Status))
    ensures r.1 == Succ <==> Accepted(delivered)
    ensures r.0.lastSend == s.lastSend && r.0.lastUsing == s.lastUsing
  {
    if delivered.None? || |delivered.value| == 0 then (s, Fail)
    else (s.(buffer := delivered.value, detected := true, trace := s.trace + BindCommands(0)), Succ)
  }

  /** `CheckQr`: report the flag and lower it. */
  function CheckQr(s: State): (r: (State, bool))
    ensures r.1 == s.detected
    ensures !r.0.detected
    ensures r.0.buffer == s.buffer && r.0.trace == s.trace
    ensures r.0.lastSend == s.lastSend && r.0.lastUsing == s.lastUsing
  {
    (s.(detected := false), s.detected)
  }

  /**
   * `GetQr`: the number of bytes handed to the caller, 0 when there is no
   * payload or it is longer than `lenLimit`. The copy itself is the class
   * method's business; here is what happens to the globals.
   */
  function GetQr(s: State, lenLimit: nat, now: uint64): (r: (State, nat))
    ensures r.1 <= lenLimit
    ensures r.1 == 0 <==> |s.buffer| == 0 || |s.buffer| > lenLimit
    ensures r.1 != 0 ==> r.1 == |s.buffer|
    ensures r.0.buffer == s.buffer && r.0.detected == s.detected
  {
    if |s.buffer| == 0 || |s.buffer| > lenLimit then (s, 0)
    else (s.(lastSend := now, trace := s.trace + BindCommands(1)), |s.buffer|)
  }

  /** `UsingQr`: stamp the time the host started using the scanner. */
  function UsingQr(s: State, now: uint64): (r: State)
    ensures r.lastUsing == now
    ensures r.(lastUsing := s.lastUsing) == s
  {
    s.(lastUsing := now)
  }

  /** The driver calls `Init` makes once the library is loaded. */
  function InitCommands(): seq<Command> {
    [RegisterDataCallback, RegisterStateCallback, ScanInit] + BindCommands(1)
  }

  /** `Init`: register both callbacks, initialise the driver, arm. */
  function Init(s: State): (r: State)
    ensures r.(trace := s.trace) == s
  {
    s.(trace := s.trace + InitCommands())
  }

  /** The driver calls `Exit` makes. */
  function ExitCommands(): seq<Command> {
    BindCommands(0) + [ScanDeinit]
  }

  /** `Exit`: disarm, then release the driver. */
  function Exit(s: State): (r: State)
    ensures r.(trace := s.trace) == s
  {
    s.(trace := s.trace + ExitCommands())
  }

  // ---------------------------------------------------------------------
  // The arm/disarm toggle across the lifecycle

  /** After `Init` the driver is initialised and armed, whatever came before. */
  lemma InitArms(s: State)
    ensures Device(Init(s).trace).initialized
    ensures Coupled(Device(Init(s).trace))
    ensures BindingOf(Device(Init(s).trace)) == Armed
  {
    var t := s.trace;
    ReplaySnoc(POWER_ON, t, RegisterDataCallback);
    ReplaySnoc(POWER_ON, t + [RegisterDataCallback], RegisterStateCallback);
    ReplaySnoc(POWER_ON, t + [RegisterDataCallback] + [RegisterStateCallback], ScanInit);
    var p := t + [RegisterDataCallback] + [RegisterStateCallback] + [ScanInit];
    assert Init(s).trace == p + BindCommands(1);
    BindEffect(p, 1);
  }

  /** After `Exit` the device is disarmed and released, whatever came before. */
  lemma ExitDisarms(s: State)
    ensures !Device(Exit(s).trace).initialized
    ensures Coupled(Device(Exit(s).trace))
    ensures BindingOf(Device(Exit(s).trace)) == Disarmed
  {
    var p := s.trace + BindCommands(0);
    BindEffect(s.trace, 0);
    ReplaySnoc(POWER_ON, p, ScanDeinit);
    assert Exit(s).trace == p + [ScanDeinit];
  }

  /** An accepted payload ends with the device disarmed. */
  lemma ScanCallbackDisarms(s: State, delivered: Option<seq<uint8>>)
    requires Accepted(delivered)
    ensures Coupled(Device(ScanCallback(s, delivered).0.trace))
    ensures BindingOf(Device(ScanCallback(s, delivered).0.trace)) == Disarmed
  {
    BindEffect(s.trace, 0);
  }

  /** A payload handed to the caller ends with the device armed again. */
  lemma GetQrRearms(s: State, lenLimit: nat, now: uint64)
    requires GetQr(s, lenLimit, now).1 != 0
    ensures Coupled(Device(GetQr(s, lenLimit, now).0.trace))
    ensures BindingOf(Device(GetQr(s, lenLimit, now).0.trace)) == Armed
  {
    BindEffect(s.trace, 1);
  }

  // ---------------------------------------------------------------------
  // The mailbox

  /** A malformed event changes nothing: buffer, flag, timestamps and trace. */
  lemma ScanCallbackRejects(s: State, delivered: Option<seq<uint8>>)
    requires !Accepted(delivered)
    ensures ScanCallback(s, delivered) == (s, Fail)
  {
  }

  /**
   * An accepted event leaves exactly the delivered bytes in the buffer,
   * whatever it held before, raises the flag and appends the disarm commands.
   */
  lemma ScanCallbackReplaces(s: State, delivered: Option<seq<uint8>>)
    requires Accepted(delivered)
    ensures ScanCallback(s, delivered).0.buffer == delivered.value
    ensures ScanCallback(s, delivered).0.detected
    ensures ScanCallback(s, delivered).0.trace == s.trace + BindCommands(0)
  {
  }

  /** Two accepted events in a row: the second one's bytes are what is held. */
  lemma LastDepositWins(s: State, first: Option<seq<uint8>>, second: Option<seq<uint8>>)
    requires Accepted(second)
    ensures ScanCallback(ScanCallback(s, first).0, second).0.buffer == second.value
  {
  }

  /** `CheckQr` is edge-triggered: an immediate second call reports false. */
  lemma CheckQrOnce(s: State)
    ensures CheckQr(s).1 == s.detected
    ensures !CheckQr(CheckQr(s).0).1
  {
  }

  /** Right after an accepted event `CheckQr` reports it. */
  lemma CheckQrSeesDeposit(s: State, delivered: Option<seq<uint8>>)
    requires Accepted(delivered)
    ensures CheckQr(ScanCallback(s, delivered).0).1
  {
  }

  /**
   * A reported code can be fetched: once `CheckQr` returns true, a `GetQr`
   * whose limit covers the payload hands out all of it.
   */
  lemma ReportedCodeCanBeFetched(s: State, lenLimit: nat, now: uint64)
    requires Inv(s)
    requires CheckQr(s).1
    requires lenLimit >= |s.buffer|
    ensures GetQr(CheckQr(s).0, lenLimit, now).1 == |s.buffer| > 0
  {
  }

  /** A refused `GetQr` changes nothing: an oversized payload stays where it is. */
  lemma GetQrRefusalKeepsState(s: State, lenLimit: nat, now: uint64)
    requires |s.buffer| == 0 || |s.buffer| > lenLimit
    ensures GetQr(s, lenLimit, now) == (s, 0)
  {
  }

  /**
   * A successful `GetQr` does not consume the payload: a second call with a
   * limit at least as large hands out the same bytes again.
   */
  lemma GetQrRepeats(s: State, lenLimit: nat, now: uint64, laterLimit: nat, later: uint64)
    requires GetQr(s, lenLimit, now).1 != 0
    requires laterLimit >= lenLimit
    ensures GetQr(GetQr(s, lenLimit, now).0, laterLimit, later).1 == GetQr(s, lenLimit, now).1
    ensures GetQr(GetQr(s, lenLimit, now).0, laterLimit, later).0.buffer == s.buffer
  {
  }

  /** A successful `GetQr` stamps the send time and issues only the arm commands. */
  lemma GetQrStamps(s: State, lenLimit: nat, now: uint64)
    requires GetQr(s, lenLimit, now).1 != 0
    ensures GetQr(s, lenLimit, now).0 == s.(lastSend := now, trace := s.trace + BindCommands(1))
  {
  }

  // ---------------------------------------------------------------------
  // The invariant

  lemma ScanCallbackKeepsInv(s: State, delivered: Option<seq<uint8>>)
    requires Inv(s)
    ensures Inv(ScanCallback(s, delivered).0)
  {
    if Accepted(delivered) {
      ScanCallbackDisarms(s, delivered);
    }
  }

  lemma CheckQrKeepsInv(s: State)
    requires Inv(s)
    ensures Inv(CheckQr(s).0)
  {
  }

  lemma GetQrKeepsInv(s: State, lenLimit: nat, now: uint64)
    requires Inv(s)
    ensures Inv(GetQr(s, lenLimit, now).0)
  {
    if GetQr(s, lenLimit, now).1 != 0 {
      GetQrRearms(s, lenLimit, now);
    }
  }

  lemma UsingQrKeepsInv(s: State, now: uint64)
    requires Inv(s)
    ensures Inv(UsingQr(s, now))
  {
  }

  lemma InitKeepsInv(s: State)
    requires Inv(s)
    ensures Inv(Init(s))
  {
    InitArms(s);
  }

  lemma ExitKeepsInv(s: State)
    requires Inv(s)
    ensures Inv(Exit(s))
  {
    ExitDisarms(s);
  }

  /**
   * The scenario of a host session: `Init`, a three-byte code, two polls,
   * a fetch into a ten-byte buffer.
   */
  lemma HostSession(now: uint64)
    ensures var s1 := Init(INITIAL);
            var (s2, st) := ScanCallback(s1, Some([0x41, 0x42, 0x43]));
            var (s3, first) := CheckQr(s2);
            var (s4, second) := CheckQr(s3);
            var (s5, n) := GetQr(s4, 10, now);
            && BindingOf(Device(s1.trace)) == Armed
            && st == Succ && BindingOf(Device(s2.trace)) == Disarmed
            && first && !second
            && n == 3 && s5.buffer == [0x41, 0x42, 0x43]
            && BindingOf(Device(s5.trace)) == Armed
  {
    var s1 := Init(INITIAL);
    InitArms(INITIAL);
    var (s2, _) := ScanCallback(s1, Some([0x41, 0x42, 0x43]));
    ScanCallbackDisarms(s1, Some([0x41, 0x42, 0x43]));
    var (s3, _) := CheckQr(s2);
    var (s4, _) := CheckQr(s3);
    GetQrRearms(s4, 10, now);
  }
}
