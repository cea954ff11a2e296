/**
 * Arbitrary interleavings of the plugin's entry points and the driver's
 * data callback, each taken as one atomic step, and what holds across them.
 */
module QrRuns {
  import opened Types
  import opened ScanDriver
  import opened QrState

  /** One call into the plugin. */
  datatype Event =
    | Scanned(delivered: Option<seq<uint8>>)   // the driver calls scan_callback
    | Checked                                  // the host calls CheckQr
    | Fetched(lenLimit: nat, now: uint64)      // the host calls GetQr
    | Used(now: uint64)                        // the host calls UsingQr
    | Started                                  // the host calls Init
    | Stopped                                  // the host calls Exit

  function Step(s: State, e: Event): State {
    match e
    case Scanned(delivered) => ScanCallback(s, delivered).0
    case Checked => CheckQr(s).0
    case Fetched(lenLimit, now) => GetQr(s, lenLimit, now).0
    case Used(now) => UsingQr(s, now)
    case Started => Init(s)
    case Stopped => Exit(s)
  }

  function Run(s: State, es: seq<Event>): State
    decreases |es|
  {
    if es == [] then s else Run(Step(s, es[0]), es[1..])
  }

  /** An event that deposits a payload. */
  predicate Deposits(e: Event) {
    e.Scanned? && Accepted(e.delivered)
  }

  /** How many events of `es` deposit a payload. */
  function Deposited(es: seq<Event>): nat
    decreases |es|
  {
    if es == [] then 0 else (if Deposits(es[0]) then 1 else 0) + Deposited(es[1..])
  }

  /** How many `CheckQr` calls of the run starting in `s` report true. */
  function Reported(s: State, es: seq<Event>): nat
    decreases |es|
  {
    if es == [] then 0
    else (if es[0].Checked? && s.detected then 1 else 0) + Reported(Step(s, es[0]), es[1..])
  }

  lemma {:induction false} RunAppend(s: State, es: seq<Event>, fs: seq<Event>)
    ensures Run(s, es + fs) == Run(Run(s, es), fs)
    decreases |es|
  {
    if es == [] {
      assert es + fs == fs;
    } else {
      assert (es + fs)[1..] == es[1..] + fs;
      RunAppend(Step(s, es[0]), es[1..], fs);
    }
  }

  lemma StepKeepsInv(s: State, e: Event)
    requires Inv(s)
    ensures Inv(Step(s, e))
  {
    match e
    case Scanned(delivered) => ScanCallbackKeepsInv(s, delivered);
    case Checked => CheckQrKeepsInv(s);
    case Fetched(lenLimit, now) => GetQrKeepsInv(s, lenLimit, now);
    case Used(now) => UsingQrKeepsInv(s, now);
    case Started => InitKeepsInv(s);
    case Stopped => ExitKeepsInv(s);
  }

  /** Every run from the initial globals keeps the invariant. */
  lemma {:induction false} RunKeepsInv(s: State, es: seq<Event>)
    requires Inv(s)
    ensures Inv(Run(s, es))
    decreases |es|
  {
    if es != [] {
      StepKeepsInv(s, es[0]);
      RunKeepsInv(Step(s, es[0]), es[1..]);
    }
  }

  /**
   * `CheckQr` reports each deposit at most once: the true reports of a run,
   * plus one for a flag still raised at its end, never exceed the deposits
   * of the run plus one for a flag raised at its start.
   */
  lemma {:induction false} ReportedAtMostOncePerDeposit(s: State, es: seq<Event>)
    ensures Reported(s, es) + (if Run(s, es).detected then 1 else 0)
         <= (if s.detected then 1 else 0) + Deposited(es)
    decreases |es|
  {
    if es != [] {
      ReportedAtMostOncePerDeposit(Step(s, es[0]), es[1..]);
    }
  }

  /** With the flag lowered and no deposit, no `CheckQr` of the run reports true. */
  lemma NothingReportedWithoutDeposit(s: State, es: seq<Event>)
    requires !s.detected && Deposited(es) == 0
    ensures Reported(s, es) == 0
  {
    ReportedAtMostOncePerDeposit(s, es);
  }

  /**
   * Without a poll nothing lowers the flag: at the end of a run with no
   * `CheckQr` the flag is raised exactly when it was raised at the start
   * or the run deposited a payload.
   */
  lemma {:induction false} FlagWithoutPoll(s: State, es: seq<Event>)
    requires forall i :: 0 <= i < |es| ==> !es[i].Checked?
    ensures Run(s, es).detected == (s.detected || Deposited(es) > 0)
    decreases |es|
  {
    if es != [] {
      assert !es[0].Checked?;
      FlagWithoutPoll(Step(s, es[0]), es[1..]);
    }
  }

  /**
   * No deposit is lost before the next poll: the first `CheckQr` after an
   * accepted payload reports true, whatever fetches, stamps, lifecycle
   * calls or refused callbacks come in between.
   */
  lemma FirstPollSeesDeposit(s: State, before: seq<Event>, delivered: Option<seq<uint8>>, mid: seq<Event>)
    requires Accepted(delivered)
    requires forall i :: 0 <= i < |mid| ==> !mid[i].Checked?
    ensures CheckQr(Run(s, before + [Scanned(delivered)] + mid)).1
  {
    RunAppend(s, before + [Scanned(delivered)], mid);
    RunAppend(s, before, [Scanned(delivered)]);
    var after := Run(s, before + [Scanned(delivered)]);
    assert after.detected;
    FlagWithoutPoll(after, mid);
  }

  /** A run without deposits leaves the buffer as it found it. */
  lemma {:induction false} BufferKeptWithoutDeposit(s: State, es: seq<Event>)
    requires forall i :: 0 <= i < |es| ==> !Deposits(es[i])
    ensures Run(s, es).buffer == s.buffer
    decreases |es|
  {
    if es != [] {
      assert !Deposits(es[0]);
      BufferKeptWithoutDeposit(Step(s, es[0]), es[1..]);
    }
  }

  /**
   * Last write wins: after a deposit followed by any events that deposit
   * nothing (polls, fetches, even oversized fetches), the buffer holds
   * exactly the bytes of that deposit, whatever came before it.
   */
  lemma LastWriteWins(s: State, before: seq<Event>, delivered: Option<seq<uint8>>, after: seq<Event>)
    requires Accepted(delivered)
    requires forall i :: 0 <= i < |after| ==> !Deposits(after[i])
    ensures Run(s, before + [Scanned(delivered)] + after).buffer == delivered.value
  {
    RunAppend(s, before + [Scanned(delivered)], after);
    RunAppend(s, before, [Scanned(delivered)]);
    var mid := Run(s, before + [Scanned(delivered)]);
    assert mid.buffer == delivered.value;
    BufferKeptWithoutDeposit(mid, after);
  }

  /**
   * The toggle after each step: a deposit and `Exit` disarm, `Init` and a
   * successful `GetQr` arm, every other step leaves it as it was.
   */
  lemma StepBinding(s: State, e: Event)
    ensures Deposits(e) || e.Stopped? ==> BindingOf(Device(Step(s, e).trace)) == Disarmed
    ensures e.Started? ==> BindingOf(Device(Step(s, e).trace)) == Armed
    ensures e.Fetched? && GetQr(s, e.lenLimit, e.now).1 != 0 ==> BindingOf(Device(Step(s, e).trace)) == Armed
    ensures !Deposits(e) && !e.Stopped? && !e.Started? && !(e.Fetched? && GetQr(s, e.lenLimit, e.now).1 != 0)
            ==> Step(s, e).trace == s.trace
  {
    match e
    case Scanned(delivered) =>
      if Accepted(delivered) { ScanCallbackDisarms(s, delivered); }
    case Checked =>
    case Fetched(lenLimit, now) =>
      if GetQr(s, lenLimit, now).1 != 0 { GetQrRearms(s, lenLimit, now); }
    case Used(now) =>
    case Started => InitArms(s);
    case Stopped => ExitDisarms(s);
  }
}
