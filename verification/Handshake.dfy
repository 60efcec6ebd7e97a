/** How a failed DTLS handshake is classified (go_client/handshake_classification.go) and how RunSession hands
    its permit back on every path (go_client/session.go). */
module Handshake {
  import opened Base
  import opened TurnTable
  import TurnScheduler

  /** What is known when a handshake has failed. */
  datatype Failure = Failure(
    parentStopped: bool,       // the outer context had ended
    handshakeExpired: bool,    // the handshake context ended with DeadlineExceeded
    timeoutError: bool,        // the error itself is a network timeout
    sessionDown: bool)         // the session was torn down internally

  datatype Report = ParentEnded | DtlsTimeout | SessionTeardown | DtlsError

  /** classifyHandshakeFailure: the order of the tests matters. */
  function Classify(f: Failure): (r: (Outcome, Report)) {
    if f.parentStopped then (Canceled, ParentEnded)
    else if f.handshakeExpired || f.timeoutError then (Timeout, DtlsTimeout)
    else if f.sessionDown then (Other, SessionTeardown)
    else (Other, DtlsError)
  }

  /** permitOutcome: the only rewriting allowed when the permit is handed back. */
  function PermitOutcome(parentStopped: bool, outcome: Outcome): (r: Outcome) {
    if outcome == Other && parentStopped then Canceled else outcome
  }

  /** How a session with a permit ends its handshake part. */
  datatype Path =
    | PreparationFails                // dial, client, listen or allocate
    | ClientFails                     // DTLS client or certificate
    | HandshakeFails(failure: Failure)
    | HandshakeSucceeds

  /** The outcome variable of RunSession at the moment the permit is released. */
  function OutcomeOn(p: Path): (o: Outcome) {
    match p
    case PreparationFails => Other
    case ClientFails => Other
    case HandshakeFails(f) => Classify(f).0
    case HandshakeSucceeds => Success
  }

  /** A path counts as a timeout exactly when the handshake failed under a live outer context and either its own
      deadline passed or the error was a timeout, whether or not the session was torn down meanwhile and whether
      or not the outer context ended before the permit was handed back. */
  lemma TimeoutExactly(p: Path, stoppedAtRelease: bool)
    ensures PermitOutcome(stoppedAtRelease, OutcomeOn(p)) == Timeout <==>
              p.HandshakeFails? && !p.failure.parentStopped && (p.failure.handshakeExpired || p.failure.timeoutError)
    ensures PermitOutcome(stoppedAtRelease, OutcomeOn(p)) == Success <==> p.HandshakeSucceeds?
    ensures PermitOutcome(stoppedAtRelease, OutcomeOn(p)) == Canceled <==>
              || (p.HandshakeFails? && p.failure.parentStopped)
              || (stoppedAtRelease && !p.HandshakeSucceeds?
                  && !(p.HandshakeFails? && (p.failure.handshakeExpired || p.failure.timeoutError)))
  {
  }

  /** What the caller is told: the outer context's end first, then the timeout, then the teardown, then the error. */
  lemma ReportExactly(f: Failure)
    ensures Classify(f).1 == ParentEnded <==> f.parentStopped
    ensures Classify(f).1 == DtlsTimeout <==> !f.parentStopped && (f.handshakeExpired || f.timeoutError)
    ensures Classify(f).1 == SessionTeardown <==>
              !f.parentStopped && !f.handshakeExpired && !f.timeoutError && f.sessionDown
  {
  }

  /** Through classification, release and the scheduler: the endpoint's failure count grows by exactly one on those
      paths, is cleared by a success, and is left alone on every other path. */
  lemma FailureCountOnPath(tb: Table, k: Key, multi: bool, p: Path, stoppedAtRelease: bool, now: Time)
    requires k in tb.rows
    ensures var before := tb.rows[k].failures;
            var after := FinishTable(tb, k, multi, PermitOutcome(stoppedAtRelease, OutcomeOn(p)), now).rows[k].failures;
            && (p.HandshakeFails? && p.failure.parentStopped ==> after == before)
            && (p.HandshakeFails? && !p.failure.parentStopped && p.failure.handshakeExpired ==> after == before + 1)
            && (after == before + 1 <==>
                  p.HandshakeFails? && !p.failure.parentStopped && (p.failure.handshakeExpired || p.failure.timeoutError))
            && (p.HandshakeSucceeds? ==> after == 0)
            && forall j :: j in tb.rows && j != k ==>
                 FinishTable(tb, k, multi, PermitOutcome(stoppedAtRelease, OutcomeOn(p)), now).rows[j] == tb.rows[j]
  {
    TimeoutExactly(p, stoppedAtRelease);
    var o := PermitOutcome(stoppedAtRelease, OutcomeOn(p));
    assert FinishRow(tb.rows[k], multi, o, now).failures
           == (if o == Success then 0 else if o == Timeout then tb.rows[k].failures + 1 else tb.rows[k].failures);
  }

  /** The permit's life inside RunSession: released early on the paths that know their outcome and again by the
      deferred call, yet given back exactly once, with the outcome of the path taken. */
  method RunSession(permit: TurnScheduler.Permit, path: Path, stoppedAtRelease: bool, now: Time)
    requires permit.scheduler.Valid() && !permit.finished && permit.scheduler.global > 0
    modifies permit`finished, permit.scheduler`endpoints, permit.scheduler`nextId, permit.scheduler`notify,
             permit.scheduler`global, permit.scheduler.endpoints.Values
    ensures permit.finished && permit.scheduler.Valid()
    ensures permit.scheduler.global == old(permit.scheduler.global) - 1
    ensures permit.scheduler.notify == old(permit.scheduler.notify) + 1
    ensures permit.scheduler.View() == FinishTable(old(permit.scheduler.View()), permit.cand.key, permit.multi,
                                                   PermitOutcome(stoppedAtRelease, OutcomeOn(path)), now)
  {
    var outcome := Other;
    match path {
      case PreparationFails =>
      case ClientFails =>
        permit.Finish(PermitOutcome(stoppedAtRelease, outcome), now);
      case HandshakeFails(f) =>
        outcome := Classify(f).0;
        permit.Finish(PermitOutcome(stoppedAtRelease, outcome), now);
      case HandshakeSucceeds =>
        outcome := Success;
        permit.Finish(PermitOutcome(stoppedAtRelease, outcome), now);
    }
    // deferred
    permit.Finish(PermitOutcome(stoppedAtRelease, outcome), now);
  }

  /** Remembers the first error that tore the session down. */
  class TeardownCause {
    var err: Option<string>

    constructor ()
      ensures err == None
    {
      err := None;
    }

    method Record(e: Option<string>)
      modifies this
      ensures err == if old(err).Some? then old(err) else e
    {
      if e == None { return; }
      if err == None { err := e; }
    }
  }
}
