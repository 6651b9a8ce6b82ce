/**
 The rotating admission QR (backend/admission-qr.js, backend/admission.js): issuing needs an OWNED ticket and resets
 the credential on the way, even when it then fails; gates accept a code at most once between them.  Keyed signing is
 a parameter; the risk band, device trust and performance lookup of a request are inputs.
 */
module DynamicQr {
  import opened Prelude

  type UserId = nat
  type TicketId = string
  type GateId = string
  type Signature = string

  datatype TicketStatus = Owned | Admitted | Unavailable

  datatype Qr = Qr(signature: Signature, usedAt: Option<int>, usedBy: Option<GateId>)

  datatype Ticket = Ticket(ownerId: Option<UserId>, eventId: string, status: TicketStatus, currentQr: Option<Qr>)

  datatype CredentialStatus = VirtualReady | QrActive | Used

  datatype Credential = Credential(
    userId: UserId, status: CredentialStatus, activeAt: int, adminHold: bool, usedAt: Option<int>, usedBy: Option<GateId>)

  datatype State = State(tickets: map<TicketId, Ticket>, credentials: map<TicketId, Credential>)

  datatype RiskAction = Allow | OtpRequired | DelayOrSupportCheck | HoldForReview

  datatype QrError =
    | UserNotFound | TicketNotFound | NotOwner | InvalidTicketState | EventDateNotFound | AdminHoldActive | AppChannelRequired
    | AppAttestationRequired | TrustedDeviceRequired | RiskHoldActive | OtpNeeded | DelayRequired | RealQrNotReady

  /** A request for a QR, with what the server looks up about its user, device and performance. */
  datatype Request = Request(
    userId: UserId, id: TicketId, userFound: bool, opensAt: Option<int>, emergency: bool, app: bool, attested: bool,
    trustedDevice: bool, risk: RiskAction, otpVerified: bool, delayAcknowledged: bool, nonce: nat)

  /** What is signed, and what a gate scans. */
  datatype Payload = Payload(id: TicketId, ownerId: UserId, expiresAt: int, nonce: nat)

  datatype Code = Code(payload: Payload, signature: Signature)

  datatype Scan = Scan(valid: bool, alreadyUsed: bool, eventScopeMismatch: bool, usedAt: Option<int>, usedBy: Option<GateId>)

  const QR_TTL_MS := 20000

  // ------------------------------------------------------------------------------------ credentials

  /** `ensureAdmissionCredential`: creates or refreshes; every status but USED falls back to VIRTUAL_READY. */
  function EnsureCredential(s: State, userId: UserId, id: TicketId, activeAt: int): State {
    if id !in s.credentials then
      s.(credentials := s.credentials[id := Credential(userId, VirtualReady, activeAt, false, None, None)])
    else
      var c := s.credentials[id];
      s.(credentials := s.credentials[id := c.(
        userId := userId, activeAt := activeAt,
        status := if c.status.Used? then Used else VirtualReady,
        adminHold := if c.userId != userId then false else c.adminHold)])
  }

  /** The lookups `virtualQr` and `issueQr` share, before the credential is touched. */
  function CheckOwner(s: State, r: Request): Option<QrError> {
    if !r.userFound then Some(UserNotFound)
    else if r.id !in s.tickets then Some(TicketNotFound)
    else if s.tickets[r.id].ownerId != Some(r.userId) then Some(NotOwner)
    else None
  }

  datatype Outcome = Outcome(state: State, result: Result<Option<Code>, QrError>)

  function VirtualQr(s: State, r: Request): Outcome {
    var owner := CheckOwner(s, r);
    if owner.Some? then Outcome(s, Err(owner.value))
    else if r.opensAt.None? then Outcome(s, Err(EventDateNotFound))
    else Outcome(EnsureCredential(s, r.userId, r.id, r.opensAt.value), Ok(None))
  }

  /** The checks of `issueQr` made after the credential has been refreshed. */
  function CheckIssue(c: Credential, r: Request, now: int): Option<QrError> {
    if c.adminHold && !r.emergency then Some(AdminHoldActive)
    else if !r.emergency && !r.app then Some(AppChannelRequired)
    else if !r.emergency && !r.attested then Some(AppAttestationRequired)
    else if !r.emergency && !r.trustedDevice then Some(TrustedDeviceRequired)
    else if !r.emergency && r.risk.HoldForReview? then Some(RiskHoldActive)
    else if !r.emergency && r.risk.OtpRequired? && !r.otpVerified then Some(OtpNeeded)
    else if !r.emergency && r.risk.DelayOrSupportCheck? && !r.delayAcknowledged then Some(DelayRequired)
    else if now < c.activeAt && !r.emergency then Some(RealQrNotReady)
    else None
  }

  function IssueQr(s: State, sign: Payload -> Signature, r: Request, now: int): Outcome {
    var owner := CheckOwner(s, r);
    if owner.Some? then Outcome(s, Err(owner.value))
    else if !s.tickets[r.id].status.Owned? then Outcome(s, Err(InvalidTicketState))
    else if r.opensAt.None? then Outcome(s, Err(EventDateNotFound))
    else
      var refreshed := EnsureCredential(s, r.userId, r.id, r.opensAt.value);
      var check := CheckIssue(refreshed.credentials[r.id], r, now);
      if check.Some? then Outcome(refreshed, Err(check.value))
      else
        var payload := Payload(r.id, r.userId, now + QR_TTL_MS, r.nonce);
        Outcome(
          State(s.tickets[r.id := s.tickets[r.id].(currentQr := Some(Qr(sign(payload), None, None)))],
                refreshed.credentials[r.id := refreshed.credentials[r.id].(status := QrActive)]),
          Ok(Some(Code(payload, sign(payload)))))
  }

  // ------------------------------------------------------------------------------------------ gates

  predicate SignatureValid(s: State, sign: Payload -> Signature, code: Code, now: int) {
    && code.payload.id in s.tickets
    && s.tickets[code.payload.id].ownerId == Some(code.payload.ownerId)
    && code.signature == sign(code.payload)
    && s.tickets[code.payload.id].currentQr.Some? && s.tickets[code.payload.id].currentQr.value.signature == code.signature
    && now < code.payload.expiresAt
  }

  predicate AlreadyUsed(s: State, id: TicketId)
    requires id in s.tickets && s.tickets[id].currentQr.Some?
  {
    s.tickets[id].currentQr.value.usedAt.Some? || (id in s.credentials && s.credentials[id].status.Used?)
  }

  function FirstOf<T>(a: Option<T>, b: Option<T>): Option<T> { if a.Some? then a else b }

  function VerifyQr(s: State, sign: Payload -> Signature, code: Code, gateId: Option<GateId>, gateEvent: Option<string>, now: int)
    : (State, Scan)
  {
    var id := code.payload.id;
    if !SignatureValid(s, sign, code, now) then (s, Scan(false, false, false, None, None))
    else
      var t := s.tickets[id];
      var qr := t.currentQr.value;
      if AlreadyUsed(s, id) then
        var c := if id in s.credentials then Some(s.credentials[id]) else None;
        (s, Scan(false, true, false,
                 FirstOf(if c.Some? then c.value.usedAt else None, qr.usedAt),
                 FirstOf(if c.Some? then c.value.usedBy else None, qr.usedBy)))
      else if gateEvent.Some? && t.eventId != gateEvent.value then (s, Scan(false, false, true, None, None))
      else
        (State(s.tickets[id := t.(status := Admitted, currentQr := Some(qr.(usedAt := Some(now), usedBy := gateId)))],
               if id in s.credentials
               then s.credentials[id := s.credentials[id].(status := Used, usedAt := Some(now), usedBy := gateId)]
               else s.credentials),
         Scan(true, false, false, None, None))
  }

  datatype Step =
    | Preview(request: Request)
    | Issue(request: Request)
    | Verify(code: Code, gateId: Option<GateId>, gateEvent: Option<string>)

  function Apply(s: State, sign: Payload -> Signature, step: Step, now: int): State {
    match step
    case Preview(r) => VirtualQr(s, r).state
    case Issue(r) => IssueQr(s, sign, r, now).state
    case Verify(code, gate, event) => VerifyQr(s, sign, code, gate, event, now).0
  }

  /** This step is a scan that lets the ticket's holder in. */
  predicate Accepts(s: State, sign: Payload -> Signature, step: Step, id: TicketId, now: int) {
    step.Verify? && step.code.payload.id == id && VerifyQr(s, sign, step.code, step.gateId, step.gateEvent, now).1.valid
  }

  // ------------------------------------------------------------------------------------- invariant

  /** A QR belongs to a credential; a credential is USED exactly when the ticket's QR is, by the same gate at the same time. */
  ghost predicate Inv(s: State) {
    forall id :: id in s.tickets ==>
      && (s.tickets[id].currentQr.Some? ==> id in s.credentials)
      && (id in s.credentials && s.credentials[id].status.Used? <==>
            s.tickets[id].currentQr.Some? && s.tickets[id].currentQr.value.usedAt.Some?)
      && (id in s.credentials && s.credentials[id].status.Used? ==>
            s.tickets[id].status.Admitted?
            && s.credentials[id].usedAt == s.tickets[id].currentQr.value.usedAt
            && s.credentials[id].usedBy == s.tickets[id].currentQr.value.usedBy)
  }

  /** Owners never change here; a used QR, the record of its use and its credential's USED status are final. */
  ghost predicate UseIsFinal(a: State, b: State) {
    forall id :: id in a.tickets ==>
      && id in b.tickets && b.tickets[id].ownerId == a.tickets[id].ownerId
      && (id in a.credentials && a.credentials[id].status.Used? ==>
            id in b.credentials && b.credentials[id].status.Used?
            && b.tickets[id].currentQr == a.tickets[id].currentQr)
  }

  lemma CredentialKeeps(s: State, userId: UserId, id: TicketId, activeAt: int)
    requires Inv(s)
    ensures Inv(EnsureCredential(s, userId, id, activeAt)) && UseIsFinal(s, EnsureCredential(s, userId, id, activeAt))
  {
  }

  lemma IssueKeeps(s: State, sign: Payload -> Signature, r: Request, now: int)
    requires Inv(s)
    ensures Inv(IssueQr(s, sign, r, now).state) && UseIsFinal(s, IssueQr(s, sign, r, now).state)
  {
    hide CheckIssue, EnsureCredential;
    if r.opensAt.Some? { CredentialKeeps(s, r.userId, r.id, r.opensAt.value); }
    NothingKeeps(s);
    if CheckOwner(s, r).None? && s.tickets[r.id].status.Owned? && r.opensAt.Some? {
      var refreshed := EnsureCredential(s, r.userId, r.id, r.opensAt.value);
      CredentialShape(s, r.userId, r.id, r.opensAt.value);
      NewCodeKeeps(s, refreshed, r.id, sign(Payload(r.id, r.userId, now + QR_TTL_MS, r.nonce)));
    }
  }

  lemma NothingKeeps(s: State)
    requires Inv(s)
    ensures Inv(s) && UseIsFinal(s, s)
  {
  }

  lemma CredentialShape(s: State, userId: UserId, id: TicketId, activeAt: int)
    ensures var r := EnsureCredential(s, userId, id, activeAt);
            r.tickets == s.tickets && id in r.credentials && (forall i :: i != id ==> (i in r.credentials <==> i in s.credentials))
            && forall i :: i in s.credentials && i != id ==> r.credentials[i] == s.credentials[i]
  {
  }

  /** A fresh code for an OWNED ticket, whose credential therefore is not USED. */
  lemma NewCodeKeeps(s: State, refreshed: State, id: TicketId, signature: Signature)
    requires Inv(s) && Inv(refreshed) && refreshed.tickets == s.tickets
    requires id in s.tickets && s.tickets[id].status.Owned? && id in refreshed.credentials
    requires forall i :: i != id ==> (i in refreshed.credentials <==> i in s.credentials)
    requires forall i :: i in s.credentials && i != id ==> refreshed.credentials[i] == s.credentials[i]
    ensures var r := State(s.tickets[id := s.tickets[id].(currentQr := Some(Qr(signature, None, None)))],
                           refreshed.credentials[id := refreshed.credentials[id].(status := QrActive)]);
            Inv(r) && UseIsFinal(s, r)
  {
  }

  lemma VerifyKeeps(s: State, sign: Payload -> Signature, code: Code, gateId: Option<GateId>, gateEvent: Option<string>, now: int)
    requires Inv(s)
    ensures Inv(VerifyQr(s, sign, code, gateId, gateEvent, now).0) && UseIsFinal(s, VerifyQr(s, sign, code, gateId, gateEvent, now).0)
  {
  }

  lemma StepKeeps(s: State, sign: Payload -> Signature, step: Step, now: int)
    requires Inv(s)
    ensures Inv(Apply(s, sign, step, now)) && UseIsFinal(s, Apply(s, sign, step, now))
  {
    match step
    case Preview(r) =>
      if r.opensAt.Some? { CredentialKeeps(s, r.userId, r.id, r.opensAt.value); }
    case Issue(r) => IssueKeeps(s, sign, r, now);
    case Verify(code, gate, event) => VerifyKeeps(s, sign, code, gate, event, now);
  }

  /** A credential becomes USED in no other way than by a scan that is accepted. */
  lemma OnlyAcceptanceUses(s: State, sign: Payload -> Signature, step: Step, id: TicketId, now: int)
    requires Inv(s) && id in s.tickets && !(id in s.credentials && s.credentials[id].status.Used?)
    ensures var r := Apply(s, sign, step, now);
            (id in r.credentials && r.credentials[id].status.Used?) <==> Accepts(s, sign, step, id, now)
  {
    hide CheckIssue;
  }

  // ------------------------------------------------------------------------------------ whole runs

  datatype Turn = Turn(step: Step, now: int)

  function After(s: State, sign: Payload -> Signature, turns: seq<Turn>, n: nat): State
    requires n <= |turns|
  {
    if n == 0 then s else Apply(After(s, sign, turns, n - 1), sign, turns[n - 1].step, turns[n - 1].now)
  }

  lemma {:induction false} EveryStateKeeps(s: State, sign: Payload -> Signature, turns: seq<Turn>, n: nat)
    requires Inv(s) && n <= |turns|
    ensures Inv(After(s, sign, turns, n))
  {
    hide Inv, Apply, UseIsFinal;
    if n > 0 {
      EveryStateKeeps(s, sign, turns, n - 1);
      StepKeeps(After(s, sign, turns, n - 1), sign, turns[n - 1].step, turns[n - 1].now);
    }
  }

  lemma FinalTransitive(a: State, b: State, c: State)
    requires UseIsFinal(a, b) && UseIsFinal(b, c)
    ensures UseIsFinal(a, c)
  {
  }

  lemma FinalReflexive(s: State)
    ensures UseIsFinal(s, s)
  {
  }

  /** A USED credential never leaves USED, and who used it where is never overwritten. */
  lemma {:induction false} UsedStaysUsed(s: State, sign: Payload -> Signature, turns: seq<Turn>, n: nat, m: nat)
    requires Inv(s) && n <= m <= |turns|
    ensures UseIsFinal(After(s, sign, turns, n), After(s, sign, turns, m))
  {
    hide Inv, Apply, UseIsFinal;
    if n == m {
      FinalReflexive(After(s, sign, turns, n));
    } else {
      UsedStaysUsed(s, sign, turns, n, m - 1);
      EveryStateKeeps(s, sign, turns, m - 1);
      StepKeeps(After(s, sign, turns, m - 1), sign, turns[m - 1].step, turns[m - 1].now);
      FinalTransitive(After(s, sign, turns, n), After(s, sign, turns, m - 1), After(s, sign, turns, m));
    }
  }

  lemma AcceptanceLeaves(s: State, sign: Payload -> Signature, step: Step, id: TicketId, now: int)
    requires Inv(s) && Accepts(s, sign, step, id, now)
    ensures var r := Apply(s, sign, step, now);
            && id in r.tickets && id in r.credentials && r.credentials[id].status.Used?
            && r.tickets[id].ownerId == Some(step.code.payload.ownerId)
            && r.tickets[id].currentQr == Some(Qr(step.code.signature, Some(now), step.gateId))
  {
  }

  /** A ticket is let in at most once, across all gates and all codes. */
  lemma AcceptedOnce(s: State, sign: Payload -> Signature, turns: seq<Turn>, n: nat, m: nat, id: TicketId)
    requires Inv(s) && n < m < |turns|
    requires Accepts(After(s, sign, turns, n), sign, turns[n].step, id, turns[n].now)
    ensures !Accepts(After(s, sign, turns, m), sign, turns[m].step, id, turns[m].now)
  {
    hide Inv, Accepts, Apply;
    EveryStateKeeps(s, sign, turns, n);
    AcceptanceLeaves(After(s, sign, turns, n), sign, turns[n].step, id, turns[n].now);
    UsedStaysUsed(s, sign, turns, n + 1, m);
    assert After(s, sign, turns, n + 1) == Apply(After(s, sign, turns, n), sign, turns[n].step, turns[n].now);
    UsedIsRefused(After(s, sign, turns, m), sign, turns[m].step, id, turns[m].now);
  }

  lemma UsedIsRefused(s: State, sign: Payload -> Signature, step: Step, id: TicketId, now: int)
    requires id in s.credentials && s.credentials[id].status.Used?
    ensures !Accepts(s, sign, step, id, now)
  {
  }

  /**
   Any later scan of the consumed code before it expires, at any gate, reports that it was already used, when, and by
   which gate.
   */
  lemma LaterScansReportTheFirst(
    s: State, sign: Payload -> Signature, turns: seq<Turn>, n: nat, m: nat, gate: Option<GateId>, event: Option<string>, later: int)
    requires Inv(s) && n < m <= |turns| && turns[n].step.Verify?
    requires Accepts(After(s, sign, turns, n), sign, turns[n].step, turns[n].step.code.payload.id, turns[n].now)
    requires later < turns[n].step.code.payload.expiresAt
    ensures VerifyQr(After(s, sign, turns, m), sign, turns[n].step.code, gate, event, later).1
            == Scan(false, true, false, Some(turns[n].now), turns[n].step.gateId)
  {
    hide Inv, Accepts, Apply, UseIsFinal, VerifyQr;
    var code, id := turns[n].step.code, turns[n].step.code.payload.id;
    EveryStateKeeps(s, sign, turns, n);
    EveryStateKeeps(s, sign, turns, m);
    AcceptanceLeaves(After(s, sign, turns, n), sign, turns[n].step, id, turns[n].now);
    UsedStaysUsed(s, sign, turns, n + 1, m);
    assert After(s, sign, turns, n + 1) == Apply(After(s, sign, turns, n), sign, turns[n].step, turns[n].now);
    AcceptedIsSigned(After(s, sign, turns, n), sign, turns[n].step, id, turns[n].now);
    StillUsed(After(s, sign, turns, n + 1), After(s, sign, turns, m), id);
    UsedScanReports(After(s, sign, turns, m), sign, code, turns[n].now, turns[n].step.gateId, gate, event, later);
  }

  lemma StillUsed(a: State, b: State, id: TicketId)
    requires UseIsFinal(a, b) && id in a.tickets && id in a.credentials && a.credentials[id].status.Used?
    ensures id in b.tickets && b.tickets[id].ownerId == a.tickets[id].ownerId && b.tickets[id].currentQr == a.tickets[id].currentQr
    ensures id in b.credentials && b.credentials[id].status.Used?
  {
  }

  lemma UsedScanReports(
    s: State, sign: Payload -> Signature, code: Code, at: int, first: Option<GateId>, gate: Option<GateId>, event: Option<string>, now: int)
    requires Inv(s) && code.payload.id in s.tickets && s.tickets[code.payload.id].ownerId == Some(code.payload.ownerId)
    requires s.tickets[code.payload.id].currentQr == Some(Qr(code.signature, Some(at), first))
    requires code.signature == sign(code.payload) && now < code.payload.expiresAt
    ensures VerifyQr(s, sign, code, gate, event, now).1 == Scan(false, true, false, Some(at), first)
  {
  }

  lemma AcceptedIsSigned(s: State, sign: Payload -> Signature, step: Step, id: TicketId, now: int)
    requires Accepts(s, sign, step, id, now)
    ensures step.code.signature == sign(step.code.payload)
  {
  }

  // ---------------------------------------------------------------------------------- in place

  class AdmissionDesk {
    var tickets: map<TicketId, Ticket>
    var credentials: map<TicketId, Credential>
    const sign: Payload -> Signature

    constructor (s: State, sign: Payload -> Signature)
      ensures Snapshot() == s && this.sign == sign
    {
      tickets, credentials, this.sign := s.tickets, s.credentials, sign;
    }

    function Snapshot(): State
      reads this
    {
      State(tickets, credentials)
    }

    method EnsureAdmissionCredential(userId: UserId, id: TicketId, activeAt: int)
      modifies this
      ensures Snapshot() == EnsureCredential(old(Snapshot()), userId, id, activeAt)
      ensures id in credentials
    {
      if id !in credentials {
        credentials := credentials[id := Credential(userId, VirtualReady, activeAt, false, None, None)];
      } else {
        var c := credentials[id];
        var ownerChanged := c.userId != userId;
        c := c.(userId := userId, activeAt := activeAt, status := if c.status.Used? then Used else VirtualReady);
        if ownerChanged { c := c.(adminHold := false); }
        credentials := credentials[id := c];
      }
    }

    method ShowVirtual(r: Request) returns (result: Result<Option<Code>, QrError>)
      modifies this
      ensures Outcome(Snapshot(), result) == VirtualQr(old(Snapshot()), r)
    {
      var owner := CheckOwner(Snapshot(), r);
      if owner.Some? { return Err(owner.value); }
      if r.opensAt.None? { return Err(EventDateNotFound); }
      EnsureAdmissionCredential(r.userId, r.id, r.opensAt.value);
      return Ok(None);
    }

    method IssueCode(r: Request, now: int) returns (result: Result<Option<Code>, QrError>)
      modifies this
      ensures Outcome(Snapshot(), result) == IssueQr(old(Snapshot()), sign, r, now)
    {
      var owner := CheckOwner(Snapshot(), r);
      if owner.Some? { return Err(owner.value); }
      if !tickets[r.id].status.Owned? { return Err(InvalidTicketState); }
      if r.opensAt.None? { return Err(EventDateNotFound); }
      EnsureAdmissionCredential(r.userId, r.id, r.opensAt.value);
      hide EnsureCredential, CheckIssue;
      var check := CheckIssue(credentials[r.id], r, now);
      if check.Some? { return Err(check.value); }
      var payload := Payload(r.id, r.userId, now + QR_TTL_MS, r.nonce);
      var signature := sign(payload);
      tickets := tickets[r.id := tickets[r.id].(currentQr := Some(Qr(signature, None, None)))];
      credentials := credentials[r.id := credentials[r.id].(status := QrActive)];
      return Ok(Some(Code(payload, signature)));
    }

    method ScanCode(code: Code, gateId: Option<GateId>, gateEvent: Option<string>, now: int) returns (scan: Scan)
      modifies this
      ensures (Snapshot(), scan) == VerifyQr(old(Snapshot()), sign, code, gateId, gateEvent, now)
    {
      var id := code.payload.id;
      var signatureValid := SignatureValid(Snapshot(), sign, code, now);
      var alreadyUsed := signatureValid && AlreadyUsed(Snapshot(), id);
      var eventScopeMismatch := signatureValid && !alreadyUsed && gateEvent.Some? && tickets[id].eventId != gateEvent.value;
      var valid := signatureValid && !alreadyUsed && !eventScopeMismatch;
      if valid {
        tickets := tickets[id := tickets[id].(
          status := Admitted, currentQr := Some(tickets[id].currentQr.value.(usedAt := Some(now), usedBy := gateId)))];
        if id in credentials {
          credentials := credentials[id := credentials[id].(status := Used, usedAt := Some(now), usedBy := gateId)];
        }
      }
      var usedAt, usedBy := None, None;
      if alreadyUsed {
        var qr := tickets[id].currentQr.value;
        usedAt := FirstOf(if id in credentials then credentials[id].usedAt else None, qr.usedAt);
        usedBy := FirstOf(if id in credentials then credentials[id].usedBy else None, qr.usedBy);
      }
      return Scan(valid, alreadyUsed, eventScopeMismatch, usedAt, usedBy);
    }
  }
}
