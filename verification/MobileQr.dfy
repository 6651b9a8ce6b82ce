/**
 Single-use admission codes of the mobile app (backend/mobile-ticket-qr.js).  Keyed signing is a parameter, assumed
 injective where a property needs it; token ids are positions and nonces are inputs.
 */
module MobileQr {
  import opened Prelude
  import SaleTypes

  type UserId = nat
  type TicketId = SaleTypes.TicketId
  type Signature = string

  datatype TicketStatus = Owned | Admitted | Unavailable

  datatype Ticket = Ticket(ownerId: Option<UserId>, status: TicketStatus)

  datatype TokenStatus = Valid | Revoked | Used | Expired

  datatype Token = Token(
    ticketId: TicketId, userId: UserId, nonce: nat, signature: Signature, status: TokenStatus, issuedAt: int, expiresAt: int)

  /** What the signature covers. */
  datatype Payload = Payload(qrId: nat, ticketId: TicketId, exp: int, nonce: nat)

  /** What a gate scans: anything with two parts, or something that does not parse. */
  datatype Code = Unreadable | Code(payload: Payload, signature: Signature)

  datatype State = State(tokens: seq<Token>, tickets: map<TicketId, Ticket>)

  datatype QrError =
    | TicketNotFound | NotOwner | TrustedDeviceRequired | QrAlreadyUsed | TicketCanceled | QrInvalid | QrRevoked | QrExpired

  datatype Outcome = Outcome(state: State, result: Result<nat, QrError>)

  const QR_TTL_MS := 20000

  function OwnedTicket(s: State, userId: UserId, id: TicketId): Option<QrError> {
    if id !in s.tickets then Some(TicketNotFound)
    else if s.tickets[id].ownerId != Some(userId) then Some(NotOwner)
    else None
  }

  // --------------------------------------------------------------------------------------- handlers

  function RevokeValid(tokens: seq<Token>, id: TicketId, userId: Option<UserId>): (r: seq<Token>)
    ensures |r| == |tokens|
  {
    seq(|tokens|, i requires 0 <= i < |tokens| =>
      if tokens[i].ticketId == id && tokens[i].status.Valid? && (userId.Some? ==> tokens[i].userId == userId.value)
      then tokens[i].(status := Revoked) else tokens[i])
  }

  function SignedToken(sign: Payload -> Signature, qrId: nat, id: TicketId, userId: UserId, nonce: nat, now: int): Token {
    Token(id, userId, nonce, sign(Payload(qrId, id, now + QR_TTL_MS, nonce)), Valid, now, now + QR_TTL_MS)
  }

  function Issue(s: State, sign: Payload -> Signature, userId: UserId, id: TicketId, trustedDevice: bool, nonce: nat, now: int): Outcome {
    var owned := OwnedTicket(s, userId, id);
    if owned.Some? then Outcome(s, Err(owned.value))
    else if !trustedDevice then Outcome(s, Err(TrustedDeviceRequired))
    else if s.tickets[id].status.Admitted? then Outcome(s, Err(QrAlreadyUsed))
    else if !s.tickets[id].status.Owned? then Outcome(s, Err(TicketCanceled))
    else
      var revoked := RevokeValid(s.tokens, id, None);
      Outcome(s.(tokens := revoked + [SignedToken(sign, |s.tokens|, id, userId, nonce, now)]), Ok(|s.tokens|))
  }

  function Revoke(s: State, userId: UserId, id: TicketId): Outcome {
    var owned := OwnedTicket(s, userId, id);
    if owned.Some? then Outcome(s, Err(owned.value))
    else Outcome(s.(tokens := RevokeValid(s.tokens, id, Some(userId))), Ok(0))
  }

  /** The record the scanned code refers to. */
  function Find(s: State, code: Code): Option<nat> {
    if code.Unreadable? then None
    else if code.payload.qrId < |s.tokens| && s.tokens[code.payload.qrId].ticketId == code.payload.ticketId
            && s.tokens[code.payload.qrId].signature == code.signature
    then Some(code.payload.qrId) else None
  }

  function VerifyGate(s: State, sign: Payload -> Signature, code: Code, now: int): Outcome {
    if code.Unreadable? || code.signature != sign(code.payload) then Outcome(s, Err(QrInvalid))
    else
      var found := Find(s, code);
      if found.None? then Outcome(s, Err(QrInvalid))
      else
        var token := s.tokens[found.value];
        if token.status.Used? then Outcome(s, Err(QrAlreadyUsed))
        else if token.status.Revoked? then Outcome(s, Err(QrRevoked))
        else if token.expiresAt <= now then
          Outcome(s.(tokens := s.tokens[found.value := token.(status := Expired)]), Err(QrExpired))
        else if token.ticketId !in s.tickets || !s.tickets[token.ticketId].status.Owned? then Outcome(s, Err(TicketCanceled))
        else
          Outcome(State(s.tokens[found.value := token.(status := Used)],
                        s.tickets[token.ticketId := s.tickets[token.ticketId].(status := Admitted)]),
                  Ok(found.value))
  }

  datatype Step =
    | IssueStep(userId: UserId, id: TicketId, trustedDevice: bool, nonce: nat)
    | RevokeStep(userId: UserId, id: TicketId)
    | Scan(code: Code)
    | Elsewhere(tickets: map<TicketId, Ticket>)

  /** One handler, or any change the rest of the server makes to tickets. */
  function Apply(s: State, sign: Payload -> Signature, step: Step, now: int): Outcome {
    match step
    case IssueStep(u, id, trusted, nonce) => Issue(s, sign, u, id, trusted, nonce, now)
    case RevokeStep(u, id) => Revoke(s, u, id)
    case Scan(code) => VerifyGate(s, sign, code, now)
    case Elsewhere(tickets) => Outcome(s.(tickets := tickets), Ok(0))
  }

  // ------------------------------------------------------------------------------------- invariant

  /** Only the newest token of a ticket can be VALID; each lives twenty seconds and carries its own signature. */
  ghost predicate Inv(s: State, sign: Payload -> Signature, now: int) {
    && (forall i, j :: 0 <= i < j < |s.tokens| && s.tokens[i].ticketId == s.tokens[j].ticketId ==> !s.tokens[i].status.Valid?)
    && (forall i :: 0 <= i < |s.tokens| ==>
          && s.tokens[i].expiresAt == s.tokens[i].issuedAt + QR_TTL_MS && s.tokens[i].issuedAt <= now
          && s.tokens[i].signature == sign(Payload(i, s.tokens[i].ticketId, s.tokens[i].expiresAt, s.tokens[i].nonce))
          && (s.tokens[i].status.Expired? ==> s.tokens[i].expiresAt <= now))
  }

  /** Tokens keep what they were issued with; a token that is no longer VALID never is again, and USED is final. */
  ghost predicate Moves(a: State, b: State) {
    && |a.tokens| <= |b.tokens|
    && forall i :: 0 <= i < |a.tokens| ==>
         && b.tokens[i] == a.tokens[i].(status := b.tokens[i].status)
         && (b.tokens[i].status.Valid? ==> a.tokens[i].status.Valid?)
         && (a.tokens[i].status.Used? ==> b.tokens[i].status.Used?)
  }

  lemma RevokeKeeps(s: State, sign: Payload -> Signature, id: TicketId, userId: Option<UserId>, now: int)
    requires Inv(s, sign, now)
    ensures var r := s.(tokens := RevokeValid(s.tokens, id, userId)); Inv(r, sign, now) && Moves(s, r)
  {
  }

  lemma IssueKeeps(s: State, sign: Payload -> Signature, userId: UserId, id: TicketId, nonce: nat, now: int)
    requires Inv(s, sign, now)
    ensures var r := s.(tokens := RevokeValid(s.tokens, id, None) + [SignedToken(sign, |s.tokens|, id, userId, nonce, now)]);
            Inv(r, sign, now) && Moves(s, r)
  {
  }

  lemma EditKeeps(s: State, sign: Payload -> Signature, i: nat, status: TokenStatus, tickets: map<TicketId, Ticket>, now: int)
    requires Inv(s, sign, now) && i < |s.tokens| && !s.tokens[i].status.Used? && !status.Valid?
    requires status.Expired? ==> s.tokens[i].expiresAt <= now
    ensures var r := State(s.tokens[i := s.tokens[i].(status := status)], tickets); Inv(r, sign, now) && Moves(s, r)
  {
  }

  lemma TicketsKeep(s: State, sign: Payload -> Signature, tickets: map<TicketId, Ticket>, now: int)
    requires Inv(s, sign, now)
    ensures Inv(s.(tickets := tickets), sign, now) && Moves(s, s.(tickets := tickets))
  {
  }

  lemma StepKeeps(s: State, sign: Payload -> Signature, step: Step, now: int)
    requires Inv(s, sign, now)
    ensures Inv(Apply(s, sign, step, now).state, sign, now) && Moves(s, Apply(s, sign, step, now).state)
  {
    hide Inv, Moves, RevokeValid, SignedToken;
    TicketsKeep(s, sign, s.tickets, now);
    match step
    case IssueStep(u, id, trusted, nonce) => IssueKeeps(s, sign, u, id, nonce, now);
    case RevokeStep(u, id) => RevokeKeeps(s, sign, id, Some(u), now);
    case Scan(code) =>
      var found := Find(s, code);
      if found.Some? && !s.tokens[found.value].status.Used? {
        if s.tokens[found.value].expiresAt <= now { EditKeeps(s, sign, found.value, Expired, s.tickets, now); }
        else { EditKeeps(s, sign, found.value, Used, Apply(s, sign, step, now).state.tickets, now); }
      }
    case Elsewhere(tickets) => TicketsKeep(s, sign, tickets, now);
  }

  lemma LaterKeeps(s: State, sign: Payload -> Signature, now: int, later: int)
    requires Inv(s, sign, now) && now <= later
    ensures Inv(s, sign, later)
  {
  }

  lemma MovesTransitive(a: State, b: State, c: State)
    requires Moves(a, b) && Moves(b, c)
    ensures Moves(a, c)
  {
  }

  /**
   A gate accepts exactly the newest code of a ticket: signed as it was issued, less than twenty seconds old, not
   used, not revoked, for a ticket that is still OWNED; and accepting it uses it up and admits the ticket.
   */
  lemma AcceptedCodeIsNewest(s: State, sign: Payload -> Signature, code: Code, now: int)
    requires Inv(s, sign, now) && forall a, b :: sign(a) == sign(b) ==> a == b
    requires VerifyGate(s, sign, code, now).result.Ok?
    ensures code.Code? && var i := code.payload.qrId;
            && i < |s.tokens| && VerifyGate(s, sign, code, now).result == Ok(i)
            && s.tokens[i].status.Valid? && now - s.tokens[i].issuedAt < QR_TTL_MS
            && code.payload == Payload(i, s.tokens[i].ticketId, s.tokens[i].expiresAt, s.tokens[i].nonce)
            && (forall j :: i < j < |s.tokens| ==> s.tokens[j].ticketId != s.tokens[i].ticketId)
            && s.tokens[i].ticketId in s.tickets && s.tickets[s.tokens[i].ticketId].status.Owned?
            && var r := VerifyGate(s, sign, code, now).state;
               r.tokens[i].status.Used? && r.tickets[s.tokens[i].ticketId].status.Admitted?
  {
    var i := code.payload.qrId;
    if s.tokens[i].status.Valid? {
      NewestIfValid(s, sign, i, now);
    }
  }

  lemma NewestIfValid(s: State, sign: Payload -> Signature, i: nat, now: int)
    requires Inv(s, sign, now) && i < |s.tokens| && s.tokens[i].status.Valid?
    ensures forall j :: i < j < |s.tokens| ==> s.tokens[j].ticketId != s.tokens[i].ticketId
  {
  }

  /** And it accepts every such code. */
  lemma NewestCodeIsAccepted(s: State, sign: Payload -> Signature, i: nat, now: int)
    requires Inv(s, sign, now) && i < |s.tokens| && s.tokens[i].status.Valid? && now < s.tokens[i].expiresAt
    requires s.tokens[i].ticketId in s.tickets && s.tickets[s.tokens[i].ticketId].status.Owned?
    ensures var token := s.tokens[i];
            VerifyGate(s, sign, Code(Payload(i, token.ticketId, token.expiresAt, token.nonce), token.signature), now).result == Ok(i)
  {
  }

  // ------------------------------------------------------------------------------------ whole runs

  datatype Turn = Turn(step: Step, now: int)

  ghost predicate Timely(turns: seq<Turn>, start: int) {
    && (forall k :: 0 <= k < |turns| ==> start <= turns[k].now)
    && (forall j, k :: 0 <= j < k < |turns| ==> turns[j].now <= turns[k].now)
  }

  function After(s: State, sign: Payload -> Signature, turns: seq<Turn>, n: nat): State
    requires n <= |turns|
  {
    if n == 0 then s else Apply(After(s, sign, turns, n - 1), sign, turns[n - 1].step, turns[n - 1].now).state
  }

  function ClockAfter(turns: seq<Turn>, start: int, n: nat): int
    requires n <= |turns|
  {
    if n == 0 then start else turns[n - 1].now
  }

  lemma {:induction false} EveryStateKeeps(s: State, sign: Payload -> Signature, turns: seq<Turn>, start: int, n: nat)
    requires Inv(s, sign, start) && Timely(turns, start) && n <= |turns|
    ensures Inv(After(s, sign, turns, n), sign, ClockAfter(turns, start, n))
  {
    hide Inv, Apply, Moves;
    if n > 0 {
      EveryStateKeeps(s, sign, turns, start, n - 1);
      LaterKeeps(After(s, sign, turns, n - 1), sign, ClockAfter(turns, start, n - 1), turns[n - 1].now);
      StepKeeps(After(s, sign, turns, n - 1), sign, turns[n - 1].step, turns[n - 1].now);
    }
  }

  function ValidTokens(tokens: seq<Token>, id: TicketId): set<nat> {
    set i: nat | i < |tokens| && tokens[i].ticketId == id && tokens[i].status.Valid?
  }

  /** In every state of every run a ticket has at most one VALID token. */
  lemma AtMostOneValidToken(s: State, sign: Payload -> Signature, turns: seq<Turn>, start: int, n: nat, id: TicketId)
    requires Inv(s, sign, start) && Timely(turns, start) && n <= |turns|
    ensures |ValidTokens(After(s, sign, turns, n).tokens, id)| <= 1
  {
    EveryStateKeeps(s, sign, turns, start, n);
    hide After, Timely;
    var valid := ValidTokens(After(s, sign, turns, n).tokens, id);
    if valid != {} {
      var i :| i in valid;
      assert valid == {i};
    }
  }

  lemma {:induction false} RunMoves(s: State, sign: Payload -> Signature, turns: seq<Turn>, start: int, n: nat, m: nat)
    requires Inv(s, sign, start) && Timely(turns, start) && n <= m <= |turns|
    ensures Moves(After(s, sign, turns, n), After(s, sign, turns, m))
  {
    hide Inv, Apply, Moves;
    if n == m {
      SameMoves(After(s, sign, turns, n));
    } else {
      RunMoves(s, sign, turns, start, n, m - 1);
      EveryStateKeeps(s, sign, turns, start, m - 1);
      LaterKeeps(After(s, sign, turns, m - 1), sign, ClockAfter(turns, start, m - 1), turns[m - 1].now);
      StepKeeps(After(s, sign, turns, m - 1), sign, turns[m - 1].step, turns[m - 1].now);
      MovesTransitive(After(s, sign, turns, n), After(s, sign, turns, m - 1), After(s, sign, turns, m));
    }
  }

  lemma SameMoves(s: State)
    ensures Moves(s, s)
  {
  }

  lemma AcceptedIsUsed(s: State, sign: Payload -> Signature, code: Code, i: nat, now: int)
    requires VerifyGate(s, sign, code, now).result == Ok(i)
    ensures var r := VerifyGate(s, sign, code, now).state; i < |r.tokens| && r.tokens[i].status.Used?
  {
  }

  lemma UsedIsRefused(s: State, sign: Payload -> Signature, code: Code, i: nat, now: int)
    requires i < |s.tokens| && s.tokens[i].status.Used?
    ensures VerifyGate(s, sign, code, now).result != Ok(i)
  {
  }

  /** A code accepted once is never accepted again, whatever happens to its ticket in between. */
  lemma TokenConsumedOnce(s: State, sign: Payload -> Signature, turns: seq<Turn>, start: int, n: nat, m: nat, i: nat, code: Code, later: int)
    requires Inv(s, sign, start) && Timely(turns, start) && n < m <= |turns|
    requires turns[n].step.Scan? && Apply(After(s, sign, turns, n), sign, turns[n].step, turns[n].now).result == Ok(i)
    ensures VerifyGate(After(s, sign, turns, m), sign, code, later).result != Ok(i)
  {
    hide Timely, VerifyGate, Inv;
    RunMoves(s, sign, turns, start, n + 1, m);
    AcceptedIsUsed(After(s, sign, turns, n), sign, turns[n].step.code, i, turns[n].now);
    assert After(s, sign, turns, n + 1) == VerifyGate(After(s, sign, turns, n), sign, turns[n].step.code, turns[n].now).state;
    UsedIsRefused(After(s, sign, turns, m), sign, code, i, later);
  }

  // --------------------------------------------------------------------------- whom a code admits

  lemma IssuedToken(s: State, sign: Payload -> Signature, userId: UserId, id: TicketId, trustedDevice: bool, nonce: nat, now: int)
    requires Issue(s, sign, userId, id, trustedDevice, nonce, now).result.Ok?
    ensures var r, i := Issue(s, sign, userId, id, trustedDevice, nonce, now).state, |s.tokens|;
            && Issue(s, sign, userId, id, trustedDevice, nonce, now).result == Ok(i)
            && |r.tokens| == i + 1 && r.tokens[i] == SignedToken(sign, i, id, userId, nonce, now)
            && id in s.tickets && s.tickets[id].ownerId == Some(userId)
            && forall j :: 0 <= j < i && s.tokens[j].ticketId == id ==> !r.tokens[j].status.Valid?
  {
  }

  lemma OnlyValidIsAccepted(s: State, sign: Payload -> Signature, code: Code, i: nat, now: int)
    requires VerifyGate(s, sign, code, now).result == Ok(i) && Inv(s, sign, now)
    ensures i < |s.tokens| && s.tokens[i].status.Valid? && s.tokens[i].ticketId in s.tickets
  {
  }

  /** Turn `n` of the run issues token `i`. */
  predicate Issues(s: State, sign: Payload -> Signature, turns: seq<Turn>, n: nat, i: nat)
    requires n < |turns|
  {
    turns[n].step.IssueStep? && Apply(After(s, sign, turns, n), sign, turns[n].step, turns[n].now).result == Ok(i)
  }

  predicate Accepts(s: State, sign: Payload -> Signature, turns: seq<Turn>, m: nat, i: nat)
    requires m < |turns|
  {
    turns[m].step.Scan? && Apply(After(s, sign, turns, m), sign, turns[m].step, turns[m].now).result == Ok(i)
  }

  lemma NextState(s: State, sign: Payload -> Signature, turns: seq<Turn>, n: nat)
    requires n < |turns|
    ensures After(s, sign, turns, n + 1) == Apply(After(s, sign, turns, n), sign, turns[n].step, turns[n].now).state
  {
  }

  lemma MovedToken(a: State, b: State, i: nat)
    requires Moves(a, b) && i < |a.tokens|
    ensures i < |b.tokens| && b.tokens[i].ticketId == a.tokens[i].ticketId && b.tokens[i].userId == a.tokens[i].userId
    ensures b.tokens[i].status.Valid? ==> a.tokens[i].status.Valid?
  {
  }

  lemma IssuedStaysIssued(s: State, sign: Payload -> Signature, turns: seq<Turn>, start: int, n: nat, m: nat, i: nat)
    requires Inv(s, sign, start) && Timely(turns, start) && n < m <= |turns| && Issues(s, sign, turns, n, i)
    ensures var id, userId := turns[n].step.id, turns[n].step.userId;
            && i < |After(s, sign, turns, m).tokens|
            && After(s, sign, turns, m).tokens[i].ticketId == id && After(s, sign, turns, m).tokens[i].userId == userId
            && id in After(s, sign, turns, n).tickets && After(s, sign, turns, n).tickets[id].ownerId == Some(userId)
  {
    hide Inv, Timely, RevokeValid, Moves, After, Issue;
    var step := turns[n].step;
    IssuedToken(After(s, sign, turns, n), sign, step.userId, step.id, step.trustedDevice, step.nonce, turns[n].now);
    NextState(s, sign, turns, n);
    RunMoves(s, sign, turns, start, n + 1, m);
    MovedToken(After(s, sign, turns, n + 1), After(s, sign, turns, m), i);
  }

  lemma LaterIssueRevokes(s: State, sign: Payload -> Signature, turns: seq<Turn>, start: int, k: nat, m: nat, i: nat, j: nat)
    requires Inv(s, sign, start) && Timely(turns, start) && k < m <= |turns| && Issues(s, sign, turns, k, j)
    requires i < |After(s, sign, turns, k).tokens| && After(s, sign, turns, k).tokens[i].ticketId == turns[k].step.id
    ensures i < |After(s, sign, turns, m).tokens| && !After(s, sign, turns, m).tokens[i].status.Valid?
  {
    hide Inv, Timely, RevokeValid, Moves, After, Issue;
    var step := turns[k].step;
    IssuedToken(After(s, sign, turns, k), sign, step.userId, step.id, step.trustedDevice, step.nonce, turns[k].now);
    NextState(s, sign, turns, k);
    RunMoves(s, sign, turns, start, k + 1, m);
    MovedToken(After(s, sign, turns, k + 1), After(s, sign, turns, m), i);
  }

  /**
   Whom an accepted code admits.  A code is issued to the ticket's owner, but the gate does not look at the owner: the
   code it accepts is the present owner's if and only if the ticket belongs to whom it belonged to when the code was
   issued.  No other code can have been issued for the ticket since.
   */
  lemma AcceptedForOwnerIffUnsold(
    s: State, sign: Payload -> Signature, turns: seq<Turn>, start: int, n: nat, m: nat, i: nat)
    requires Inv(s, sign, start) && Timely(turns, start) && n < m < |turns|
    requires Issues(s, sign, turns, n, i) && Accepts(s, sign, turns, m, i)
    ensures var issued, scanned, id := After(s, sign, turns, n), After(s, sign, turns, m), turns[n].step.id;
            && i < |scanned.tokens| && scanned.tokens[i].ticketId == id && id in issued.tickets && id in scanned.tickets
            && (scanned.tickets[id].ownerId == Some(scanned.tokens[i].userId) <==>
                  scanned.tickets[id].ownerId == issued.tickets[id].ownerId)
    ensures forall k, j :: n < k < m && Issues(s, sign, turns, k, j) ==> turns[k].step.id != turns[n].step.id
  {
    EveryStateKeeps(s, sign, turns, start, m);
    LaterKeeps(After(s, sign, turns, m), sign, ClockAfter(turns, start, m), turns[m].now);
    OnlyValidIsAccepted(After(s, sign, turns, m), sign, turns[m].step.code, i, turns[m].now);
    IssuedStaysIssued(s, sign, turns, start, n, m, i);
    forall k, j | n < k < m && Issues(s, sign, turns, k, j) ensures turns[k].step.id != turns[n].step.id {
      hide Inv, Timely, After, Issues, Apply;
      if turns[k].step.id == turns[n].step.id {
        IssuedStaysIssued(s, sign, turns, start, n, k, i);
        LaterIssueRevokes(s, sign, turns, start, k, m, i, j);
        assert false;
      }
    }
    hide Inv, Timely, After;
  }

  // ----------------------------------------------------------------------------- the codes, in place

  class CodeDesk {
    var tokens: seq<Token>
    var tickets: map<TicketId, Ticket>
    const sign: Payload -> Signature

    constructor (tickets: map<TicketId, Ticket>, sign: Payload -> Signature)
      ensures Snapshot() == State([], tickets) && this.sign == sign && forall now :: Inv(Snapshot(), sign, now)
    {
      tokens, this.tickets, this.sign := [], tickets, sign;
    }

    function Snapshot(): State
      reads this
    {
      State(tokens, tickets)
    }

    /** The loop both `issue` and `revoke` run over all tokens; `revoke` only touches the caller's own. */
    method RevokeTokens(id: TicketId, userId: Option<UserId>)
      modifies this`tokens
      ensures tokens == RevokeValid(old(tokens), id, userId)
    {
      ghost var goal := RevokeValid(tokens, id, userId);
      for i := 0 to |tokens|
        invariant |tokens| == |goal|
        invariant forall k :: 0 <= k < i ==> tokens[k] == goal[k]
        invariant forall k :: i <= k < |tokens| ==> tokens[k] == old(tokens)[k]
      {
        if tokens[i].ticketId == id && tokens[i].status.Valid? && (userId.Some? ==> tokens[i].userId == userId.value) {
          tokens := tokens[i := tokens[i].(status := Revoked)];
        }
      }
      assert tokens == goal;
    }

    method IssueCode(userId: UserId, id: TicketId, trustedDevice: bool, nonce: nat, now: int) returns (result: Result<nat, QrError>)
      modifies this
      ensures Outcome(Snapshot(), result) == Issue(old(Snapshot()), sign, userId, id, trustedDevice, nonce, now)
    {
      hide RevokeValid;
      var owned := OwnedTicket(Snapshot(), userId, id);
      if owned.Some? { return Err(owned.value); }
      if !trustedDevice { return Err(TrustedDeviceRequired); }
      if tickets[id].status.Admitted? { return Err(QrAlreadyUsed); }
      if !tickets[id].status.Owned? { return Err(TicketCanceled); }
      RevokeTokens(id, None);
      var qrId, expiresAt := |tokens|, now + QR_TTL_MS;
      var signature := sign(Payload(qrId, id, expiresAt, nonce));
      tokens := tokens + [Token(id, userId, nonce, signature, Valid, now, expiresAt)];
      return Ok(qrId);
    }

    method RevokeCode(userId: UserId, id: TicketId) returns (result: Result<nat, QrError>)
      modifies this
      ensures Outcome(Snapshot(), result) == Revoke(old(Snapshot()), userId, id)
    {
      hide RevokeValid;
      var owned := OwnedTicket(Snapshot(), userId, id);
      if owned.Some? { return Err(owned.value); }
      RevokeTokens(id, Some(userId));
      return Ok(0);
    }

    method ScanCode(code: Code, now: int) returns (result: Result<nat, QrError>)
      modifies this
      ensures Outcome(Snapshot(), result) == VerifyGate(old(Snapshot()), sign, code, now)
    {
      if code.Unreadable? || code.signature != sign(code.payload) { return Err(QrInvalid); }
      var found := Find(Snapshot(), code);
      if found.None? { return Err(QrInvalid); }
      var i := found.value;
      if tokens[i].status.Used? { return Err(QrAlreadyUsed); }
      if tokens[i].status.Revoked? { return Err(QrRevoked); }
      if tokens[i].expiresAt <= now {
        tokens := tokens[i := tokens[i].(status := Expired)];
        return Err(QrExpired);
      }
      var id := tokens[i].ticketId;
      if id !in tickets || !tickets[id].status.Owned? { return Err(TicketCanceled); }
      tokens := tokens[i := tokens[i].(status := Used)];
      tickets := tickets[id := tickets[id].(status := Admitted)];
      return Ok(i);
    }
  }
}
