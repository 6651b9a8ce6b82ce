/** When the mobile admission codes are issued, revoked and accepted, told from tokens and tickets alone. */
module MobileQrAnswers {
  import opened Prelude
  import opened MobileQr

  predicate Owns(s: State, userId: UserId, id: TicketId) { id in s.tickets && s.tickets[id].ownerId == Some(userId) }

  /**
   A code is issued exactly to the owner of an OWNED ticket on a trusted device; every VALID token of the ticket is then
   REVOKED and the new one, signed, is good for twenty seconds.
   */
  lemma IssueAnswers(s: State, sign: Payload -> Signature, userId: UserId, id: TicketId, trusted: bool, nonce: nat, now: int)
    ensures var r := Issue(s, sign, userId, id, trusted, nonce, now);
            && (r.result.Ok? <==> Owns(s, userId, id) && trusted && s.tickets[id].status == Owned)
            && (r.result == Err(NotOwner) <==> id in s.tickets && s.tickets[id].ownerId != Some(userId))
            && (r.result == Err(QrAlreadyUsed) <==> Owns(s, userId, id) && trusted && s.tickets[id].status == Admitted)
            && (r.result.Err? ==> r.state == s)
            && (r.result.Ok? ==>
                  && r.result == Ok(|s.tokens|) && r.state.tickets == s.tickets && |r.state.tokens| == |s.tokens| + 1
                  && (forall i :: 0 <= i < |s.tokens| ==>
                        r.state.tokens[i] == if s.tokens[i].ticketId == id && s.tokens[i].status == Valid
                                             then s.tokens[i].(status := Revoked) else s.tokens[i])
                  && r.state.tokens[|s.tokens|] == Token(id, userId, nonce, sign(Payload(|s.tokens|, id, now + 20000, nonce)), Valid, now, now + 20000))
  {
  }

  /** A revocation is for the ticket's owner, and takes the VALID tokens issued to that owner. */
  lemma RevokeAnswers(s: State, userId: UserId, id: TicketId)
    ensures var r := Revoke(s, userId, id);
            && (r.result.Ok? <==> Owns(s, userId, id))
            && (r.result.Err? ==> r.state == s)
            && (r.result.Ok? ==>
                  && r.state.tickets == s.tickets && |r.state.tokens| == |s.tokens|
                  && forall i :: 0 <= i < |s.tokens| ==>
                       r.state.tokens[i] == if s.tokens[i].ticketId == id && s.tokens[i].status == Valid && s.tokens[i].userId == userId
                                            then s.tokens[i].(status := Revoked) else s.tokens[i])
  {
  }

  /** The scanned code is signed, and names a token by its id, ticket and signature. */
  predicate Genuine(s: State, sign: Payload -> Signature, code: Code) {
    code.Code? && code.signature == sign(code.payload) && code.payload.qrId < |s.tokens|
    && s.tokens[code.payload.qrId].ticketId == code.payload.ticketId && s.tokens[code.payload.qrId].signature == code.signature
  }

  /**
   The gate lets in exactly a genuine code whose token is neither used nor revoked, has time left, and whose ticket is
   OWNED; that uses the token and admits the ticket.  A genuine code that has run out is marked so.  Nothing else changes.
   */
  lemma ScanAnswers(s: State, sign: Payload -> Signature, code: Code, now: int)
    ensures var r := VerifyGate(s, sign, code, now);
            && (r.result == Err(QrInvalid) <==> !Genuine(s, sign, code))
            && (Genuine(s, sign, code) ==>
                  var i, token := code.payload.qrId, s.tokens[code.payload.qrId];
                  && (r.result == Ok(i) <==>
                        token.status !in {Used, Revoked} && now < token.expiresAt
                        && token.ticketId in s.tickets && s.tickets[token.ticketId].status == Owned)
                  && (r.result == Err(QrAlreadyUsed) <==> token.status == Used)
                  && (r.result == Err(QrRevoked) <==> token.status == Revoked)
                  && (r.result == Err(QrExpired) <==> token.status !in {Used, Revoked} && token.expiresAt <= now)
                  && r.state == if r.result == Ok(i)
                                then State(s.tokens[i := token.(status := Used)],
                                           s.tickets[token.ticketId := s.tickets[token.ticketId].(status := Admitted)])
                                else if r.result == Err(QrExpired) then s.(tokens := s.tokens[i := token.(status := Expired)])
                                else s)
            && (r.result == Err(QrInvalid) ==> r.state == s)
  {
  }
}
