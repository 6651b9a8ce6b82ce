/** When the rotating admission QR is shown, issued and accepted, told from tickets, credentials and the request alone. */
module DynamicQrAnswers {
  import opened Prelude
  import opened DynamicQr

  predicate Owns(s: State, r: Request) { r.userFound && r.id in s.tickets && s.tickets[r.id].ownerId == Some(r.userId) }

  /** The credential as the server refreshes it: for this user, no longer active unless used, an earlier owner's hold lifted. */
  function Fresh(s: State, r: Request, opensAt: int): Credential {
    if r.id !in s.credentials then Credential(r.userId, VirtualReady, opensAt, false, None, None)
    else
      var c := s.credentials[r.id];
      Credential(r.userId, if c.status == Used then Used else VirtualReady, opensAt, c.adminHold && c.userId == r.userId, c.usedAt, c.usedBy)
  }

  lemma ShowAnswers(s: State, r: Request)
    ensures var o := VirtualQr(s, r);
            && (o.result == Ok(None) <==> Owns(s, r) && r.opensAt.Some?)
            && (o.result.Err? || o.result == Ok(None))
            && o.state == if o.result.Ok? then s.(credentials := s.credentials[r.id := Fresh(s, r, r.opensAt.value)]) else s
  {
  }

  /** The operator's hold, as it still stands for this user. */
  predicate HeldBack(s: State, r: Request) {
    r.id in s.credentials && s.credentials[r.id].adminHold && s.credentials[r.id].userId == r.userId
  }

  /** A request that needs no emergency: app, attestation, device and risk are in order, and the doors are open. */
  predicate InOrder(s: State, r: Request, now: int)
    requires r.opensAt.Some?
  {
    && !HeldBack(s, r) && r.app && r.attested && r.trustedDevice && now >= r.opensAt.value
    && match r.risk
       case Allow => true
       case OtpRequired => r.otpVerified
       case DelayOrSupportCheck => r.delayAcknowledged
       case HoldForReview => false
  }

  /**
   A real code is issued exactly to the owner of an OWNED ticket of a performance there is, with everything in order or in
   an emergency.  It is signed, good for twenty seconds, and replaces the ticket's earlier one.  The credential is refreshed
   even when the code is then refused.
   */
  lemma IssueAnswers(s: State, sign: Payload -> Signature, r: Request, now: int)
    ensures var o := IssueQr(s, sign, r, now);
            var known := Owns(s, r) && s.tickets[r.id].status == Owned && r.opensAt.Some?;
            && (o.result.Ok? <==> known && (r.emergency || InOrder(s, r, now)))
            && (o.result == Err(AdminHoldActive) <==> known && !r.emergency && HeldBack(s, r))
            && (!known ==> o.state == s)
            && (known && o.result.Err? ==> o.state == s.(credentials := s.credentials[r.id := Fresh(s, r, r.opensAt.value)]))
            && (o.result.Ok? ==>
                  var payload := Payload(r.id, r.userId, now + 20000, r.nonce);
                  && o.result == Ok(Some(Code(payload, sign(payload))))
                  && o.state == State(s.tickets[r.id := s.tickets[r.id].(currentQr := Some(Qr(sign(payload), None, None)))],
                                      s.credentials[r.id := Fresh(s, r, r.opensAt.value).(status := QrActive)]))
  {
  }

  /** The code the ticket carries now, signed for its present owner, with time left. */
  predicate Current(s: State, sign: Payload -> Signature, code: Code, now: int) {
    var id := code.payload.id;
    && id in s.tickets && s.tickets[id].ownerId == Some(code.payload.ownerId) && s.tickets[id].currentQr.Some?
    && s.tickets[id].currentQr.value.signature == code.signature && code.signature == sign(code.payload) && now < code.payload.expiresAt
  }

  predicate UsedUp(s: State, id: TicketId)
    requires id in s.tickets && s.tickets[id].currentQr.Some?
  {
    s.tickets[id].currentQr.value.usedAt.Some? || (id in s.credentials && s.credentials[id].status == Used)
  }

  /**
   A gate lets in exactly the ticket's current code, not used yet, for an event the gate is for; that admits the ticket
   and stamps QR and credential with time and gate.  A used one is reported as such, with the first use where it is on
   record; nothing but an admission changes anything.
   */
  lemma ScanAnswers(s: State, sign: Payload -> Signature, code: Code, gateId: Option<GateId>, gateEvent: Option<string>, now: int)
    ensures var r, scan := VerifyQr(s, sign, code, gateId, gateEvent, now).0, VerifyQr(s, sign, code, gateId, gateEvent, now).1;
            var id := code.payload.id;
            && (scan.valid <==>
                  Current(s, sign, code, now) && !UsedUp(s, id) && (gateEvent.None? || s.tickets[id].eventId == gateEvent.value))
            && (scan.alreadyUsed <==> Current(s, sign, code, now) && UsedUp(s, id))
            && (scan.eventScopeMismatch <==>
                  Current(s, sign, code, now) && !UsedUp(s, id) && gateEvent.Some? && s.tickets[id].eventId != gateEvent.value)
            && (!scan.valid ==> r == s)
            && (scan.valid ==>
                  var t, used := s.tickets[id], s.tickets[id].currentQr.value.(usedAt := Some(now), usedBy := gateId);
                  r == State(s.tickets[id := t.(status := Admitted, currentQr := Some(used))],
                             if id in s.credentials
                             then s.credentials[id := s.credentials[id].(status := Used, usedAt := Some(now), usedBy := gateId)]
                             else s.credentials))
  {
  }

  /** A scan of a used code names the time and gate of its use: the credential's where it has them, else the QR's own. */
  lemma ReportAnswers(s: State, sign: Payload -> Signature, code: Code, gateId: Option<GateId>, gateEvent: Option<string>, now: int)
    ensures var scan, id := VerifyQr(s, sign, code, gateId, gateEvent, now).1, code.payload.id;
            && (!scan.alreadyUsed ==> scan.usedAt == None && scan.usedBy == None)
            && (scan.alreadyUsed ==>
                  && id in s.tickets && s.tickets[id].currentQr.Some?
                  && var qr := s.tickets[id].currentQr.value;
                     && scan.usedAt == (if id in s.credentials && s.credentials[id].usedAt.Some? then s.credentials[id].usedAt else qr.usedAt)
                     && scan.usedBy == (if id in s.credentials && s.credentials[id].usedBy.Some? then s.credentials[id].usedBy else qr.usedBy))
  {
  }
}
