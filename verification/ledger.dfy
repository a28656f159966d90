/** The payment ledger of an order (`payHistory`) and the decisions the order
    controller takes from it: the four status flags of `checkStatus`, the
    opening entry written by `create`, the plan of an `update` (errors,
    'Edited' marker, gateway call, appended entry) and the note `remove`
    records. Money is in integer cents. */
module Ledger {
  import opened Common

  /** `cartDetail` line: `{product: Number, quantity: Number}`. */
  datatype CartLine = CartLine(product: int, quantity: int)
  type Cart = seq<CartLine>

  /** `{subtotal, tax, total}` of the pricing helper, in cents. */
  datatype Quote = Quote(subtotal: int, tax: int, total: int)

  /** The card fields `create` copies from `req.body.paymentInfo`. */
  datatype CardInfo = CardInfo(
    cardNumber: Option<string>, expiryMonth: Option<string>, expiryYear: Option<string>,
    cvv: Option<string>, avsZip: Option<string>, avsStreet: Option<string>)

  /** What the payment gateway answers to authorize, finalize and partial refund. */
  datatype GatewayReply = GatewayReply(
    status: string, created: string, paymentToken: string, id: string, amount: int, authCode: string)

  /** The request the controller sends to the gateway. */
  datatype GatewayCall =
    | Authorize(amount: int, card: CardInfo)
    | Finalize(amount: int, paymentToken: string, authCode: string)
    | RefundPartial(amount: int, paymentToken: string)
    | RefundFull(id: string)

  const APPROVED := "Approved"
  const PLACED := "Placed"
  const COMPLETED := "Completed"
  const PARTIAL_REFUND := "Partial Refund"
  const CANCELLED := "Cancelled"
  /** The HTTP status of a successful full refund. */
  const NO_CONTENT := 204

  predicate Approved(reply: GatewayReply) {
    reply.status == APPROVED
  }

  /** A ledger entry's `status` is either one of the labels or, when the
      gateway did not approve, the gateway's whole answer. */
  datatype EntryStatus = Label(text: string) | Raw(reply: GatewayReply)

  /** The `_ref` part of a ledger entry. */
  datatype PayRef = PayRef(created: string, paymentToken: string, id: string, amount: int, authCode: string)

  datatype LedgerEntry = LedgerEntry(status: EntryStatus, ref: PayRef)

  /** An element of `order.status`: `{msg}` where msg is a text or, after a
      failed full refund, the gateway's raw answer. */
  datatype StatusNote = Note(msg: string) | RawNote(result: int)

  const EditedNote := Note("Edited")

  function RefOf(reply: GatewayReply): PayRef {
    PayRef(reply.created, reply.paymentToken, reply.id, reply.amount, reply.authCode)
  }

  function Last(h: seq<LedgerEntry>): LedgerEntry
    requires h != []
  {
    h[|h| - 1]
  }

  function EntryList(e: Option<LedgerEntry>): seq<LedgerEntry> {
    match e
    case Some(x) => [x]
    case None => []
  }

  // ---------------------------------------------------------------------
  // checkStatus
  // ---------------------------------------------------------------------

  datatype Flags = Flags(authorized: bool, paid: bool, refunded: bool, cancelled: bool)

  const NoFlags := Flags(false, false, false, false)

  /** Some entry of the ledger carries the status label `name`. */
  predicate Has(h: seq<LedgerEntry>, name: string) {
    exists e :: e in h && e.status == Label(name)
  }

  /** One arm of the `switch` in `checkStatus`. */
  function Mark(s: Flags, e: LedgerEntry): Flags {
    match e.status
    case Raw(_) => s
    case Label(t) =>
      if t == PLACED then s.(authorized := true)
      else if t == COMPLETED then s.(paid := true)
      else if t == PARTIAL_REFUND then s.(refunded := true)
      else if t == CANCELLED then s.(cancelled := true)
      else s
  }

  /** Each arm raises the flag of its own label and no other. */
  lemma MarkRaises(s: Flags, e: LedgerEntry)
    ensures Mark(s, e).authorized <==> s.authorized || e.status == Label(PLACED)
    ensures Mark(s, e).paid <==> s.paid || e.status == Label(COMPLETED)
    ensures Mark(s, e).refunded <==> s.refunded || e.status == Label(PARTIAL_REFUND)
    ensures Mark(s, e).cancelled <==> s.cancelled || e.status == Label(CANCELLED)
  {
    assert PLACED[0] == 'P' && COMPLETED[0] == 'C' && PARTIAL_REFUND[0] == 'P' && CANCELLED[0] == 'C';
    assert |PLACED| == 6 && |PARTIAL_REFUND| == 14 && COMPLETED[1] == 'o' && CANCELLED[1] == 'a';
  }

  /** A label is in a ledger with one more entry exactly when it was in the
      ledger or is that entry's. */
  lemma HasSnoc(h: seq<LedgerEntry>, e: LedgerEntry, name: string)
    ensures Has(h + [e], name) <==> Has(h, name) || e.status == Label(name)
  {
    if Has(h + [e], name) && !Has(h, name) {
      var x :| x in h + [e] && x.status == Label(name);
      assert x !in h;
    }
    if Has(h, name) {
      var x :| x in h && x.status == Label(name);
      assert x in h + [e];
    }
    if e.status == Label(name) {
      assert e in h + [e];
    }
  }

  /** The flags `checkStatus` derives from a ledger, as a left fold of Mark. */
  function StatusOf(h: seq<LedgerEntry>): (s: Flags)
    ensures s.authorized <==> Has(h, PLACED)
    ensures s.paid <==> Has(h, COMPLETED)
    ensures s.refunded <==> Has(h, PARTIAL_REFUND)
    ensures s.cancelled <==> Has(h, CANCELLED)
  {
    if h == [] then NoFlags
    else
      var init, e := h[..|h| - 1], Last(h);
      assert h == init + [e];
      MarkRaises(StatusOf(init), e);
      HasSnoc(init, e, PLACED);
      HasSnoc(init, e, COMPLETED);
      HasSnoc(init, e, PARTIAL_REFUND);
      HasSnoc(init, e, CANCELLED);
      Mark(StatusOf(init), e)
  }

  /** `checkStatus`: the loop over `payHistory` that sets a flag per status label. */
  method CheckStatus(h: seq<LedgerEntry>) returns (s: Flags)
    ensures s == StatusOf(h)
  {
    s := NoFlags;
    for i := 0 to |h|
      invariant s == StatusOf(h[..i])
    {
      assert h[..i + 1][..i] == h[..i];
      match h[i].status {
        case Label(t) =>
          if t == PLACED {
            s := s.(authorized := true);
          } else if t == COMPLETED {
            s := s.(paid := true);
          } else if t == PARTIAL_REFUND {
            s := s.(refunded := true);
          } else if t == CANCELLED {
            s := s.(cancelled := true);
          }
        case Raw(_) =>
      }
    }
    assert h[..|h|] == h;
  }

  /** The set of statuses a ledger holds. */
  function Statuses(h: seq<LedgerEntry>): set<EntryStatus> {
    set e | e in h :: e.status
  }

  lemma {:induction false} HasIffStatus(h: seq<LedgerEntry>, name: string)
    ensures Has(h, name) <==> Label(name) in Statuses(h)
  {
    if Label(name) in Statuses(h) {
      var e :| e in h && e.status == Label(name);
    }
  }

  /** The flags depend only on which statuses occur in the ledger: order
      and repetition of entries do not matter. */
  lemma {:induction false} StatusOfDependsOnStatuses(h1: seq<LedgerEntry>, h2: seq<LedgerEntry>)
    requires Statuses(h1) == Statuses(h2)
    ensures StatusOf(h1) == StatusOf(h2)
  {
    HasIffStatus(h1, PLACED);
    HasIffStatus(h2, PLACED);
    HasIffStatus(h1, COMPLETED);
    HasIffStatus(h2, COMPLETED);
    HasIffStatus(h1, PARTIAL_REFUND);
    HasIffStatus(h2, PARTIAL_REFUND);
    HasIffStatus(h1, CANCELLED);
    HasIffStatus(h2, CANCELLED);
  }

  /** Reordering the ledger gives the same flags. */
  lemma {:induction false} StatusOfPermutation(h1: seq<LedgerEntry>, h2: seq<LedgerEntry>)
    requires multiset(h1) == multiset(h2)
    ensures StatusOf(h1) == StatusOf(h2)
  {
    forall e | e in h1 ensures e in h2 {
      assert e in multiset(h1);
    }
    forall e | e in h2 ensures e in h1 {
      assert e in multiset(h2);
    }
    assert Statuses(h1) == Statuses(h2);
    StatusOfDependsOnStatuses(h1, h2);
  }

  /** Every flag of `a` is also raised in `b`. */
  predicate Within(a: Flags, b: Flags) {
    (a.authorized ==> b.authorized) && (a.paid ==> b.paid)
    && (a.refunded ==> b.refunded) && (a.cancelled ==> b.cancelled)
  }

  /** Appending entries never lowers a flag. */
  lemma {:induction false} AppendNeverLowersFlags(h: seq<LedgerEntry>, more: seq<LedgerEntry>)
    ensures Within(StatusOf(h), StatusOf(h + more))
  {
    forall name: string | Has(h, name) ensures Has(h + more, name) {
      var e :| e in h && e.status == Label(name);
      assert e in h + more;
    }
  }

  /** Appending one entry raises exactly the flag of its status label. */
  lemma {:induction false} StatusOfSnoc(h: seq<LedgerEntry>, e: LedgerEntry)
    ensures StatusOf(h + [e]) == Mark(StatusOf(h), e)
  {
    var h' := h + [e];
    assert h'[..|h'| - 1] == h;
  }

  // ---------------------------------------------------------------------
  // create
  // ---------------------------------------------------------------------

  /** The only entry `create` writes: 'Placed' when the gateway approved the
      authorization, the gateway's raw answer otherwise. */
  function OpeningEntry(reply: GatewayReply): (e: LedgerEntry)
    ensures e.status == Label(PLACED) <==> Approved(reply)
    ensures !Approved(reply) ==> e.status == Raw(reply)
    ensures e.ref.created == reply.created && e.ref.paymentToken == reply.paymentToken
    ensures e.ref.id == reply.id && e.ref.amount == reply.amount && e.ref.authCode == reply.authCode
  {
    LedgerEntry(if Approved(reply) then Label(PLACED) else Raw(reply), RefOf(reply))
  }

  /** A new order is authorized exactly when the gateway approved, and
      carries no other flag. */
  lemma {:induction false} OpeningFlags(reply: GatewayReply)
    ensures StatusOf([OpeningEntry(reply)]) == Flags(Approved(reply), false, false, false)
  {
    StatusOfSnoc([], OpeningEntry(reply));
  }

  // ---------------------------------------------------------------------
  // update
  // ---------------------------------------------------------------------

  const CancelledBefore := ApiError("Order was previously cancelled.", BadRequest)
  const NotAuthorized := ApiError("Order has not been authorized.", BadGateway)
  const AlreadyPaid := ApiError("Cannot finalize paid transaction.", BadRequest)

  /** The errors `update` passes to `next`, in the order it passes them. */
  function UpdateErrors(s: Flags, finalize: bool): (errs: seq<ApiError>)
    ensures CancelledBefore in errs <==> s.cancelled
    ensures NotAuthorized in errs <==> !s.authorized
    ensures AlreadyPaid in errs <==> s.paid && finalize
    ensures forall e :: e in errs ==> e == CancelledBefore || e == NotAuthorized || e == AlreadyPaid
    ensures errs == [] <==> !s.cancelled && s.authorized && !(s.paid && finalize)
    ensures s.cancelled ==> errs[0] == CancelledBefore
    ensures !s.cancelled && !s.authorized ==> errs[0] == NotAuthorized
    ensures s.paid && finalize ==> errs[|errs| - 1] == AlreadyPaid
    ensures |errs| == (if s.cancelled then 1 else 0) + (if !s.authorized then 1 else 0) + (if s.paid && finalize then 1 else 0)
  {
    (if s.cancelled then [CancelledBefore] else [])
    + (if !s.authorized then [NotAuthorized] else [])
    + (if s.paid && finalize then [AlreadyPaid] else [])
  }

  /** `calcs.change`: `round2(new.total - old.total)` when the quotes differ,
      0 otherwise. With amounts in cents the rounding is exact, and equal
      quotes have equal totals, so the change is always the difference. */
  function Change(newQuote: Quote, oldQuote: Quote): (change: int)
    ensures change == newQuote.total - oldQuote.total
  {
    if newQuote != oldQuote then newQuote.total - oldQuote.total else 0
  }

  /** What one `update` does to the ledger and who it calls. `saves` is
      false only when the handler dies before `order.save()`. */
  datatype UpdatePlan = UpdatePlan(
    errors: seq<ApiError>, edited: bool, call: Option<GatewayCall>,
    entry: Option<LedgerEntry>, saves: bool, cartChanged: bool)

  /** The decision logic of `update` as written: finalize counts as
      requested whenever the field is present; the three error checks do not
      return; the refund branch (paid and the quote changed) and the
      finalize branch (not paid and finalize) exclude each other; an entry
      is appended only on gateway approval; an empty ledger makes the
      finalize branch read `_ref` of undefined, so the handler throws before
      saving. */
  function PlanUpdate(h: seq<LedgerEntry>, finalizeField: Option<bool>, newQuote: Quote, oldQuote: Quote,
                      reply: GatewayReply): (p: UpdatePlan)
    ensures p.errors == UpdateErrors(StatusOf(h), finalizeField.Some?)
    ensures p.edited <==> Has(h, PLACED) && !Has(h, COMPLETED) && finalizeField.None?
    ensures p.cartChanged <==> newQuote != oldQuote
    ensures !p.saves <==> !Has(h, COMPLETED) && finalizeField.Some? && h == []
    ensures p.call.Some? ==> p.call.value.RefundPartial? || p.call.value.Finalize?
    ensures (p.call.Some? && p.call.value.RefundPartial?) <==> Has(h, COMPLETED) && newQuote != oldQuote
    ensures (p.call.Some? && p.call.value.Finalize?) <==> !Has(h, COMPLETED) && finalizeField.Some? && h != []
    ensures p.call.Some? && p.call.value.RefundPartial? ==>
      p.call.value == RefundPartial(newQuote.total - oldQuote.total, Last(h).ref.paymentToken)
    ensures p.call.Some? && p.call.value.Finalize? ==>
      p.call.value == Finalize(newQuote.total, Last(h).ref.paymentToken, Last(h).ref.authCode)
    ensures p.entry.Some? <==> p.call.Some? && Approved(reply)
    ensures p.entry.Some? && p.call.value.RefundPartial? ==>
      p.entry.value == LedgerEntry(Label(PARTIAL_REFUND),
        PayRef(reply.created, reply.paymentToken, reply.id, newQuote.total - oldQuote.total, reply.authCode))
    ensures p.entry.Some? && p.call.value.Finalize? ==>
      p.entry.value == LedgerEntry(Label(COMPLETED), RefOf(reply))
  {
    var s := StatusOf(h);
    var finalize := finalizeField.Some?;
    var diff := newQuote != oldQuote;
    var change := Change(newQuote, oldQuote);
    var errors := UpdateErrors(s, finalize);
    var edited := s.authorized && !s.paid && !finalize;
    if s.paid && diff then
      var call := RefundPartial(change, Last(h).ref.paymentToken);
      var entry := LedgerEntry(Label(PARTIAL_REFUND),
        PayRef(reply.created, reply.paymentToken, reply.id, change, reply.authCode));
      UpdatePlan(errors, edited, Some(call), if Approved(reply) then Some(entry) else None, true, diff)
    else if !s.paid && finalize then
      if h == [] then
        UpdatePlan(errors, edited, None, None, false, diff)
      else
        var call := Finalize(newQuote.total, Last(h).ref.paymentToken, Last(h).ref.authCode);
        var entry := LedgerEntry(Label(COMPLETED), RefOf(reply));
        UpdatePlan(errors, edited, Some(call), if Approved(reply) then Some(entry) else None, true, diff)
    else
      UpdatePlan(errors, edited, None, None, true, diff)
  }

  /** Only the presence of `finalize` matters, never its value. */
  lemma FinalizeValueIgnored(h: seq<LedgerEntry>, a: bool, b: bool, newQuote: Quote, oldQuote: Quote,
                             reply: GatewayReply)
    ensures PlanUpdate(h, Some(a), newQuote, oldQuote, reply) == PlanUpdate(h, Some(b), newQuote, oldQuote, reply)
  {
  }

  /** A plain edit (authorized, not paid, no finalize) marks the order
      'Edited' and neither calls the gateway nor touches the ledger. */
  lemma PlainEditCallsNoGateway(h: seq<LedgerEntry>, newQuote: Quote, oldQuote: Quote, reply: GatewayReply)
    requires Has(h, PLACED) && !Has(h, COMPLETED)
    ensures var p := PlanUpdate(h, None, newQuote, oldQuote, reply);
      p.edited && p.call.None? && p.entry.None? && p.saves && p.errors == UpdateErrors(StatusOf(h), false)
  {
  }

  /** How one update moves the flags: authorization and cancellation never
      change; paid is raised only by an approved finalize and refunded only
      by an approved partial refund. */
  lemma {:induction false} UpdateFlags(h: seq<LedgerEntry>, finalizeField: Option<bool>, newQuote: Quote,
                                       oldQuote: Quote, reply: GatewayReply)
    ensures var p := PlanUpdate(h, finalizeField, newQuote, oldQuote, reply);
      var s, s' := StatusOf(h), StatusOf(h + EntryList(p.entry));
      && s'.authorized == s.authorized
      && s'.cancelled == s.cancelled
      && s'.paid == (s.paid || (p.entry.Some? && p.call.value.Finalize?))
      && s'.refunded == (s.refunded || (p.entry.Some? && p.call.value.RefundPartial?))
  {
    var p := PlanUpdate(h, finalizeField, newQuote, oldQuote, reply);
    match p.entry {
      case None =>
        assert h + EntryList(p.entry) == h;
      case Some(e) =>
        StatusOfSnoc(h, e);
    }
  }

  /** Once paid, an order stays paid whatever the update. */
  lemma {:induction false} PaidIsPermanent(h: seq<LedgerEntry>, finalizeField: Option<bool>, newQuote: Quote,
                                           oldQuote: Quote, reply: GatewayReply)
    requires StatusOf(h).paid
    ensures var p := PlanUpdate(h, finalizeField, newQuote, oldQuote, reply);
      StatusOf(h + EntryList(p.entry)).paid && (p.call.Some? ==> p.call.value.RefundPartial?)
  {
    UpdateFlags(h, finalizeField, newQuote, oldQuote, reply);
  }

  // ---------------------------------------------------------------------
  // remove
  // ---------------------------------------------------------------------

  /** The `{msg}` that `remove` pushes onto `order.status`. */
  function CancelNote(result: int): (n: StatusNote)
    ensures n == Note(CANCELLED) <==> result == NO_CONTENT
    ensures result != NO_CONTENT ==> n == RawNote(result)
  {
    if result == NO_CONTENT then Note(CANCELLED) else RawNote(result)
  }

  // ---------------------------------------------------------------------
  // Findings: the behaviour as written, and the evidently intended one
  // ---------------------------------------------------------------------

  function ApprovedReply(token: string): GatewayReply {
    GatewayReply(APPROVED, "", token, "", 0, "")
  }

  /** As written, `remove` records the cancellation in `order.status`, never
      in `payHistory`, while `update` reads only `payHistory`: an approved
      order cancelled with a 204 from the gateway is still finalized by a
      later update, with no error reported. */
  lemma {:induction false} CancelledOrderStillFinalizes(auth: GatewayReply, q: Quote, reply: GatewayReply)
    requires Approved(auth)
    ensures var h := [OpeningEntry(auth)];
      var p := PlanUpdate(h, Some(true), q, q, reply);
      p.errors == [] && p.call == Some(Finalize(q.total, auth.paymentToken, auth.authCode))
  {
    OpeningFlags(auth);
  }

  /** As written, the error checks of `update` do not return: an order whose
      authorization was declined still gets finalized and marked
      'Completed' while BAD_GATEWAY is reported. */
  lemma DeclinedOrderStillCompleted(q: Quote)
    ensures var declined := GatewayReply("Declined", "", "tok", "", 0, "");
      var p := PlanUpdate([OpeningEntry(declined)], Some(true), q, q, ApprovedReply("tok"));
      p.errors == [NotAuthorized] && p.entry.Some? && p.entry.value.status == Label(COMPLETED)
  {
    var declined := GatewayReply("Declined", "", "tok", "", 0, "");
    OpeningFlags(declined);
  }

  /** Corrected `remove`: a full refund answered with 204 is recorded as a
      'Cancelled' ledger entry against the refunded transaction. */
  function CancelLedger(h: seq<LedgerEntry>, result: int): (h': seq<LedgerEntry>)
    requires h != []
    ensures result == NO_CONTENT ==> h' == h + [LedgerEntry(Label(CANCELLED), Last(h).ref)]
    ensures result == NO_CONTENT ==> StatusOf(h').cancelled
    ensures result != NO_CONTENT ==> h' == h
  {
    if result == NO_CONTENT then
      var e := LedgerEntry(Label(CANCELLED), Last(h).ref);
      assert e in h + [e];
      h + [e]
    else h
  }

  /** Corrected `update`: the first failed check is reported and the handler
      returns, so a rejected update neither edits, calls the gateway,
      appends to the ledger nor saves; an accepted one never meets an empty
      ledger. */
  function PlanGuardedUpdate(h: seq<LedgerEntry>, finalizeField: Option<bool>, newQuote: Quote, oldQuote: Quote,
                             reply: GatewayReply): (p: UpdatePlan)
    ensures |p.errors| <= 1
    ensures p.errors != [] <==> StatusOf(h).cancelled || !StatusOf(h).authorized || (StatusOf(h).paid && finalizeField.Some?)
    ensures StatusOf(h).cancelled ==> p.errors == [CancelledBefore]
    ensures !StatusOf(h).cancelled && !StatusOf(h).authorized ==> p.errors == [NotAuthorized]
    ensures !StatusOf(h).cancelled && StatusOf(h).authorized && StatusOf(h).paid && finalizeField.Some? ==>
      p.errors == [AlreadyPaid]
    ensures p.errors != [] ==> p.call.None? && p.entry.None? && !p.edited && !p.saves
    ensures p.errors == [] ==> p.saves && p == PlanUpdate(h, finalizeField, newQuote, oldQuote, reply)
  {
    var errors := UpdateErrors(StatusOf(h), finalizeField.Some?);
    if errors != [] then
      UpdatePlan([errors[0]], false, None, None, false, false)
    else
      PlanUpdate(h, finalizeField, newQuote, oldQuote, reply)
  }

  /** With both corrections, an order cancelled with a 204 can no longer be
      changed: the update is rejected with BAD_REQUEST and nothing is sent
      to the gateway. */
  lemma {:induction false} CorrectedCancelBlocksUpdate(h: seq<LedgerEntry>, finalizeField: Option<bool>,
                                                       newQuote: Quote, oldQuote: Quote, reply: GatewayReply)
    requires h != []
    ensures var p := PlanGuardedUpdate(CancelLedger(h, NO_CONTENT), finalizeField, newQuote, oldQuote, reply);
      p.errors == [CancelledBefore] && p.call.None? && p.entry.None? && !p.saves
  {
    var h' := CancelLedger(h, NO_CONTENT);
    assert StatusOf(h').cancelled;
  }
}
