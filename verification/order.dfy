/** The order document and the handlers of `order.controller.js` that change
    it in place before `save()`. The pricing helper is a function parameter
    `price`, the payment gateway's answer an oracle parameter. */
module Orders {
  import opened Common
  import opened Ledger

  /** `req.body` of `create`. */
  datatype OrderBody = OrderBody(
    cartDetail: Cart, userComments: Option<string>, comments: Option<string>, paymentInfo: CardInfo)

  /** `req.body` of `update`; `finalize` holds whatever value was sent. */
  datatype UpdateBody = UpdateBody(
    cartDetail: Cart, finalize: Option<bool>, userComments: Option<string>, comments: Option<string>)

  /** The plain-object view of an order (what `res.json` sends). */
  datatype OrderDoc = OrderDoc(
    uuid: string, user: Option<string>, cartDetail: Cart, status: seq<StatusNote>,
    payHistory: seq<LedgerEntry>, subtotal: int, tax: int,
    userComments: Option<string>, comments: Option<string>)

  /** What `remove` answers: the saved order (record kept), or
      `{deleted: true, deletedOrder}` (record removed). */
  datatype RemoveReply = Retained(order: OrderDoc) | Deleted(deleted: bool, deletedOrder: OrderDoc)

  class Order {
    const uuid: string
    var user: Option<string>
    var cartDetail: Cart
    var status: seq<StatusNote>
    var payHistory: seq<LedgerEntry>
    var subtotal: int
    var tax: int
    var userComments: Option<string>
    var comments: Option<string>

    function Doc(): OrderDoc
      reads this
    {
      OrderDoc(uuid, user, cartDetail, status, payHistory, subtotal, tax, userComments, comments)
    }

    /** `new Order(orderData)`, with the ledger seeded by `create`. */
    constructor (uuid: string, user: Option<string>, body: OrderBody, quote: Quote, opening: LedgerEntry)
      ensures Doc() == OrderDoc(uuid, user, body.cartDetail, [], [opening], quote.subtotal, quote.tax,
                                body.userComments, body.comments)
    {
      this.uuid := uuid;
      this.user := user;
      cartDetail := body.cartDetail;
      status := [];
      payHistory := [opening];
      subtotal := quote.subtotal;
      tax := quote.tax;
      userComments := body.userComments;
      comments := body.comments;
    }

    /** `create`: price the cart, ask the gateway to authorize the total, and
        seed the ledger with exactly one entry built from its answer. */
    static method Create(uuid: string, user: Option<string>, body: OrderBody, price: Cart -> Quote,
                         reply: GatewayReply) returns (order: Order, call: GatewayCall)
      ensures fresh(order)
      ensures call == Authorize(price(body.cartDetail).total, body.paymentInfo)
      ensures order.payHistory == [OpeningEntry(reply)]
      ensures StatusOf(order.payHistory).authorized <==> Approved(reply)
      ensures order.subtotal == price(body.cartDetail).subtotal && order.tax == price(body.cartDetail).tax
      ensures order.Doc() == OrderDoc(uuid, user, body.cartDetail, [], [OpeningEntry(reply)],
                                      price(body.cartDetail).subtotal, price(body.cartDetail).tax,
                                      body.userComments, body.comments)
    {
      var calcs := price(body.cartDetail);
      call := Authorize(calcs.total, body.paymentInfo);
      var entry := OpeningEntry(reply);
      OpeningFlags(reply);
      order := new Order(uuid, user, body, calcs, entry);
    }

    /** `update`, as written: the three checks report through `next` but do
        not return, so the branches below them and the save still run. */
    method Update(body: UpdateBody, price: Cart -> Quote, reply: GatewayReply)
      returns (errors: seq<ApiError>, call: Option<GatewayCall>, saved: bool)
      modifies this
      ensures var p := PlanUpdate(old(payHistory), body.finalize, price(body.cartDetail),
                                  price(old(cartDetail)), reply);
        && errors == p.errors && call == p.call && saved == p.saves
        && payHistory == old(payHistory) + EntryList(p.entry)
        && status == old(status) + (if p.edited then [EditedNote] else [])
        && (saved && p.cartChanged ==>
              cartDetail == body.cartDetail && subtotal == price(body.cartDetail).subtotal
              && tax == price(body.cartDetail).tax)
        && (!saved || !p.cartChanged ==>
              cartDetail == old(cartDetail) && subtotal == old(subtotal) && tax == old(tax))
        && userComments == (if saved then body.userComments else old(userComments))
        && comments == (if saved then body.comments else old(comments))
        && user == old(user)
    {
      var h := payHistory;
      var s := CheckStatus(h);
      var finalize := body.finalize.Some?;
      var newQuote, oldQuote := price(body.cartDetail), price(cartDetail);
      var diff := newQuote != oldQuote;
      var change := Change(newQuote, oldQuote);
      ghost var p := PlanUpdate(h, body.finalize, newQuote, oldQuote, reply);
      assert p.edited == (s.authorized && !s.paid && !finalize);
      assert p.cartChanged == diff;

      // cancelled -> BAD_REQUEST, not authorized -> BAD_GATEWAY,
      // paid and finalize -> BAD_REQUEST; none of them returns.
      errors := UpdateErrors(s, finalize);
      if s.authorized && !s.paid && !finalize {
        status := status + [EditedNote];
      }
      call := None;
      if s.paid && diff {
        var last := Last(h);
        call := Some(RefundPartial(change, last.ref.paymentToken));
        if Approved(reply) {
          payHistory := payHistory + [LedgerEntry(Label(PARTIAL_REFUND),
            PayRef(reply.created, reply.paymentToken, reply.id, change, reply.authCode))];
        }
      }
      if !s.paid && finalize {
        if h == [] {
          // `payHistory._ref` of undefined throws: nothing below runs.
          saved := false;
          return;
        }
        var last := Last(h);
        call := Some(Finalize(newQuote.total, last.ref.paymentToken, last.ref.authCode));
        if Approved(reply) {
          payHistory := payHistory + [LedgerEntry(Label(COMPLETED), RefOf(reply))];
        }
      }
      if diff {
        cartDetail := body.cartDetail;
        subtotal := newQuote.subtotal;
        tax := newQuote.tax;
      }
      userComments := body.userComments;
      comments := body.comments;
      saved := true;
    }

    /** `remove`: fully refund the last ledger entry's transaction, note the
        outcome on `order.status`, then keep the record (non-administrator)
        or delete it (administrator). An empty ledger makes the handler
        throw before anything happens. */
    method Remove(user: Principal, refundResult: int) returns (call: Option<GatewayCall>, reply: Option<RemoveReply>)
      modifies this
      ensures old(payHistory) == [] ==> call.None? && reply.None? && unchanged(this)
      ensures old(payHistory) != [] ==>
        && call == Some(RefundFull(Last(old(payHistory)).ref.id))
        && status == old(status) + [CancelNote(refundResult)]
        && Doc() == old(Doc()).(status := status)
        && reply == Some(if user.isAdmin then Deleted(true, Doc()) else Retained(Doc()))
    {
      if payHistory == [] {
        return None, None;
      }
      var payId := Last(payHistory).ref.id;
      call := Some(RefundFull(payId));
      status := status + [CancelNote(refundResult)];
      if !user.isAdmin {
        reply := Some(Retained(Doc()));
      } else {
        reply := Some(Deleted(true, Doc()));
      }
    }
  }

  /** As written, a customer's cancellation does not stop a later update
      from finalizing: create an order with an approved authorization, have
      its owner remove it (the gateway refunds with 204), then update it with
      `finalize` present. The update reports no error and asks the gateway
      to finalize the refunded transaction. */
  method CancelThenFinalize(uuid: string, owner: Option<string>, customer: string, body: OrderBody,
                            price: Cart -> Quote, auth: GatewayReply, finalizeReply: GatewayReply)
    returns (refund: Option<GatewayCall>, notes: seq<StatusNote>, errors: seq<ApiError>, finalize: Option<GatewayCall>)
    requires Approved(auth)
    ensures refund == Some(RefundFull(auth.id))
    ensures notes == [Note(CANCELLED)]
    ensures errors == []
    ensures finalize == Some(Finalize(price(body.cartDetail).total, auth.paymentToken, auth.authCode))
  {
    var order, _ := Order.Create(uuid, owner, body, price, auth);
    var removed;
    refund, removed := order.Remove(Principal(customer, false), NO_CONTENT);
    notes := order.status;
    var edit := UpdateBody(body.cartDetail, Some(true), body.userComments, body.comments);
    var saved;
    errors, finalize, saved := order.Update(edit, price, finalizeReply);
    CancelledOrderStillFinalizes(auth, price(body.cartDetail), finalizeReply);
  }

  /** `publicize`: delete `comments` from every order, then unwrap a
      one-element array. */
  method Publicize(orders: seq<Order>) returns (u: Unwrapped<Order>)
    modifies set o | o in orders
    ensures u == Unwrap(orders)
    ensures forall o :: o in orders ==> o.Doc() == old(o.Doc()).(comments := None)
  {
    for i := 0 to |orders|
      invariant forall o :: o in orders[..i] ==> o.Doc() == old(o.Doc()).(comments := None)
      invariant forall o :: o in orders && o !in orders[..i] ==> o.Doc() == old(o.Doc())
    {
      orders[i].comments := None;
    }
    assert orders[..|orders|] == orders;
    u := Unwrap(orders);
  }

  /** `list`, as written: it publicizes `new Array(orders)`, a one-element
      array whose element is the result list, so nothing is redacted and
      the list itself is returned. */
  method List(found: seq<Order>, limit: Option<int>, skip: Option<int>) returns (page: Page, body: seq<Order>)
    ensures page == Paging(limit, skip)
    ensures body == found
  {
    page := Paging(limit, skip);
    var wrapped := [found];
    var u := Unwrap(wrapped);
    body := u.item;
  }
}
