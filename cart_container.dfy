/**
 The CartContainer component's state and handlers, performed in place on a `CartModel`
 object. Each handler is one atomic transition, specified by the matching function of
 module CartView.
 */
module CartContainer {
  import opened CartView

  /** How an edit handler ended: applied, or stopped because the line id is not tracked. */
  datatype Outcome = Applied | UnknownLine

  /**
   The loop of computeAndUpdateState: fills the id-keyed map, records the order in which
   keys are first inserted, and accumulates the quantity of every raw line item.
   */
  method BuildLines(xs: seq<RawLineItem>) returns (lines: map<LineId, Line>, order: seq<LineId>, totalQuantity: int)
    ensures lines == LineMap(xs)
    ensures order == FirstOccurrence(xs)
    ensures totalQuantity == QuantitySum(xs)
  {
    lines, order, totalQuantity := map[], [], 0;
    var i := 0;
    while i < |xs|
      invariant 0 <= i <= |xs|
      invariant lines == LineMap(xs[..i])
      invariant order == FirstOccurrence(xs[..i])
      invariant totalQuantity == QuantitySum(xs[..i])
      invariant forall k :: k in lines <==> k in order
    {
      var item := xs[i];
      assert xs[..i + 1][..i] == xs[..i];
      totalQuantity := totalQuantity + item.quantity;
      if item.id !in lines {
        order := order + [item.id];
      }
      lines := lines[item.id := ToLine(item)];
      i := i + 1;
    }
    assert xs[..i] == xs;
  }

  class CartModel {
    var items: map<LineId, Line>
    var order: seq<LineId>
    var totalPrice: int
    var totalQuantity: int
    var cartUpdated: bool

    /** The object's fields as a value. */
    function State(): CartState
      reads this
    {
      CartState(items, order, totalPrice, totalQuantity, cartUpdated)
    }

    ghost predicate Valid()
      reads this
    {
      WellFormed(State())
    }

    /** The component before its first normalization: no lines, not updated. */
    constructor ()
      ensures Valid()
      ensures items == map[] && order == [] && !cartUpdated
      ensures totalPrice == 0 && totalQuantity == 0
    {
      items, order := map[], [];
      totalPrice, totalQuantity := 0, 0;
      cartUpdated := false;
    }

    /** computeAndUpdateState: the whole state is rebuilt from the cart, whatever it was. */
    method Normalize(cart: RawCart)
      modifies this
      ensures Valid()
      ensures State() == Normalized(cart)
    {
      var lines, ids, quantity := BuildLines(cart.lineItems);
      NormalizedWellFormed(cart);
      items, order := lines, ids;
      totalPrice, totalQuantity := cart.totalPrice, quantity;
      cartUpdated := false;
    }

    /** componentWillReceiveProps: a new cart from outside replaces all local edits. */
    method ReceiveCart(cart: RawCart)
      modifies this
      ensures Valid()
      ensures State() == Normalized(cart)
    {
      Normalize(cart);
    }

    /** handleQuantitChange: one click on + or - for line `lineItemId`. */
    method ChangeQuantity(lineItemId: LineId, increment: bool) returns (outcome: Outcome)
      requires Valid()
      modifies this
      ensures Valid()
      ensures outcome == (if lineItemId in old(items) then Applied else UnknownLine)
      ensures outcome == Applied ==> State() == QuantityChanged(old(State()), lineItemId, increment)
      ensures outcome == UnknownLine ==> State() == old(State())
    {
      if lineItemId !in items {
        return UnknownLine;
      }
      var current := items[lineItemId];
      var newQuantity := if increment then current.quantity + 1 else current.quantity - 1;
      var productPrice := current.productPrice;
      cartUpdated := true;
      totalPrice := if increment then totalPrice + productPrice else totalPrice - productPrice;
      totalQuantity := if increment then totalQuantity + 1 else totalQuantity - 1;
      items := items[lineItemId := current.(quantity := newQuantity,
                                            productTotalPrice := newQuantity * current.productPrice)];
      outcome := Applied;
    }

    /** handleDeleteItem: line `lineItemId` is zeroed and its contribution taken off the totals. */
    method DeleteLine(lineItemId: LineId) returns (outcome: Outcome)
      requires Valid()
      modifies this
      ensures Valid()
      ensures outcome == (if lineItemId in old(items) then Applied else UnknownLine)
      ensures outcome == Applied ==> State() == LineDeleted(old(State()), lineItemId)
      ensures outcome == UnknownLine ==> State() == old(State())
    {
      if lineItemId !in items {
        return UnknownLine;
      }
      var current := items[lineItemId];
      totalPrice := totalPrice - current.productPrice * current.quantity;
      totalQuantity := totalQuantity - current.quantity;
      cartUpdated := true;
      items := items[lineItemId := current.(quantity := 0, productTotalPrice := 0)];
      outcome := Applied;
    }

    /** handleUpdateCart: the payload handed to saveNewCart; the state is left as it is. */
    method UpdateCart() returns (payload: seq<LineUpdate>)
      requires Valid()
      ensures payload == Commit(State())
      ensures |payload| == |order|
      ensures forall i :: 0 <= i < |order| ==> payload[i] == LineUpdate(order[i], items[order[i]].quantity)
    {
      payload := Commit(State());
      CommitComplete(State());
    }
  }
}
