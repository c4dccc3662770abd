/**
 The cart view model of the CartContainer component, as values: the raw cart the
 commerce backend supplies, the normalized state the component keeps, the transitions
 that its handlers apply to that state, and the payload it hands to saveNewCart.
 The class in module CartContainer performs these transitions in place.
 */
module CartView {

  type LineId = string
  type VariantId = string

  /** The variant a raw line item refers to. Prices are whole numbers. */
  datatype Variant = Variant(id: VariantId, price: int, image: string)

  /** A line item as the commerce backend supplies it. */
  datatype RawLineItem = RawLineItem(id: LineId, quantity: int, title: string, variant: Variant)

  /** A cart as the commerce backend supplies it. */
  datatype RawCart = RawCart(lineItems: seq<RawLineItem>, totalPrice: int)

  /** One entry of the component's `cartData` object. */
  datatype Line = Line(
    lineItemId: LineId,
    variantId: VariantId,
    quantity: int,
    productPrice: int,
    productImage: string,
    productTitle: string,
    productTotalPrice: int)

  /**
   The component's state. `items` is `cartData`; `order` lists its keys in the order
   the object enumerates them, which is the order they were first inserted.
   */
  datatype CartState = CartState(
    items: map<LineId, Line>,
    order: seq<LineId>,
    totalPrice: int,
    totalQuantity: int,
    cartUpdated: bool)

  /** One entry of the payload handed to saveNewCart. */
  datatype LineUpdate = LineUpdate(id: LineId, quantity: int)

  /** The two per-line figures that the component keeps running totals of. */
  datatype Field = Quantity | Amount

  function Value(l: Line, f: Field): int
  {
    match f
    case Quantity => l.quantity
    case Amount => l.productTotalPrice
  }

  /** A line whose total is its quantity times its unit price. */
  predicate Consistent(l: Line)
  {
    l.productTotalPrice == l.quantity * l.productPrice
  }

  predicate Distinct(ids: seq<LineId>)
  {
    forall i, j :: 0 <= i < j < |ids| ==> ids[i] != ids[j]
  }

  predicate DistinctIds(xs: seq<RawLineItem>)
  {
    forall i, j :: 0 <= i < j < |xs| ==> xs[i].id != xs[j].id
  }

  predicate Mentions(xs: seq<RawLineItem>, k: LineId)
  {
    exists i :: 0 <= i < |xs| && xs[i].id == k
  }

  /**
   The shape every reachable state has: `order` enumerates the keys of `items` once each,
   and every line is stored under its own id.
   */
  ghost predicate WellFormed(s: CartState)
  {
    && Distinct(s.order)
    && (forall k :: k in s.items <==> k in s.order)
    && (forall k :: k in s.items ==> s.items[k].lineItemId == k)
  }

  /** The sum of one figure over the lines named by `ids`. */
  function Sum(ids: seq<LineId>, items: map<LineId, Line>, f: Field): int
  {
    if ids == [] then 0
    else
      var k := ids[|ids| - 1];
      Sum(ids[..|ids| - 1], items, f) + (if k in items then Value(items[k], f) else 0)
  }

  /** A well-formed state in which every line total is its quantity times its price. */
  ghost predicate Priced(s: CartState)
  {
    && WellFormed(s)
    && (forall k :: k in s.items ==> Consistent(s.items[k]))
  }

  /** How far the running quantity is from the sum of the line quantities. */
  function QuantityDrift(s: CartState): int
  {
    s.totalQuantity - Sum(s.order, s.items, Quantity)
  }

  /**
   The bookkeeping invariant: every line total is its quantity times its price and the
   running quantity is the sum of the line quantities.
   */
  ghost predicate Balanced(s: CartState)
  {
    Priced(s) && QuantityDrift(s) == 0
  }

  /**
   How far the running price is from the sum of the line totals. The backend's cart total
   need not be that sum, and the handlers only ever adjust it by deltas.
   */
  function PriceGap(s: CartState): int
  {
    s.totalPrice - Sum(s.order, s.items, Amount)
  }

  // ---------------------------------------------------------------------------
  // Normalization (computeAndUpdateState)
  // ---------------------------------------------------------------------------

  /** The entry stored for one raw line item. */
  function ToLine(x: RawLineItem): Line
  {
    Line(x.id, x.variant.id, x.quantity, x.variant.price, x.variant.image, x.title,
         x.quantity * x.variant.price)
  }

  /** The quantity accumulated over the raw line items, duplicates included. */
  function QuantitySum(xs: seq<RawLineItem>): int
  {
    if xs == [] then 0 else QuantitySum(xs[..|xs| - 1]) + xs[|xs| - 1].quantity
  }

  /** The map the line items build; a later item with the same id overwrites the earlier one. */
  function LineMap(xs: seq<RawLineItem>): map<LineId, Line>
  {
    if xs == [] then map[]
    else LineMap(xs[..|xs| - 1])[xs[|xs| - 1].id := ToLine(xs[|xs| - 1])]
  }

  /** The ids of the line items in the order of their first occurrence. */
  function FirstOccurrence(xs: seq<RawLineItem>): seq<LineId>
  {
    if xs == [] then []
    else
      var ids := FirstOccurrence(xs[..|xs| - 1]);
      if xs[|xs| - 1].id in ids then ids else ids + [xs[|xs| - 1].id]
  }

  /** The state a raw cart normalizes to: fresh lines, fresh totals, clean. */
  function Normalized(cart: RawCart): (r: CartState)
    ensures Distinct(r.order) && (forall k :: k in r.items <==> k in r.order)
    ensures r.totalPrice == cart.totalPrice && !r.cartUpdated
  {
    FirstOccurrenceKeys(cart.lineItems);
    CartState(LineMap(cart.lineItems), FirstOccurrence(cart.lineItems),
              cart.totalPrice, QuantitySum(cart.lineItems), false)
  }

  // ---------------------------------------------------------------------------
  // Edits (handleQuantitChange, handleDeleteItem) and commit (handleUpdateCart)
  // ---------------------------------------------------------------------------

  /** One click on the + (increment) or - button of line `id`. */
  function QuantityChanged(s: CartState, id: LineId, increment: bool): (r: CartState)
    requires id in s.items
    ensures r.items.Keys == s.items.Keys && r.order == s.order && r.cartUpdated
    ensures r.items[id].quantity == s.items[id].quantity + (if increment then 1 else -1)
    ensures Consistent(r.items[id])
    ensures forall k :: k in s.items && k != id ==> r.items[k] == s.items[k]
  {
    var line := s.items[id];
    var q := if increment then line.quantity + 1 else line.quantity - 1;
    s.(cartUpdated := true,
       totalPrice := if increment then s.totalPrice + line.productPrice
                     else s.totalPrice - line.productPrice,
       totalQuantity := if increment then s.totalQuantity + 1 else s.totalQuantity - 1,
       items := s.items[id := line.(quantity := q, productTotalPrice := q * line.productPrice)])
  }

  /** A click on the delete button of line `id`: the line is zeroed, not removed. */
  function LineDeleted(s: CartState, id: LineId): (r: CartState)
    requires id in s.items
    ensures r.items.Keys == s.items.Keys && r.order == s.order && r.cartUpdated
    ensures r.items[id].quantity == 0 && Consistent(r.items[id])
    ensures forall k :: k in s.items && k != id ==> r.items[k] == s.items[k]
  {
    var line := s.items[id];
    s.(totalPrice := s.totalPrice - line.productPrice * line.quantity,
       totalQuantity := s.totalQuantity - line.quantity,
       cartUpdated := true,
       items := s.items[id := line.(quantity := 0, productTotalPrice := 0)])
  }

  /** The projection of the lines named by `ids` to `{id, quantity}` entries. */
  function Project(ids: seq<LineId>, items: map<LineId, Line>): seq<LineUpdate>
    requires forall i :: 0 <= i < |ids| ==> ids[i] in items
  {
    if ids == [] then []
    else
      var l := items[ids[|ids| - 1]];
      Project(ids[..|ids| - 1], items) + [LineUpdate(l.lineItemId, l.quantity)]
  }

  /** The payload committed for a state: every tracked line, zeroed ones included. */
  function Commit(s: CartState): (r: seq<LineUpdate>)
    requires WellFormed(s)
    ensures |r| == |s.order|
    ensures forall i :: 0 <= i < |s.order| ==> r[i] == LineUpdate(s.order[i], s.items[s.order[i]].quantity)
  {
    ProjectAt(s.order, s.items);
    Project(s.order, s.items)
  }

  /** The quantity a payload asks for in all. */
  function PayloadQuantity(p: seq<LineUpdate>): int
  {
    if p == [] then 0 else PayloadQuantity(p[..|p| - 1]) + p[|p| - 1].quantity
  }

  // ---------------------------------------------------------------------------
  // Sums over updated maps
  // ---------------------------------------------------------------------------

  /** Changing a line that `ids` does not name leaves the sum alone. */
  lemma {:induction false} SumFrame(ids: seq<LineId>, items: map<LineId, Line>, k: LineId, l: Line, f: Field)
    requires k !in ids
    ensures Sum(ids, items[k := l], f) == Sum(ids, items, f)
  {
    if ids != [] {
      SumFrame(ids[..|ids| - 1], items, k, l, f);
    }
  }

  /** Replacing a line that `ids` names once changes the sum by the difference of the two. */
  lemma {:induction false} SumUpdate(ids: seq<LineId>, items: map<LineId, Line>, k: LineId, l: Line, f: Field)
    requires Distinct(ids) && k in ids && k in items
    ensures Sum(ids, items[k := l], f) == Sum(ids, items, f) - Value(items[k], f) + Value(l, f)
  {
    var n := |ids| - 1;
    var prefix := ids[..n];
    if ids[n] == k {
      assert k !in prefix;
      SumFrame(prefix, items, k, l, f);
    } else {
      assert k in prefix by {
        var i :| 0 <= i < |ids| && ids[i] == k;
        assert i < n;
        assert prefix[i] == k;
      }
      SumUpdate(prefix, items, k, l, f);
    }
  }

  // ---------------------------------------------------------------------------
  // Properties of normalization
  // ---------------------------------------------------------------------------

  /** The map has a key for exactly the ids the raw line items mention. */
  lemma {:induction false} LineMapKeys(xs: seq<RawLineItem>)
    ensures forall k :: k in LineMap(xs) <==> Mentions(xs, k)
  {
    if xs != [] {
      var n := |xs| - 1;
      LineMapKeys(xs[..n]);
      forall k
        ensures k in LineMap(xs) <==> Mentions(xs, k)
      {
        if Mentions(xs[..n], k) {
          var i :| 0 <= i < n && xs[..n][i].id == k;
          assert xs[i].id == k;
        }
        if Mentions(xs, k) && k != xs[n].id {
          var i :| 0 <= i < |xs| && xs[i].id == k;
          assert xs[..n][i].id == k;
        }
      }
    }
  }

  /** Every stored line carries its own id and a total equal to quantity times price. */
  lemma {:induction false} LineMapLines(xs: seq<RawLineItem>)
    ensures forall k :: k in LineMap(xs) ==> LineMap(xs)[k].lineItemId == k && Consistent(LineMap(xs)[k])
  {
    if xs != [] {
      LineMapLines(xs[..|xs| - 1]);
    }
  }

  /** The line stored under an id is built from the last raw item with that id. */
  lemma {:induction false} LineMapLast(xs: seq<RawLineItem>, i: nat)
    requires i < |xs|
    requires forall j :: i < j < |xs| ==> xs[j].id != xs[i].id
    ensures xs[i].id in LineMap(xs) && LineMap(xs)[xs[i].id] == ToLine(xs[i])
  {
    var n := |xs| - 1;
    if i < n {
      forall j | i < j < n
        ensures xs[..n][j].id != xs[..n][i].id
      {
        assert xs[..n][j] == xs[j];
      }
      LineMapLast(xs[..n], i);
      assert xs[..n][i] == xs[i];
    }
  }

  /** The recorded order names every key of the map exactly once. */
  lemma {:induction false} FirstOccurrenceKeys(xs: seq<RawLineItem>)
    ensures Distinct(FirstOccurrence(xs))
    ensures forall k :: k in FirstOccurrence(xs) <==> k in LineMap(xs)
  {
    if xs != [] {
      FirstOccurrenceKeys(xs[..|xs| - 1]);
    }
  }

  /**
   A normalized cart, repeated ids or not, is well formed, has consistent line totals, and has
   a line for every raw line item id.
   */
  lemma NormalizedWellFormed(cart: RawCart)
    ensures WellFormed(Normalized(cart)) && Priced(Normalized(cart))
    ensures forall k :: k in Normalized(cart).items <==> Mentions(cart.lineItems, k)
  {
    FirstOccurrenceKeys(cart.lineItems);
    LineMapKeys(cart.lineItems);
    LineMapLines(cart.lineItems);
  }

  /** With distinct ids the recorded order is the ids of the line items in input order. */
  lemma {:induction false} FirstOccurrenceDistinct(xs: seq<RawLineItem>)
    requires DistinctIds(xs)
    ensures FirstOccurrence(xs) == seq(|xs|, i requires 0 <= i < |xs| => xs[i].id)
  {
    if xs != [] {
      var n := |xs| - 1;
      var prefix := xs[..n];
      assert DistinctIds(prefix);
      FirstOccurrenceDistinct(prefix);
      LastIdFresh(xs);
    }
  }

  /** With distinct ids, the last item's id is not among the ids recorded before it. */
  lemma LastIdFresh(xs: seq<RawLineItem>)
    requires xs != [] && DistinctIds(xs)
    ensures xs[|xs| - 1].id !in FirstOccurrence(xs[..|xs| - 1])
    ensures xs[|xs| - 1].id !in LineMap(xs[..|xs| - 1])
  {
    var n := |xs| - 1;
    FirstOccurrenceKeys(xs[..n]);
    LineMapKeys(xs[..n]);
    assert !Mentions(xs[..n], xs[n].id);
  }

  /** With distinct ids the running quantity is the sum of the stored line quantities. */
  lemma {:induction false} NormalizedQuantity(xs: seq<RawLineItem>)
    requires DistinctIds(xs)
    ensures Sum(FirstOccurrence(xs), LineMap(xs), Quantity) == QuantitySum(xs)
  {
    if xs != [] {
      var n := |xs| - 1;
      var prefix := xs[..n];
      var x := xs[n];
      var ids, m := FirstOccurrence(prefix), LineMap(prefix);
      assert DistinctIds(prefix);
      NormalizedQuantity(prefix);
      LastIdFresh(xs);
      assert FirstOccurrence(xs) == ids + [x.id];
      assert LineMap(xs) == m[x.id := ToLine(x)];
      SumAppend(ids, x.id, m[x.id := ToLine(x)], Quantity);
      SumFrame(ids, m, x.id, ToLine(x), Quantity);
    }
  }

  /** Appending an id adds that line's figure to the sum. */
  lemma SumAppend(ids: seq<LineId>, k: LineId, items: map<LineId, Line>, f: Field)
    ensures Sum(ids + [k], items, f) == Sum(ids, items, f) + (if k in items then Value(items[k], f) else 0)
  {
  }

  /**
   A normalized cart whose line items have distinct ids keeps the bookkeeping invariant;
   its price is the cart's own total and it is clean.
   */
  lemma NormalizedBalanced(cart: RawCart)
    requires DistinctIds(cart.lineItems)
    ensures Balanced(Normalized(cart))
    ensures Normalized(cart).totalPrice == cart.totalPrice && !Normalized(cart).cartUpdated
    ensures forall i :: 0 <= i < |cart.lineItems| ==>
      && cart.lineItems[i].id in Normalized(cart).items
      && Normalized(cart).items[cart.lineItems[i].id] == ToLine(cart.lineItems[i])
  {
    NormalizedWellFormed(cart);
    NormalizedQuantity(cart.lineItems);
    LineMapLines(cart.lineItems);
    var xs := cart.lineItems;
    forall i | 0 <= i < |xs|
      ensures xs[i].id in LineMap(xs) && LineMap(xs)[xs[i].id] == ToLine(xs[i])
    {
      LineMapLast(xs, i);
    }
  }

  /**
   Two raw line items with one id: the map keeps only the later one, yet the running
   quantity counts both, so the invariant fails.
   */
  lemma RepeatedIdUnbalances()
    ensures var v := Variant("v", 10, "");
            var cart := RawCart([RawLineItem("A", 1, "t", v), RawLineItem("A", 2, "t", v)], 30);
            Normalized(cart).totalQuantity == 3 &&
            Sum(Normalized(cart).order, Normalized(cart).items, Quantity) == 2 &&
            !Balanced(Normalized(cart))
  {
    var v := Variant("v", 10, "");
    var x0, x1 := RawLineItem("A", 1, "t", v), RawLineItem("A", 2, "t", v);
    var xs := [x0, x1];
    assert xs[..1] == [x0];
    assert [x0][..0] == [];
    assert FirstOccurrence([x0]) == ["A"];
    assert FirstOccurrence(xs) == ["A"];
    assert QuantitySum([x0]) == 1;
    assert LineMap([x0]) == map[][x0.id := ToLine(x0)];
    assert LineMap(xs) == LineMap([x0])["A" := ToLine(x1)];
    assert LineMap(xs)["A"].quantity == 2;
    assert ["A"][..0] == [];
    assert Sum(["A"], LineMap(xs), Quantity) == 2;
  }

  // ---------------------------------------------------------------------------
  // Properties of the edits
  // ---------------------------------------------------------------------------

  /**
   A quantity change moves the line's quantity by one, recomputes its total from the stored
   price, moves the running totals by one unit and its price, marks the cart updated, and
   touches nothing else.
   */
  lemma QuantityChangedEffect(s: CartState, id: LineId, increment: bool)
    requires id in s.items
    ensures var r := QuantityChanged(s, id, increment);
            var d := if increment then 1 else -1;
            && r.items.Keys == s.items.Keys && r.order == s.order && r.cartUpdated
            && r.items[id].quantity == s.items[id].quantity + d
            && Consistent(r.items[id])
            && r.items[id].(quantity := s.items[id].quantity,
                            productTotalPrice := s.items[id].productTotalPrice) == s.items[id]
            && r.totalQuantity == s.totalQuantity + d
            && r.totalPrice == s.totalPrice + d * s.items[id].productPrice
            && (forall k :: k in s.items && k != id ==> r.items[k] == s.items[k])
  {
  }

  /**
   Replacing a tracked line by a consistent line with the same id, with the running totals
   moved by the differences and the cart marked updated, keeps the line totals consistent and
   leaves both the price gap and the quantity drift as they were.
   */
  lemma ReplaceLineBalanced(s: CartState, id: LineId, l: Line, r: CartState)
    requires Priced(s) && id in s.items
    requires l.lineItemId == id && Consistent(l)
    requires r == s.(items := s.items[id := l],
                     totalQuantity := s.totalQuantity - s.items[id].quantity + l.quantity,
                     totalPrice := s.totalPrice - s.items[id].productTotalPrice + l.productTotalPrice,
                     cartUpdated := true)
    ensures Priced(r) && PriceGap(r) == PriceGap(s) && QuantityDrift(r) == QuantityDrift(s)
  {
    SumUpdate(s.order, s.items, id, l, Quantity);
    SumUpdate(s.order, s.items, id, l, Amount);
  }

  /**
   A quantity change keeps the line totals consistent and leaves the price gap and the quantity
   drift as they were, so it keeps the bookkeeping invariant.
   */
  lemma QuantityChangedBalanced(s: CartState, id: LineId, increment: bool)
    requires Priced(s) && id in s.items
    ensures Priced(QuantityChanged(s, id, increment))
    ensures PriceGap(QuantityChanged(s, id, increment)) == PriceGap(s)
    ensures QuantityDrift(QuantityChanged(s, id, increment)) == QuantityDrift(s)
    ensures Balanced(s) ==> Balanced(QuantityChanged(s, id, increment))
  {
    var line := s.items[id];
    var p, q := line.productPrice, line.quantity;
    var d := if increment then 1 else -1;
    assert line.productTotalPrice == q * p;
    var l := line.(quantity := q + d, productTotalPrice := (q + d) * p);
    assert (q + d) * p == q * p + d * p;
    assert d * p == if increment then p else -p;
    assert QuantityChanged(s, id, increment).items == s.items[id := l];
    ReplaceLineBalanced(s, id, l, QuantityChanged(s, id, increment));
  }

  /** An increment followed by a decrement of the same line restores the state, now marked updated. */
  lemma IncrementDecrement(s: CartState, id: LineId)
    requires id in s.items && Consistent(s.items[id])
    ensures QuantityChanged(QuantityChanged(s, id, true), id, false) == s.(cartUpdated := true)
    ensures QuantityChanged(QuantityChanged(s, id, false), id, true) == s.(cartUpdated := true)
  {
  }

  /**
   A delete zeroes the line but keeps it, takes its previous quantity and amount off the
   running totals, marks the cart updated, and touches nothing else.
   */
  lemma LineDeletedEffect(s: CartState, id: LineId)
    requires id in s.items
    ensures var r := LineDeleted(s, id);
            && r.items.Keys == s.items.Keys && r.order == s.order && r.cartUpdated
            && r.items[id] == s.items[id].(quantity := 0, productTotalPrice := 0)
            && r.totalQuantity == s.totalQuantity - s.items[id].quantity
            && r.totalPrice == s.totalPrice - s.items[id].quantity * s.items[id].productPrice
            && (forall k :: k in s.items && k != id ==> r.items[k] == s.items[k])
  {
  }

  /**
   A delete keeps the line totals consistent and leaves the price gap and the quantity drift as
   they were, so it keeps the bookkeeping invariant.
   */
  lemma LineDeletedBalanced(s: CartState, id: LineId)
    requires Priced(s) && id in s.items
    ensures Priced(LineDeleted(s, id))
    ensures PriceGap(LineDeleted(s, id)) == PriceGap(s)
    ensures QuantityDrift(LineDeleted(s, id)) == QuantityDrift(s)
    ensures Balanced(s) ==> Balanced(LineDeleted(s, id))
  {
    var line := s.items[id];
    assert line.productTotalPrice == line.quantity * line.productPrice;
    assert line.quantity * line.productPrice == line.productPrice * line.quantity;
    ReplaceLineBalanced(s, id, line.(quantity := 0, productTotalPrice := 0), LineDeleted(s, id));
  }

  /** Deleting a line twice is the same as deleting it once. */
  lemma LineDeletedIdempotent(s: CartState, id: LineId)
    requires id in s.items
    ensures LineDeleted(LineDeleted(s, id), id) == LineDeleted(s, id)
  {
  }

  /** A delete after a quantity change of the same line gives the state the delete alone gives. */
  lemma LineDeletedAbsorbsChange(s: CartState, id: LineId, increment: bool)
    requires id in s.items
    ensures LineDeleted(QuantityChanged(s, id, increment), id) == LineDeleted(s, id)
  {
  }

  // ---------------------------------------------------------------------------
  // Sequences of edits
  // ---------------------------------------------------------------------------

  /** A user intent forwarded by the rendered cart: a + or - click, or a delete click. */
  datatype Edit = Change(id: LineId, increment: bool) | Delete(id: LineId)

  /** One edit; an edit of an untracked line stops before it changes anything. */
  function Apply(s: CartState, e: Edit): CartState
  {
    if e.id !in s.items then s
    else match e
      case Change(id, increment) => QuantityChanged(s, id, increment)
      case Delete(id) => LineDeleted(s, id)
  }

  /** The edits applied one after another. */
  function ApplyAll(s: CartState, es: seq<Edit>): CartState
    decreases |es|
  {
    if es == [] then s else ApplyAll(Apply(s, es[0]), es[1..])
  }

  /** One edit keeps the line totals consistent and leaves the price gap and the quantity drift alone. */
  lemma ApplyBalanced(s: CartState, e: Edit)
    requires Priced(s)
    ensures Priced(Apply(s, e))
    ensures PriceGap(Apply(s, e)) == PriceGap(s) && QuantityDrift(Apply(s, e)) == QuantityDrift(s)
  {
    if e.id in s.items {
      match e
      case Change(id, increment) => QuantityChangedBalanced(s, id, increment);
      case Delete(id) => LineDeletedBalanced(s, id);
    }
  }

  /**
   After any sequence of edits the line totals are still consistent, the price gap and the
   quantity drift are what they were, and so a balanced state stays balanced.
   */
  lemma {:induction false} EditsKeepBalance(s: CartState, es: seq<Edit>)
    requires Priced(s)
    ensures Priced(ApplyAll(s, es))
    ensures PriceGap(ApplyAll(s, es)) == PriceGap(s)
    ensures QuantityDrift(ApplyAll(s, es)) == QuantityDrift(s)
    ensures Balanced(s) ==> Balanced(ApplyAll(s, es))
    decreases |es|
  {
    if es != [] {
      ApplyBalanced(s, es[0]);
      EditsKeepBalance(Apply(s, es[0]), es[1..]);
    }
  }

  /**
   After any sequence of edits the tracked ids are the same, and the cart is marked updated
   exactly when it already was or some edit named a tracked line.
   */
  lemma {:induction false} EditsMarkUpdated(s: CartState, es: seq<Edit>)
    ensures ApplyAll(s, es).items.Keys == s.items.Keys
    ensures ApplyAll(s, es).cartUpdated <==>
      s.cartUpdated || exists i :: 0 <= i < |es| && es[i].id in s.items
    decreases |es|
  {
    if es != [] {
      var e := es[0];
      var t := Apply(s, e);
      var rest := es[1..];
      assert t.items.Keys == s.items.Keys;
      assert t.cartUpdated == (s.cartUpdated || e.id in s.items);
      EditsMarkUpdated(t, rest);
      if exists i :: 0 <= i < |rest| && rest[i].id in t.items {
        var i :| 0 <= i < |rest| && rest[i].id in t.items;
        assert es[i + 1].id in s.items;
      }
      if exists i :: 0 <= i < |es| && es[i].id in s.items {
        var i :| 0 <= i < |es| && es[i].id in s.items;
        if i > 0 {
          assert rest[i - 1].id in t.items;
        }
      }
    }
  }

  // ---------------------------------------------------------------------------
  // Properties of the commit payload
  // ---------------------------------------------------------------------------

  /** The projection has one entry per id, in order, carrying that line's id and quantity. */
  lemma {:induction false} ProjectAt(ids: seq<LineId>, items: map<LineId, Line>)
    requires forall i :: 0 <= i < |ids| ==> ids[i] in items
    ensures |Project(ids, items)| == |ids|
    ensures forall i :: 0 <= i < |ids| ==>
      Project(ids, items)[i] == LineUpdate(items[ids[i]].lineItemId, items[ids[i]].quantity)
  {
    if ids != [] {
      ProjectAt(ids[..|ids| - 1], items);
    }
  }

  /** The projection asks, in all, for the sum of the line quantities. */
  lemma {:induction false} ProjectQuantity(ids: seq<LineId>, items: map<LineId, Line>)
    requires forall i :: 0 <= i < |ids| ==> ids[i] in items
    ensures PayloadQuantity(Project(ids, items)) == Sum(ids, items, Quantity)
  {
    if ids != [] {
      var n := |ids| - 1;
      ProjectQuantity(ids[..n], items);
      var p := Project(ids, items);
      assert p[..|p| - 1] == Project(ids[..n], items);
    }
  }

  /**
   The payload has exactly one `{id, quantity}` entry per tracked line, zeroed lines
   included, in the recorded order.
   */
  lemma CommitComplete(s: CartState)
    requires WellFormed(s)
    ensures |Commit(s)| == |s.order|
    ensures forall i :: 0 <= i < |s.order| ==>
      Commit(s)[i] == LineUpdate(s.order[i], s.items[s.order[i]].quantity)
    ensures forall k :: k in s.items <==> exists i :: 0 <= i < |Commit(s)| && Commit(s)[i].id == k
    ensures forall i, j :: 0 <= i < j < |Commit(s)| ==> Commit(s)[i].id != Commit(s)[j].id
  {
    ProjectAt(s.order, s.items);
    forall k | k in s.items
      ensures exists i :: 0 <= i < |Commit(s)| && Commit(s)[i].id == k
    {
      var i :| 0 <= i < |s.order| && s.order[i] == k;
      assert Commit(s)[i].id == k;
    }
  }

  /** When the bookkeeping invariant holds, the payload asks for the running quantity. */
  lemma CommitQuantity(s: CartState)
    requires Balanced(s)
    ensures PayloadQuantity(Commit(s)) == s.totalQuantity
  {
    ProjectQuantity(s.order, s.items);
  }

  /** Committing a freshly normalized cart with distinct ids echoes the raw ids and quantities. */
  lemma CommitNormalized(cart: RawCart)
    requires DistinctIds(cart.lineItems)
    ensures WellFormed(Normalized(cart))
    ensures Commit(Normalized(cart)) ==
      seq(|cart.lineItems|, i requires 0 <= i < |cart.lineItems| =>
        LineUpdate(cart.lineItems[i].id, cart.lineItems[i].quantity))
  {
    var xs := cart.lineItems;
    NormalizedBalanced(cart);
    FirstOccurrenceDistinct(xs);
    CommitComplete(Normalized(cart));
  }

  /** The two-line example cart: A is 2 at 10, B is 1 at 5, total 25. */
  function ExampleCart(): RawCart
  {
    RawCart([RawLineItem("A", 2, "", Variant("vA", 10, "")),
             RawLineItem("B", 1, "", Variant("vB", 5, ""))], 25)
  }

  /** Normalizing the example cart: quantity 3, price 25, line totals 20 and 5, clean. */
  lemma ExampleNormalized()
    ensures Normalized(ExampleCart()) ==
      CartState(map["A" := Line("A", "vA", 2, 10, "", "", 20),
                    "B" := Line("B", "vB", 1, 5, "", "", 5)],
                ["A", "B"], 25, 3, false)
  {
    var xs := ExampleCart().lineItems;
    assert xs[..1] == [xs[0]];
    assert [xs[0]][..0] == [];
    assert QuantitySum(xs) == 3;
    assert FirstOccurrence(xs) == ["A", "B"];
    assert LineMap(xs) == map[][xs[0].id := ToLine(xs[0])][xs[1].id := ToLine(xs[1])];
  }

  /** Then a + click on A: A becomes 3 with total 30, price 35, quantity 4, updated. */
  lemma ExampleIncrement()
    ensures "A" in Normalized(ExampleCart()).items
    ensures QuantityChanged(Normalized(ExampleCart()), "A", true) ==
      CartState(map["A" := Line("A", "vA", 3, 10, "", "", 30),
                    "B" := Line("B", "vB", 1, 5, "", "", 5)],
                ["A", "B"], 35, 4, true)
  {
    ExampleNormalized();
  }

  /** Then a delete of B: B is zeroed, price 30, quantity 3. */
  lemma ExampleDelete()
    ensures var s1 := CartState(map["A" := Line("A", "vA", 3, 10, "", "", 30),
                                    "B" := Line("B", "vB", 1, 5, "", "", 5)],
                                ["A", "B"], 35, 4, true);
            LineDeleted(s1, "B") ==
              CartState(map["A" := Line("A", "vA", 3, 10, "", "", 30),
                            "B" := Line("B", "vB", 0, 5, "", "", 0)],
                        ["A", "B"], 30, 3, true)
  {
  }

  /** Then the commit: A with 3 and B with 0, in that order. */
  lemma ExampleCommit()
    ensures var s2 := CartState(map["A" := Line("A", "vA", 3, 10, "", "", 30),
                                    "B" := Line("B", "vB", 0, 5, "", "", 0)],
                                ["A", "B"], 30, 3, true);
            WellFormed(s2) && Commit(s2) == [LineUpdate("A", 3), LineUpdate("B", 0)]
  {
    assert ["A", "B"][..1] == ["A"];
    assert ["A"][..0] == [];
  }
}
