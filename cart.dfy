/** Cart reconciliation on the restaurant details page
    (src/user/pages/pasindu/restaurent/RestaurentDetails.js): validating an
    add, deriving the line price, merging into or appending to the persisted
    cart, and the switch-restaurant confirmation. */
module Cart {
  import opened Js
  import opened Menu

  /** One cart entry: the food snapshot spread into the entry, with its price
      replaced by the derived one and the add-time choices attached. */
  datatype Line = Line(
    item: Food,
    quantity: int,
    portionSize: string,
    price: real,
    restaurantId: string,
    orderType: string)

  // ---------------------------------------------------------------------
  // Line derivation

  /** `parseFloat(food.price) || 0`. */
  function BasePrice(f: Food): real
  {
    if f.price.Some? then f.price.value else 0.0
  }

  /** The stored line price: a "Large" portion costs half as much again as the base. */
  function EffectivePrice(f: Food, portion: string): (price: real)
    ensures portion == "Large" ==> price * 2.0 == BasePrice(f) * 3.0
    ensures portion != "Large" ==> price == BasePrice(f)
  {
    if portion == "Large" then BasePrice(f) * 1.5 else BasePrice(f)
  }

  /** Large is exactly 3/2 of Medium; any other portion name is charged the base price. */
  lemma PriceByPortion(f: Food, portion: string)
    ensures EffectivePrice(f, "Large") * 2.0 == EffectivePrice(f, "Medium") * 3.0
    ensures portion != "Large" ==> EffectivePrice(f, portion) == BasePrice(f)
    ensures f.price.None? ==> EffectivePrice(f, portion) == 0.0
  {
  }

  /** `quantities[id] || 1`: an unset (or zero) quantity counts as one. */
  function QuantityFor(quantities: map<string, int>, id: string): (n: int)
    ensures n != 0
    ensures id in quantities && quantities[id] != 0 ==> n == quantities[id]
    ensures !(id in quantities && quantities[id] != 0) ==> n == 1
  {
    if id in quantities && quantities[id] != 0 then quantities[id] else 1
  }

  /** `selectedPortionSizes[id] || "Medium"`. */
  function PortionFor(portions: map<string, string>, id: string): (p: string)
    ensures p != ""
    ensures id in portions && portions[id] != "" ==> p == portions[id]
    ensures !(id in portions && portions[id] != "") ==> p == "Medium"
  {
    if id in portions && portions[id] != "" then portions[id] else "Medium"
  }

  /** `food.availability && food.availability !== "Available"`: a missing or
      empty availability counts as available. */
  predicate Unavailable(f: Food)
  {
    Present(f.availability) && f.availability.value != "Available"
  }

  /** The line `addItemToCart` appends for a food not yet in the cart. */
  function NewLine(f: Food, quantity: int, portion: string, restaurantId: string, orderType: string): (l: Line)
    ensures l.item == f && l.quantity == quantity && l.portionSize == portion
    ensures l.restaurantId == restaurantId && l.orderType == orderType
    ensures l.price == EffectivePrice(f, portion)
  {
    Line(f, quantity, portion, EffectivePrice(f, portion), restaurantId, orderType)
  }

  // ---------------------------------------------------------------------
  // Merge or append

  /** `i._id === food._id && i.portionSize === portionSize`. */
  predicate Matches(l: Line, id: string, portion: string)
  {
    l.item.id == id && l.portionSize == portion
  }

  /** `findIndex`: the first line for this food and portion, or -1. */
  function FindLine(cart: seq<Line>, id: string, portion: string): (idx: int)
    ensures -1 <= idx < |cart|
    ensures idx == -1 <==> forall k :: 0 <= k < |cart| ==> !Matches(cart[k], id, portion)
    ensures idx >= 0 ==> Matches(cart[idx], id, portion)
    ensures idx >= 0 ==> forall k :: 0 <= k < idx ==> !Matches(cart[k], id, portion)
  {
    if cart == [] then -1
    else if Matches(cart[0], id, portion) then 0
    else
      var j := FindLine(cart[1..], id, portion);
      if j == -1 then -1 else j + 1
  }

  /** `addItemToCart` (lines 113-134) on the stored cart: grow the matching
      line's quantity in place, or append a new line at the end. */
  function AddItem(stored: seq<Line>, f: Food, quantity: int, portion: string, restaurantId: string, orderType: string): (r: seq<Line>)
    ensures var idx := FindLine(stored, f.id, portion);
      idx >= 0 ==> (|r| == |stored| && r[idx] == stored[idx].(quantity := stored[idx].quantity + quantity)
        && forall k :: 0 <= k < |r| && k != idx ==> r[k] == stored[k])
    ensures FindLine(stored, f.id, portion) == -1 ==> r == stored + [NewLine(f, quantity, portion, restaurantId, orderType)]
    ensures FindLine(r, f.id, portion) >= 0
  {
    var idx := FindLine(stored, f.id, portion);
    if idx != -1 then
      var merged := seq(|stored|, k requires 0 <= k < |stored| =>
        if k == idx then stored[k].(quantity := stored[k].quantity + quantity) else stored[k]);
      assert Matches(merged[idx], f.id, portion);
      merged
    else
      var appended := stored + [NewLine(f, quantity, portion, restaurantId, orderType)];
      assert Matches(appended[|stored|], f.id, portion);
      appended
  }

  /** All lines belong to the restaurant of the first. */
  predicate OneRestaurant(cart: seq<Line>)
  {
    forall i :: 0 <= i < |cart| ==> cart[i].restaurantId == cart[0].restaurantId
  }

  /** No two lines share a food id and portion size. */
  predicate NoRepeatedLine(cart: seq<Line>)
  {
    forall i, j :: 0 <= i < j < |cart| ==> !Matches(cart[j], cart[i].item.id, cart[i].portionSize)
  }

  predicate CartInvariant(cart: seq<Line>)
  {
    OneRestaurant(cart) && NoRepeatedLine(cart)
  }

  /** Merging or appending a food of the cart's own restaurant keeps the invariant. */
  lemma AddItemKeepsInvariant(stored: seq<Line>, f: Food, quantity: int, portion: string, restaurantId: string, orderType: string)
    requires CartInvariant(stored)
    requires stored == [] || stored[0].restaurantId == restaurantId
    ensures CartInvariant(AddItem(stored, f, quantity, portion, restaurantId, orderType))
  {
    var r := AddItem(stored, f, quantity, portion, restaurantId, orderType);
    var idx := FindLine(stored, f.id, portion);
    if idx == -1 {
      assert r[|stored|] == NewLine(f, quantity, portion, restaurantId, orderType);
      forall i, j | 0 <= i < j < |r|
        ensures !Matches(r[j], r[i].item.id, r[i].portionSize)
      {
        if j == |stored| {
          assert r[i] == stored[i];
        }
      }
    }
  }

  /** Adding the same food and portion twice to a cart that lacks it gives one
      line holding both quantities. The line keeps the snapshot and price of
      the first add, even when the second add sees a different price. */
  lemma RepeatedAddMerges(stored: seq<Line>, f: Food, f2: Food, q1: int, q2: int, portion: string, restaurantId: string, orderType: string)
    requires FindLine(stored, f.id, portion) == -1 && f2.id == f.id
    ensures AddItem(AddItem(stored, f, q1, portion, restaurantId, orderType), f2, q2, portion, restaurantId, orderType)
      == stored + [NewLine(f, q1 + q2, portion, restaurantId, orderType)]
  {
    var once := AddItem(stored, f, q1, portion, restaurantId, orderType);
    assert once == stored + [NewLine(f, q1, portion, restaurantId, orderType)];
    assert FindLine(once, f.id, portion) == |stored| by {
      assert Matches(once[|stored|], f.id, portion);
      forall k | 0 <= k < |stored| ensures !Matches(once[k], f.id, portion) {
        assert once[k] == stored[k];
      }
    }
    var twice := AddItem(once, f2, q2, portion, restaurantId, orderType);
    assert |twice| == |stored| + 1;
    assert forall k :: 0 <= k < |twice| ==> twice[k] == (stored + [NewLine(f, q1 + q2, portion, restaurantId, orderType)])[k];
  }

  // ---------------------------------------------------------------------
  // The whole handler

  /** `storedCart[0].restaurantId !== restaurantId` on a non-empty cart: only the first line is consulted. */
  predicate Conflicts(stored: seq<Line>, restaurantId: string)
  {
    |stored| > 0 && stored[0].restaurantId != restaurantId
  }

  datatype AddOutcome =
    | NeedOrderType     // warned "Please select an order type first!"
    | ItemUnavailable   // "This item is currently unavailable."
    | Added             // merged or appended
    | SwitchCancelled   // conflict dialog answered "No"
    | SwitchedAndAdded  // conflict dialog confirmed: cart cleared, then the line added

  datatype AddResult = AddResult(outcome: AddOutcome, cart: seq<Line>)

  /** `handleAddToCart` (lines 95-172) as a function of the stored cart, the
      page's selections and the answer the shopper gives the switch dialog. */
  function AddToCart(stored: seq<Line>, f: Food, quantities: map<string, int>, portions: map<string, string>,
                     orderType: string, restaurantId: string, confirmed: bool): (r: AddResult)
    ensures r.outcome == NeedOrderType <==> orderType == ""
    ensures r.outcome == ItemUnavailable <==> orderType != "" && Unavailable(f)
    ensures r.outcome == SwitchCancelled || r.outcome == SwitchedAndAdded
      <==> orderType != "" && !Unavailable(f) && Conflicts(stored, restaurantId)
    ensures !(r.outcome == Added || r.outcome == SwitchedAndAdded) ==> r.cart == stored
    ensures r.outcome == Added || r.outcome == SwitchedAndAdded ==> FindLine(r.cart, f.id, PortionFor(portions, f.id)) >= 0
  {
    if orderType == "" then AddResult(NeedOrderType, stored)
    else if Unavailable(f) then AddResult(ItemUnavailable, stored)
    else
      var quantity, portion := QuantityFor(quantities, f.id), PortionFor(portions, f.id);
      if Conflicts(stored, restaurantId) then
        if confirmed then AddResult(SwitchedAndAdded, AddItem([], f, quantity, portion, restaurantId, orderType))
        else AddResult(SwitchCancelled, stored)
      else AddResult(Added, AddItem(stored, f, quantity, portion, restaurantId, orderType))
  }

  /** Without an order type, or for an unavailable item, nothing changes. */
  lemma RejectedAddChangesNothing(stored: seq<Line>, f: Food, quantities: map<string, int>, portions: map<string, string>,
                                  orderType: string, restaurantId: string, confirmed: bool)
    requires orderType == "" || Unavailable(f)
    ensures var res := AddToCart(stored, f, quantities, portions, orderType, restaurantId, confirmed);
      res.cart == stored && (res.outcome == NeedOrderType || res.outcome == ItemUnavailable)
    ensures orderType == "" ==> AddToCart(stored, f, quantities, portions, orderType, restaurantId, confirmed).outcome == NeedOrderType
  {
  }

  /** An item without an availability field can be added. */
  lemma MissingAvailabilityIsAvailable(stored: seq<Line>, f: Food, quantities: map<string, int>, portions: map<string, string>,
                                       orderType: string, restaurantId: string, confirmed: bool)
    requires f.availability.None? && orderType != ""
    ensures AddToCart(stored, f, quantities, portions, orderType, restaurantId, confirmed).outcome
      in {Added, SwitchedAndAdded, SwitchCancelled}
  {
  }

  /** With an order type, an available item and no conflict, the add is
      `addItemToCart` on the stored cart with the selected quantity and portion. */
  lemma CompletedAddIsAddItem(stored: seq<Line>, f: Food, quantities: map<string, int>, portions: map<string, string>,
                              orderType: string, restaurantId: string, confirmed: bool)
    requires orderType != "" && !Unavailable(f) && !Conflicts(stored, restaurantId)
    ensures AddToCart(stored, f, quantities, portions, orderType, restaurantId, confirmed)
      == AddResult(Added, AddItem(stored, f, QuantityFor(quantities, f.id), PortionFor(portions, f.id), restaurantId, orderType))
  {
  }

  /** On a restaurant conflict, confirming leaves exactly the new line and
      declining leaves the cart as it was. */
  lemma ConflictResolution(stored: seq<Line>, f: Food, quantities: map<string, int>, portions: map<string, string>,
                           orderType: string, restaurantId: string, confirmed: bool)
    requires orderType != "" && !Unavailable(f) && Conflicts(stored, restaurantId)
    ensures var res := AddToCart(stored, f, quantities, portions, orderType, restaurantId, confirmed);
      if confirmed then
        res.cart == [NewLine(f, QuantityFor(quantities, f.id), PortionFor(portions, f.id), restaurantId, orderType)]
      else
        res == AddResult(SwitchCancelled, stored)
  {
    assert FindLine([], f.id, PortionFor(portions, f.id)) == -1;
  }

  /** The dialog is consulted only on a conflict: otherwise the answer does not matter. */
  lemma ConfirmationOnlyOnConflict(stored: seq<Line>, f: Food, quantities: map<string, int>, portions: map<string, string>,
                                   orderType: string, restaurantId: string)
    requires !Conflicts(stored, restaurantId)
    ensures AddToCart(stored, f, quantities, portions, orderType, restaurantId, true)
         == AddToCart(stored, f, quantities, portions, orderType, restaurantId, false)
  {
  }

  /** Every add keeps the cart single-restaurant and free of repeated lines. */
  lemma AddToCartKeepsInvariant(stored: seq<Line>, f: Food, quantities: map<string, int>, portions: map<string, string>,
                                orderType: string, restaurantId: string, confirmed: bool)
    requires CartInvariant(stored)
    ensures var res := AddToCart(stored, f, quantities, portions, orderType, restaurantId, confirmed);
      CartInvariant(res.cart)
      && (res.outcome == Added || res.outcome == SwitchedAndAdded ==> res.cart[0].restaurantId == restaurantId)
  {
    var quantity, portion := QuantityFor(quantities, f.id), PortionFor(portions, f.id);
    if orderType != "" && !Unavailable(f) {
      if Conflicts(stored, restaurantId) {
        if confirmed {
          AddItemKeepsInvariant([], f, quantity, portion, restaurantId, orderType);
        }
      } else {
        AddItemKeepsInvariant(stored, f, quantity, portion, restaurantId, orderType);
      }
    }
  }

  /** The worked example: an empty cart, then the same medium food added with
      one and then two servings, gives one line of three at the first price,
      even though the menu now lists the food at 250. */
  lemma AddScenario(f: Food, f2: Food)
    requires f.id == "f1" && f.price == Some(200.0) && f.availability == Some("Available")
    requires f2.id == "f1" && f2.price == Some(250.0) && f2.availability == Some("Available")
    ensures var first := AddToCart([], f, map[], map[], "Dine-in", "r1", false);
      first == AddResult(Added, [Line(f, 1, "Medium", 200.0, "r1", "Dine-in")])
      && AddToCart(first.cart, f2, map["f1" := 2], map["f1" := "Medium"], "Dine-in", "r1", false)
         == AddResult(Added, [Line(f, 3, "Medium", 200.0, "r1", "Dine-in")])
  {
    var first := AddToCart([], f, map[], map[], "Dine-in", "r1", false);
    assert first.cart == [] + [NewLine(f, 1, "Medium", "r1", "Dine-in")];
    RepeatedAddMerges([], f, f2, 1, 2, "Medium", "r1", "Dine-in");
  }

  // ---------------------------------------------------------------------
  // Quantity selection

  /** `handleQuantityChange`: the entry becomes `max(1, (current || 1) + increment)`;
      every other entry is kept. */
  function ChangedQuantities(prev: map<string, int>, foodId: string, increment: int): (r: map<string, int>)
    ensures r.Keys == prev.Keys + {foodId}
    ensures r[foodId] >= 1
    ensures QuantityFor(prev, foodId) + increment >= 1 ==> r[foodId] == QuantityFor(prev, foodId) + increment
    ensures QuantityFor(prev, foodId) + increment < 1 ==> r[foodId] == 1
    ensures forall k :: k in prev && k != foodId ==> r[k] == prev[k]
  {
    var next := QuantityFor(prev, foodId) + increment;
    prev[foodId := if next < 1 then 1 else next]
  }

  /** Stepping down and back up returns to the same quantity whenever the step
      down did not hit the floor of one. */
  lemma QuantityStepsUndo(prev: map<string, int>, foodId: string, step: int)
    requires step >= 0
    requires QuantityFor(prev, foodId) - step >= 1
    ensures ChangedQuantities(ChangedQuantities(prev, foodId, -step), foodId, step)[foodId] == QuantityFor(prev, foodId)
  {
  }

  /** However negative the increments, the quantity used for an add stays at least one. */
  lemma QuantityFloor(prev: map<string, int>, foodId: string, increment: int)
    ensures QuantityFor(ChangedQuantities(prev, foodId, increment), foodId) >= 1
  {
  }

  // ---------------------------------------------------------------------
  // The page's state

  /** The state the details page keeps: its selections, the React `cart`
      state, and `storedCart`, the browser's persisted "cart" slot. */
  class MenuPage {
    const restaurantId: string
    var quantities: map<string, int>
    var portionSizes: map<string, string>
    var orderType: string
    var cart: seq<Line>
    var storedCart: seq<Line>

    /** Mounting the page for a restaurant: the cart is loaded once from the
        persisted slot, an absent slot reading as the empty cart. */
    constructor (restaurantId: string, persisted: Option<seq<Line>>)
      ensures this.restaurantId == restaurantId
      ensures quantities == map[] && portionSizes == map[] && orderType == ""
      ensures storedCart == (if persisted.Some? then persisted.value else [])
      ensures cart == storedCart
    {
      this.restaurantId := restaurantId;
      quantities := map[];
      portionSizes := map[];
      orderType := "";
      storedCart := if persisted.Some? then persisted.value else [];
      cart := if persisted.Some? then persisted.value else [];
    }

    /** The Dine-in / Takeaway toggle (lines 273 and 281). */
    method SelectOrderType(choice: string)
      requires choice == "Dine-in" || choice == "Takeaway"
      modifies this
      ensures orderType == choice
      ensures quantities == old(quantities) && portionSizes == old(portionSizes)
      ensures cart == old(cart) && storedCart == old(storedCart)
    {
      orderType := choice;
    }

    /** The M / L portion buttons (lines 394-416). */
    method SelectPortion(foodId: string, size: string)
      requires size == "Medium" || size == "Large"
      modifies this
      ensures portionSizes == old(portionSizes)[foodId := size]
      ensures quantities == old(quantities) && orderType == old(orderType)
      ensures cart == old(cart) && storedCart == old(storedCart)
    {
      portionSizes := portionSizes[foodId := size];
    }

    /** `handleQuantityChange` (lines 88-93). */
    method ChangeQuantity(foodId: string, increment: int)
      modifies this
      ensures quantities == ChangedQuantities(old(quantities), foodId, increment)
      ensures quantities[foodId] >= 1
      ensures portionSizes == old(portionSizes) && orderType == old(orderType)
      ensures cart == old(cart) && storedCart == old(storedCart)
    {
      var next := QuantityFor(quantities, foodId) + increment;
      if next < 1 {
        next := 1;
      }
      quantities := quantities[foodId := next];
    }

    /** `handleAddToCart` (lines 95-172). The stored cart is re-read, the
        add is computed against it, and a completed add is written both to
        the persisted slot and to the page's `cart` state. `confirmed` is the
        shopper's answer to the switch-restaurant dialog; it is consulted only
        when the cart belongs to another restaurant. */
    method HandleAddToCart(f: Food, confirmed: bool) returns (outcome: AddOutcome)
      modifies this
      ensures var res := AddToCart(old(storedCart), f, quantities, portionSizes, orderType, restaurantId, confirmed);
        outcome == res.outcome && storedCart == res.cart
      ensures outcome == Added || outcome == SwitchedAndAdded ==> cart == storedCart
      ensures !(outcome == Added || outcome == SwitchedAndAdded) ==> cart == old(cart) && storedCart == old(storedCart)
      ensures old(CartInvariant(storedCart)) ==> CartInvariant(storedCart)
      ensures quantities == old(quantities) && portionSizes == old(portionSizes) && orderType == old(orderType)
    {
      ghost var before := storedCart;
      if orderType == "" {
        return NeedOrderType;
      }
      if Unavailable(f) {
        return ItemUnavailable;
      }
      var quantity, portion := QuantityFor(quantities, f.id), PortionFor(portionSizes, f.id);
      var stored := storedCart;
      if |stored| > 0 && stored[0].restaurantId != restaurantId {
        if !confirmed {
          return SwitchCancelled;
        }
        stored := [];
        cart := [];
        storedCart := [];
        outcome := SwitchedAndAdded;
      } else {
        outcome := Added;
      }
      var updated := AddItem(stored, f, quantity, portion, restaurantId, orderType);
      cart := updated;
      storedCart := updated;
      if CartInvariant(before) {
        AddToCartKeepsInvariant(before, f, quantities, portionSizes, orderType, restaurantId, confirmed);
      }
    }
  }
}
