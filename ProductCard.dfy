/**
  A product tile: how many of it the cart holds, and the add-to-cart guard
  that ignores clicks until the feedback timer has fired.
 */
module ProductCard {
  import opened Storefront

  /** The index of the first cart line for productId. */
  predicate FirstWithId(items: seq<CartItem>, productId: int, i: int) {
    0 <= i < |items| && items[i].id == productId &&
    forall j :: 0 <= j < i ==> items[j].id != productId
  }

  /**
    How many of the product the cart holds: the quantity of the first cart
    line whose id is the product's, or 0 when there is no such line.
   */
  function ProductQuantity(items: seq<CartItem>, productId: int): (q: int)
    ensures (forall i :: 0 <= i < |items| ==> items[i].id != productId) ==> q == 0
    ensures forall i :: FirstWithId(items, productId, i) ==> q == items[i].quantity
  {
    if |items| == 0 then 0
    else if items[0].id == productId then items[0].quantity
    else
      assert forall i :: FirstWithId(items, productId, i) ==> i >= 1 && FirstWithId(items[1..], productId, i - 1);
      ProductQuantity(items[1..], productId)
  }

  /** The "{q} in cart" label beside the price is shown. */
  predicate InCartLabelShown(items: seq<CartItem>, productId: int) {
    ProductQuantity(items, productId) > 0
  }

  /**
    The "(+q)" suffix on the main button is shown: only in the idle label,
    so never while an add is in progress.
   */
  predicate AddSuffixShown(isAdding: bool, items: seq<CartItem>, productId: int) {
    !isAdding && ProductQuantity(items, productId) > 0
  }

  /** With at least one unit per line, the tile says "in cart" exactly when the cart has a line for the product. */
  lemma {:induction false} InCartIffPresent(items: seq<CartItem>, productId: int)
    requires AllQuantitiesPositive(items)
    ensures InCartLabelShown(items, productId) <==> exists i :: 0 <= i < |items| && items[i].id == productId
  {
    if |items| > 0 && items[0].id != productId {
      InCartIffPresent(items[1..], productId);
      if exists i :: 0 <= i < |items| && items[i].id == productId {
        var i :| 0 <= i < |items| && items[i].id == productId;
        assert items[1..][i - 1].id == productId;
      }
    }
  }

  /**
    With at least one unit per line, the "(+q)" suffix is shown exactly when
    the tile is idle and the cart has a line for the product; while adding,
    the label may say "in cart" but the suffix is hidden.
   */
  lemma AddSuffixIffIdleAndPresent(isAdding: bool, items: seq<CartItem>, productId: int)
    requires AllQuantitiesPositive(items)
    ensures AddSuffixShown(isAdding, items, productId) <==>
              !isAdding && exists i :: 0 <= i < |items| && items[i].id == productId
    ensures AddSuffixShown(isAdding, items, productId) ==> InCartLabelShown(items, productId)
  {
    InCartIffPresent(items, productId);
  }

  /** A tile's add-to-cart guard. */
  class CardState {
    var isAdding: bool
    /** How many add-to-cart calls the tile made since the timer last fired. */
    ghost var addsSinceReset: nat

    ghost predicate Valid()
      reads this
    {
      addsSinceReset == if isAdding then 1 else 0
    }

    constructor ()
      ensures Valid() && !isAdding && addsSinceReset == 0
    {
      isAdding := false;
      addsSinceReset := 0;
    }

    /** Both add buttons are disabled while an add is in progress. */
    predicate AddButtonsDisabled()
      reads this
    {
      isAdding
    }

    /** handleAddToCart: ignored while adding; otherwise start adding and call addToCart(product) once. */
    method HandleAddToCart(product: Product) returns (action: Option<CartAction>)
      requires Valid()
      modifies this
      ensures Valid() && isAdding
      ensures old(isAdding) ==> action == None && addsSinceReset == old(addsSinceReset)
      ensures !old(isAdding) ==> action == Some(AddToCart(product)) && addsSinceReset == old(addsSinceReset) + 1
      ensures addsSinceReset <= 1
    {
      if isAdding {
        action := None;
        return;
      }
      isAdding := true;
      action := Some(AddToCart(product));
      addsSinceReset := addsSinceReset + 1;
    }

    /** The 800 ms timer fires: the tile accepts clicks again. */
    method TimerFired()
      requires Valid()
      modifies this
      ensures Valid() && !isAdding && addsSinceReset == 0
    {
      isAdding := false;
      addsSinceReset := 0;
    }
  }
}
