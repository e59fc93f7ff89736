/**
  The fixed cart button and its hover preview: the count badge, the first
  four lines and the "+N more items" note.
 */
module CartHeader {
  import opened JsMath
  import opened JsArray
  import opened Storefront
  import opened CartItems

  /** How many lines the preview lists. */
  const PreviewLimit := 4

  /** The badge on the button is shown; cartCount is what the store's getCartCount() returns. */
  predicate BadgeShown(cartCount: int) {
    cartCount > 0
  }

  /** The preview dropdown exists. */
  predicate DropdownShown(items: seq<CartItem>) {
    |items| > 0
  }

  /** cart.items.slice(0, 4): the first four lines, in cart order. */
  function PreviewItems(items: seq<CartItem>): (preview: seq<CartItem>)
    ensures |preview| == Min(PreviewLimit, |items|)
    ensures preview == items[..|preview|]
  {
    SlicePrefix(items, PreviewLimit);
    Slice(items, 0, PreviewLimit)
  }

  /** The N of "+N more items", or None when the note is not shown. */
  function HiddenCount(items: seq<CartItem>): Option<nat> {
    if |items| > PreviewLimit then Some(|items| - PreviewLimit) else None
  }

  /**
    The note appears exactly when there are more than four lines, and the
    listed lines followed by the hidden ones are the whole cart.
   */
  lemma PreviewPartitionsCart(items: seq<CartItem>)
    ensures HiddenCount(items).Some? <==> |items| > PreviewLimit
    ensures |PreviewItems(items)| + (if HiddenCount(items).Some? then HiddenCount(items).value else 0) == |items|
    ensures PreviewItems(items) + items[|PreviewItems(items)|..] == items
  {
  }

  /** One preview row: the short title, "${price} × {quantity}" and the line amount. */
  datatype PreviewLine = PreviewLine(shortTitle: string, price: real, quantity: int, amount: real)

  function PreviewLines(items: seq<CartItem>): (lines: seq<PreviewLine>)
    ensures |lines| == Min(PreviewLimit, |items|)
    ensures forall i :: 0 <= i < |lines| ==>
              lines[i] == PreviewLine(ShortTitle(items[i].title), items[i].price, items[i].quantity, LineAmount(items[i]))
  {
    var preview := PreviewItems(items);
    seq(|preview|, i requires 0 <= i < |preview| =>
      PreviewLine(ShortTitle(preview[i].title), preview[i].price, preview[i].quantity, LineAmount(preview[i])))
  }

  /**
    If the store's count is the quantity total and every line
    holds a unit, the badge and the dropdown appear together.
   */
  lemma BadgeIffDropdown(items: seq<CartItem>, cartCount: int)
    requires cartCount == QuantitySum(items)
    requires AllQuantitiesPositive(items)
    ensures BadgeShown(cartCount) <==> DropdownShown(items)
  {
    QuantitySumAtLeastLineCount(items);
  }
}
