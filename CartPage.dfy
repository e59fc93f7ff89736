/**
  The cart page: the quantity controls of each line, its subtotal, the
  totals in the header and summary, and when the empty state or the
  summary is shown.
 */
module CartPage {
  import opened JsMath
  import opened Storefront
  import opened CartItems
  import opened JsString

  /** The + button: ask the store for one more unit of this line. */
  function IncrementAction(item: CartItem): CartAction {
    UpdateQuantity(item.id, item.quantity + 1)
  }

  /** The - button: ask for one unit fewer, but never for fewer than one. */
  function DecrementAction(item: CartItem): CartAction {
    UpdateQuantity(item.id, Max(1, item.quantity - 1))
  }

  /** The - button is disabled at one unit or fewer. */
  predicate DecrementDisabled(item: CartItem) {
    item.quantity <= 1
  }

  /** The remove button. */
  function RemoveAction(item: CartItem): CartAction {
    RemoveFromCart(item.id)
  }

  /** "Your cart is empty" is shown. */
  predicate ShowsEmptyState(items: seq<CartItem>) {
    |items| == 0
  }

  /** The order summary (totals, chips, checkout and clear buttons) is shown. */
  predicate ShowsSummary(items: seq<CartItem>) {
    |items| > 0
  }

  /** The Clear Cart button is disabled. */
  predicate ClearDisabled(items: seq<CartItem>) {
    |items| == 0
  }

  /** One chip of the summary: "{quantity}x {short title}". */
  datatype SummaryChip = SummaryChip(quantity: int, shortTitle: string)

  function SummaryChips(items: seq<CartItem>): seq<SummaryChip> {
    seq(|items|, i requires 0 <= i < |items| => SummaryChip(items[i].quantity, ShortTitle(items[i].title)))
  }

  /**
    One chip per line, in cart order: the line's quantity, and the start of
    its title up to (not including) the third space, or the whole title if
    it has fewer.
   */
  lemma SummaryChipsSpec(items: seq<CartItem>)
    ensures |SummaryChips(items)| == |items|
    ensures forall i :: 0 <= i < |items| ==>
              var chip, title := SummaryChips(items)[i], items[i].title;
              && chip.quantity == items[i].quantity
              && |chip.shortTitle| <= |title| && chip.shortTitle == title[..|chip.shortTitle|]
              && (|chip.shortTitle| == |title| || title[|chip.shortTitle|] == Space)
              && Spaces(chip.shortTitle) == Min(2, Spaces(title))
  {
    forall i | 0 <= i < |items| {
      ShortTitleSpec(items[i].title);
    }
  }

  /**
    Each of a line's controls (-, + and remove) acts on that line's id, and
    when ids are unique, on no other line.
   */
  lemma LineControlsTargetTheirLine(items: seq<CartItem>, i: nat)
    requires UniqueIds(items)
    requires i < |items|
    ensures IncrementAction(items[i]).id == items[i].id
    ensures DecrementAction(items[i]).id == items[i].id
    ensures RemoveAction(items[i]) == RemoveFromCart(items[i].id)
    ensures forall j :: 0 <= j < |items| && items[j].id == items[i].id ==> j == i
  {
  }

  /**
    The - button always asks for the same line and for at least one unit;
    when enabled it asks for exactly one fewer, and it is disabled exactly
    where one fewer would fall below one.
   */
  lemma DecrementNeverBelowOne(item: CartItem)
    ensures DecrementAction(item).id == item.id && DecrementAction(item).quantity >= 1
    ensures !DecrementDisabled(item) ==> DecrementAction(item).quantity == item.quantity - 1
    ensures DecrementDisabled(item) <==> item.quantity - 1 < 1
  {
  }

  /** The + button asks for exactly one more unit of the same line, and - undoes it. */
  lemma IncrementThenDecrement(item: CartItem)
    requires item.quantity >= 1
    ensures IncrementAction(item) == UpdateQuantity(item.id, item.quantity + 1)
    ensures !DecrementDisabled(item.(quantity := IncrementAction(item).quantity))
    ensures DecrementAction(item.(quantity := IncrementAction(item).quantity)) == UpdateQuantity(item.id, item.quantity)
  {
  }

  /** Exactly one of the empty state and the summary is shown, and inside the summary Clear Cart is enabled. */
  lemma EmptyStateOrSummary(items: seq<CartItem>)
    ensures ShowsEmptyState(items) != ShowsSummary(items)
    ensures ShowsSummary(items) ==> !ClearDisabled(items)
  {
  }
}
