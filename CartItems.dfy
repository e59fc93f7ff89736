/**
  Derivations over cart lines shared by the cart page and the cart header:
  the quantity total, a line's amount and the three-word short title.
 */
module CartItems {
  import opened JsMath
  import opened JsArray
  import opened JsString
  import opened Storefront

  /** The cart's total number of units: the line quantities added up from the first line on. */
  function QuantitySum(items: seq<CartItem>): int {
    if |items| == 0 then 0 else QuantitySum(items[..|items| - 1]) + items[|items| - 1].quantity
  }

  /**
    When every line holds at least one unit, the number of lines never
    exceeds the number of units, and the two agree exactly when every line
    holds a single unit.
   */
  lemma {:induction false} QuantitySumAtLeastLineCount(items: seq<CartItem>)
    requires AllQuantitiesPositive(items)
    ensures QuantitySum(items) >= |items|
    ensures QuantitySum(items) == |items| <==> forall i :: 0 <= i < |items| ==> items[i].quantity == 1
  {
    if |items| > 0 {
      var init := items[..|items| - 1];
      assert forall i :: 0 <= i < |init| ==> init[i] == items[i];
      QuantitySumAtLeastLineCount(init);
    }
  }

  /** item.price * item.quantity. */
  function LineAmount(item: CartItem): real {
    item.price * item.quantity as real
  }

  /** How many words of a title the compact views keep. */
  const ShortTitleWords := 3

  /** A title cut down to its first three space-separated words, joined again by single spaces. */
  function ShortTitle(title: string): string {
    Join(Slice(Split(title), 0, ShortTitleWords))
  }

  /**
    The short title is the start of the title up to, not including, its
    third space (the whole title if it has fewer than three spaces), so it
    keeps the first three space-separated words.
   */
  lemma ShortTitleSpec(title: string)
    ensures |ShortTitle(title)| <= |title| && ShortTitle(title) == title[..|ShortTitle(title)|]
    ensures |ShortTitle(title)| == |title| || title[|ShortTitle(title)|] == Space
    ensures Spaces(ShortTitle(title)) == Min(2, Spaces(title))
    ensures Spaces(title) < ShortTitleWords ==> ShortTitle(title) == title
  {
    var words := Split(title);
    var k := Min(ShortTitleWords, |words|);
    SlicePrefix(words, ShortTitleWords);
    JoinSplit(title);
    assert forall w :: w in words[..k] ==> w in words;
    JoinSpaces(words[..k]);
    if k < |words| {
      JoinAt(words, k);
    } else {
      assert words[..k] == words;
    }
  }
}
