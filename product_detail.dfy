/** The product detail screen: a quantity selector clamped to the stock,
    the add-to-cart amount, and the badges and stock label shown for the
    product. Prices and counts are whole numbers of naira and items. */
module ProductDetail {
  import opened Common

  /** The fields of a product the screen's logic reads. */
  datatype Product = Product(
    name: string, price: int, originalPrice: int, discount: int, stock: int, prescription: bool)

  /** The sample product the screen displays. */
  const SampleProduct := Product("Paracetamol 500mg", 500, 550, 10, 50, false)

  /** `Math.max(1, Math.min(stock, v))`. */
  function Clamp(stock: int, v: int): (r: int)
    ensures r >= 1
    ensures stock >= 1 ==> r <= stock
    ensures 1 <= v <= stock ==> r == v
    ensures v < 1 ==> r == 1
    ensures stock >= 1 && v > stock ==> r == stock
    ensures stock < 1 ==> r == 1
  {
    var capped := if stock < v then stock else v;
    if capped < 1 then 1 else capped
  }

  /** The quantity after pressing the buttons `changes` in order, from `q`. */
  function QuantityAfter(stock: int, q: int, changes: seq<int>): int
    decreases |changes|
  {
    if changes == [] then q else QuantityAfter(stock, Clamp(stock, q + changes[0]), changes[1..])
  }

  /** Whatever buttons are pressed, the quantity stays between 1 and the
      stock, given some stock; with no stock it settles at 1 after the first
      press. */
  lemma {:induction false} QuantityStaysInRange(stock: int, q: int, changes: seq<int>)
    requires stock >= 1 && 1 <= q <= stock
    ensures 1 <= QuantityAfter(stock, q, changes) <= stock
    decreases |changes|
  {
    if changes != [] {
      QuantityStaysInRange(stock, Clamp(stock, q + changes[0]), changes[1..]);
    }
  }

  /** A decrement at 1 leaves 1; an increment at the stock leaves the stock;
      any other single step moves by exactly one. */
  lemma StepAtTheEdges(stock: int, q: int)
    requires stock >= 1 && 1 <= q <= stock
    ensures Clamp(stock, q - 1) == (if q == 1 then 1 else q - 1)
    ensures Clamp(stock, q + 1) == (if q == stock then stock else q + 1)
  {
  }

  /** The amount on the add-to-cart button. */
  function CartAmount(p: Product, quantity: int): int {
    p.price * quantity
  }

  /** For a selectable quantity, the amount is at least one unit's price
      and at most the whole stock's, and each extra unit adds one price. */
  lemma CartAmountBounds(p: Product, quantity: int)
    requires p.price >= 0 && 1 <= quantity <= p.stock
    ensures p.price <= CartAmount(p, quantity) <= p.price * p.stock
    ensures CartAmount(p, quantity + 1) == CartAmount(p, quantity) + p.price
  {
    assert p.price * quantity <= p.price * p.stock by {
      assert p.price * (p.stock - quantity) >= 0;
    }
  }

  /** The "N% OFF" badge, shown only when there is a discount. */
  function DiscountBadge(p: Product): (r: Option<string>)
    ensures r.Some? <==> p.discount > 0
    ensures r.Some? ==> r.value == NatToString(p.discount) + "% OFF"
  {
    if p.discount > 0 then Some(NatToString(p.discount) + "% OFF") else None
  }

  /** The struck-through original price, shown only above the price. */
  function OriginalPriceTag(p: Product): (r: Option<int>)
    ensures r.Some? <==> p.originalPrice > p.price
    ensures r.Some? ==> r.value == p.originalPrice
  {
    if p.originalPrice > p.price then Some(p.originalPrice) else None
  }

  /** The stock label: "Only N left" below 20, "In Stock" otherwise. */
  function StockLabel(stock: int): (r: string)
    ensures r == "In Stock" <==> stock >= 20
    ensures stock < 20 ==> r == "Only " + IntToString(stock) + " left"
  {
    if stock < 20 then
      var r := "Only " + IntToString(stock) + " left";
      assert r[0] == 'O';
      r
    else "In Stock"
  }

  /** Whether the stock icon takes the success colour (otherwise the
      warning colour). */
  predicate StockIconSuccess(stock: int) {
    stock > 20
  }

  /** The label and the icon agree everywhere except at exactly 20 items,
      where the label says "In Stock" and the icon shows a warning. */
  lemma LabelAndIconDisagreeOnlyAt20(stock: int)
    ensures (StockLabel(stock) == "In Stock") == StockIconSuccess(stock) <==> stock != 20
  {
  }

  /** What the sample product shows. */
  lemma SampleProductDisplay()
    ensures DiscountBadge(SampleProduct) == Some("10% OFF")
    ensures OriginalPriceTag(SampleProduct) == Some(550)
    ensures StockLabel(SampleProduct.stock) == "In Stock" && StockIconSuccess(SampleProduct.stock)
    ensures CartAmount(SampleProduct, 1) == 500
  {
    assert DigitChar(1) == '1' && DigitChar(0) == '0';
    assert NatToString(10) == NatToString(1) + [DigitChar(0)] == ['1', '0'];
    assert ['1', '0'] + "% OFF" == "10% OFF";
  }

  /** The screen's state: the selected quantity and the favourite flag. */
  class ProductDetailScreen {
    const product: Product
    var quantity: int
    var isFavorite: bool

    /** The quantity is never below 1, and never above the stock when
        there is stock. */
    predicate Valid()
      reads this
    {
      quantity >= 1 && (product.stock >= 1 ==> quantity <= product.stock)
    }

    constructor(p: Product)
      ensures product == p && quantity == 1 && !isFavorite
      ensures Valid()
    {
      product := p;
      quantity := 1;
      isFavorite := false;
    }

    /** `updateQuantity(change)`. */
    method UpdateQuantity(change: int)
      requires Valid()
      modifies this
      ensures quantity == Clamp(product.stock, old(quantity) + change)
      ensures isFavorite == old(isFavorite)
      ensures Valid()
    {
      quantity := Clamp(product.stock, quantity + change);
    }

    /** The heart button. */
    method ToggleFavorite()
      modifies this
      ensures isFavorite == !old(isFavorite) && quantity == old(quantity)
    {
      isFavorite := !isFavorite;
    }
  }
}
