/**
 * The shopping-cart and wishlist store of the storefront: the product and
 * cart-line shapes, the static catalog, the pure transformations behind
 * `addToCart`, `removeFromCart`, `updateQuantity` and `toggleWishlist`, the
 * derived `cartTotal` and `cartCount`, and the provider object that holds
 * `cart` and `wishlist` and replaces them on every action.
 */
module Store {
  import opened Wrappers
  import opened Seqs

  /** A colour variant a product is offered in. */
  datatype Swatch = Swatch(name: string, hex: string)

  /** A catalog entry; prices and ratings are exact decimals. */
  datatype Product = Product(
    id: string,
    name: string,
    price: real,
    originalPrice: Option<real>,
    image: string,
    category: string,
    rating: real,
    reviews: int,
    description: string,
    sizes: Option<seq<string>>,
    colors: Option<seq<Swatch>>,
    inStock: bool,
    tags: Option<seq<string>>)

  /**
   * A cart line: every field of the product it was made from, plus the
   * quantity and the size and colour it was added with (`None` when the
   * caller passed none).
   */
  datatype CartItem = CartItem(
    product: Product,
    quantity: int,
    selectedSize: Option<string>,
    selectedColor: Option<string>)

  /** What `addToCart` compares to find an existing line: id, size and colour. */
  datatype LineKey = LineKey(id: string, size: Option<string>, color: Option<string>)

  function KeyOf(item: CartItem): (k: LineKey)
  {
    LineKey(item.product.id, item.selectedSize, item.selectedColor)
  }

  /** No two lines share an (id, size, colour) triple. */
  predicate UniqueKeys(cart: seq<CartItem>)
  {
    Pairwise(cart, (a: CartItem, b: CartItem) => KeyOf(a) != KeyOf(b))
  }

  predicate PositiveQuantities(cart: seq<CartItem>)
  {
    forall i :: 0 <= i < |cart| ==> cart[i].quantity > 0
  }

  /** `prev.find(...)` comes back with a line: some line carries key `k`. */
  predicate HasLine(cart: seq<CartItem>, k: LineKey)
  {
    exists i :: 0 <= i < |cart| && KeyOf(cart[i]) == k
  }

  /** Every line of `product`'s id carries `product`'s price. */
  predicate PricedAs(cart: seq<CartItem>, product: Product)
  {
    forall i :: 0 <= i < |cart| && cart[i].product.id == product.id ==> cart[i].product.price == product.price
  }

  // ---------------------------------------------------------------------------
  // The transformations each action hands to `setCart` / `setWishlist`
  // ---------------------------------------------------------------------------

  /**
   * `addToCart`: when a line matches (id, size, colour) every matching line
   * gets `quantity` more; otherwise a new line is appended. A non-positive
   * quantity is not rejected.
   */
  function AddLine(cart: seq<CartItem>, product: Product, quantity: int,
                   size: Option<string>, color: Option<string>): (r: seq<CartItem>)
  {
    var k := LineKey(product.id, size, color);
    if HasLine(cart, k) then
      seq(|cart|, i requires 0 <= i < |cart| =>
        if KeyOf(cart[i]) == k then cart[i].(quantity := cart[i].quantity + quantity) else cart[i])
    else
      cart + [CartItem(product, quantity, size, color)]
  }

  /** `removeFromCart`: drops every line of the product, whatever its size or colour. */
  function RemoveLines(cart: seq<CartItem>, productId: string): (r: seq<CartItem>)
    ensures forall item :: item in r <==> item in cart && item.product.id != productId
  {
    Filter(cart, (item: CartItem) => item.product.id != productId)
  }

  /**
   * `updateQuantity`: a quantity of zero or less removes the product;
   * otherwise every line of the product gets exactly that quantity.
   */
  function SetQuantity(cart: seq<CartItem>, productId: string, quantity: int): (r: seq<CartItem>)
  {
    if quantity <= 0 then RemoveLines(cart, productId)
    else
      seq(|cart|, i requires 0 <= i < |cart| =>
        if cart[i].product.id == productId then cart[i].(quantity := quantity) else cart[i])
  }

  /**
   * One line's `price * quantity`, written as repeated addition so that a sum
   * of line totals stays linear for the verifier; `LineTotalIsProduct` shows
   * that it is the product.
   */
  function LineTotal(price: real, quantity: int): (r: real)
    decreases if quantity < 0 then -quantity else quantity
  {
    if quantity == 0 then 0.0
    else if quantity > 0 then LineTotal(price, quantity - 1) + price
    else LineTotal(price, quantity + 1) - price
  }

  /** `cartTotal`: `reduce` from the left of price times quantity. */
  function Total(cart: seq<CartItem>): (r: real)
  {
    if cart == [] then 0.0
    else Total(cart[..|cart| - 1]) + LineTotal(cart[|cart| - 1].product.price, cart[|cart| - 1].quantity)
  }

  /** `cartCount`: `reduce` from the left of the quantities. */
  function Count(cart: seq<CartItem>): (n: int)
  {
    if cart == [] then 0 else Count(cart[..|cart| - 1]) + cart[|cart| - 1].quantity
  }

  // ---------------------------------------------------------------------------
  // addToCart
  // ---------------------------------------------------------------------------

  /** With a matching line, the cart keeps its length and only that line gains `quantity`. */
  lemma AddMergesIntoExisting(cart: seq<CartItem>, product: Product, quantity: int,
                              size: Option<string>, color: Option<string>, i: nat)
    requires UniqueKeys(cart)
    requires i < |cart| && KeyOf(cart[i]) == LineKey(product.id, size, color)
    ensures |AddLine(cart, product, quantity, size, color)| == |cart|
    ensures AddLine(cart, product, quantity, size, color)[i] == cart[i].(quantity := cart[i].quantity + quantity)
    ensures forall j :: 0 <= j < |cart| && j != i ==> AddLine(cart, product, quantity, size, color)[j] == cart[j]
  {
    var r := AddLine(cart, product, quantity, size, color);
    forall j | 0 <= j < |cart| && j != i ensures r[j] == cart[j] {
      if j < i {
        assert KeyOf(cart[j]) != KeyOf(cart[i]);
      } else {
        assert KeyOf(cart[i]) != KeyOf(cart[j]);
      }
    }
  }

  /** Without a matching line, one line with the product's fields and the selectors is appended. */
  lemma AddAppendsNew(cart: seq<CartItem>, product: Product, quantity: int,
                      size: Option<string>, color: Option<string>)
    requires forall i :: 0 <= i < |cart| ==> KeyOf(cart[i]) != LineKey(product.id, size, color)
    ensures |AddLine(cart, product, quantity, size, color)| == |cart| + 1
    ensures AddLine(cart, product, quantity, size, color)[..|cart|] == cart
    ensures AddLine(cart, product, quantity, size, color)[|cart|] == CartItem(product, quantity, size, color)
  {
  }

  /** Adding never creates a second line for an (id, size, colour) triple. */
  lemma AddKeepsUniqueKeys(cart: seq<CartItem>, product: Product, quantity: int,
                           size: Option<string>, color: Option<string>)
    requires UniqueKeys(cart)
    ensures UniqueKeys(AddLine(cart, product, quantity, size, color))
  {
    var k := LineKey(product.id, size, color);
    var r := AddLine(cart, product, quantity, size, color);
    if HasLine(cart, k) {
      forall i, j | 0 <= i < j < |r| ensures KeyOf(r[i]) != KeyOf(r[j]) {
        assert KeyOf(r[i]) == KeyOf(cart[i]) && KeyOf(r[j]) == KeyOf(cart[j]);
      }
    } else {
      forall i, j | 0 <= i < j < |r| ensures KeyOf(r[i]) != KeyOf(r[j]) {
        if j < |cart| {
          assert r[i] == cart[i] && r[j] == cart[j];
        } else {
          assert r[i] == cart[i];
        }
      }
    }
  }

  /** Adding a positive quantity keeps every quantity positive. */
  lemma AddKeepsPositive(cart: seq<CartItem>, product: Product, quantity: int,
                         size: Option<string>, color: Option<string>)
    requires PositiveQuantities(cart) && quantity > 0
    ensures PositiveQuantities(AddLine(cart, product, quantity, size, color))
  {
  }

  /** The same product added twice with the same selectors makes one line of `q1 + q2`. */
  lemma AddTwiceSameSelectors(cart: seq<CartItem>, product: Product, q1: int, q2: int,
                              size: Option<string>, color: Option<string>)
    requires !HasLine(cart, LineKey(product.id, size, color))
    ensures AddLine(AddLine(cart, product, q1, size, color), product, q2, size, color)
         == cart + [CartItem(product, q1 + q2, size, color)]
  {
    var once := AddLine(cart, product, q1, size, color);
    assert KeyOf(once[|cart|]) == LineKey(product.id, size, color);
  }

  /** The same product added with two different selector pairs makes two lines. */
  lemma AddTwiceOtherSelectors(cart: seq<CartItem>, product: Product, q1: int, q2: int,
                               size1: Option<string>, color1: Option<string>,
                               size2: Option<string>, color2: Option<string>)
    requires (size1, color1) != (size2, color2)
    requires !HasLine(cart, LineKey(product.id, size1, color1))
    requires !HasLine(cart, LineKey(product.id, size2, color2))
    ensures AddLine(AddLine(cart, product, q1, size1, color1), product, q2, size2, color2)
         == cart + [CartItem(product, q1, size1, color1), CartItem(product, q2, size2, color2)]
  {
    var once := AddLine(cart, product, q1, size1, color1);
    assert !HasLine(once, LineKey(product.id, size2, color2)) by {
      forall i | 0 <= i < |once| ensures KeyOf(once[i]) != LineKey(product.id, size2, color2) {
        if i < |cart| { assert once[i] == cart[i]; }
      }
    }
  }

  // ---------------------------------------------------------------------------
  // cartCount and cartTotal
  // ---------------------------------------------------------------------------

  lemma {:induction false} CountAppend(a: seq<CartItem>, b: seq<CartItem>)
    ensures Count(a + b) == Count(a) + Count(b)
  {
    if b == [] {
      assert a + b == a;
    } else {
      assert (a + b)[..|a + b| - 1] == a + b[..|b| - 1];
      CountAppend(a, b[..|b| - 1]);
    }
  }

  lemma {:induction false} TotalAppend(a: seq<CartItem>, b: seq<CartItem>)
    ensures Total(a + b) == Total(a) + Total(b)
  {
    if b == [] {
      assert a + b == a;
    } else {
      assert (a + b)[..|a + b| - 1] == a + b[..|b| - 1];
      TotalAppend(a, b[..|b| - 1]);
    }
  }

  /** Replacing the line at `i` changes the count by the change in that line's quantity. */
  lemma CountReplace(cart: seq<CartItem>, i: nat, item: CartItem)
    requires i < |cart|
    ensures Count(cart[i := item]) == Count(cart) - cart[i].quantity + item.quantity
  {
    var pre, post := cart[..i], cart[i + 1..];
    assert cart == pre + [cart[i]] + post;
    assert cart[i := item] == pre + [item] + post;
    CountAppend(pre + [cart[i]], post);
    CountAppend(pre, [cart[i]]);
    CountAppend(pre + [item], post);
    CountAppend(pre, [item]);
    assert [cart[i]][..0] == [] && [item][..0] == [];
  }

  /** Replacing the line at `i` changes the total by the change in that line's price times quantity. */
  lemma TotalReplace(cart: seq<CartItem>, i: nat, item: CartItem)
    requires i < |cart|
    ensures Total(cart[i := item]) == Total(cart) - LineTotal(cart[i].product.price, cart[i].quantity)
                                                 + LineTotal(item.product.price, item.quantity)
  {
    var pre, post := cart[..i], cart[i + 1..];
    assert cart == pre + [cart[i]] + post;
    assert cart[i := item] == pre + [item] + post;
    TotalAppend(pre + [cart[i]], post);
    TotalAppend(pre, [cart[i]]);
    TotalAppend(pre + [item], post);
    TotalAppend(pre, [item]);
    assert [cart[i]][..0] == [] && [item][..0] == [];
  }

  /** A merge is a replacement of the matching line by the same line with `quantity` more. */
  lemma AddIsReplace(cart: seq<CartItem>, product: Product, quantity: int,
                     size: Option<string>, color: Option<string>, i: nat)
    requires UniqueKeys(cart)
    requires i < |cart| && KeyOf(cart[i]) == LineKey(product.id, size, color)
    ensures AddLine(cart, product, quantity, size, color) == cart[i := cart[i].(quantity := cart[i].quantity + quantity)]
  {
    AddMergesIntoExisting(cart, product, quantity, size, color, i);
  }

  /** `addToCart(product, q)` raises `cartCount` by exactly `q`. */
  lemma AddRaisesCount(cart: seq<CartItem>, product: Product, quantity: int,
                       size: Option<string>, color: Option<string>)
    requires UniqueKeys(cart)
    ensures Count(AddLine(cart, product, quantity, size, color)) == Count(cart) + quantity
  {
    var k := LineKey(product.id, size, color);
    if HasLine(cart, k) {
      var i :| 0 <= i < |cart| && KeyOf(cart[i]) == k;
      AddIsReplace(cart, product, quantity, size, color, i);
      CountReplace(cart, i, cart[i].(quantity := cart[i].quantity + quantity));
    } else {
      CountAppend(cart, [CartItem(product, quantity, size, color)]);
      assert [CartItem(product, quantity, size, color)][..0] == [];
    }
  }

  /** A line total is the price times the quantity. */
  lemma {:induction false} LineTotalIsProduct(price: real, quantity: int)
    ensures LineTotal(price, quantity) == price * (quantity as real)
    decreases if quantity < 0 then -quantity else quantity
  {
    if quantity > 0 {
      LineTotalIsProduct(price, quantity - 1);
    } else if quantity < 0 {
      LineTotalIsProduct(price, quantity + 1);
    }
  }

  /** One more unit adds the price once, on either side of zero. */
  lemma LineTotalStep(price: real, quantity: int)
    ensures LineTotal(price, quantity + 1) == LineTotal(price, quantity) + price
  {
  }

  /** Line totals add up over quantities. */
  lemma {:induction false} LineTotalAdd(price: real, q1: int, q2: int)
    ensures LineTotal(price, q1 + q2) == LineTotal(price, q1) + LineTotal(price, q2)
    decreases if q2 < 0 then -q2 else q2
  {
    if q2 > 0 {
      LineTotalAdd(price, q1, q2 - 1);
      LineTotalStep(price, q1 + q2 - 1);
    } else if q2 < 0 {
      LineTotalAdd(price, q1, q2 + 1);
      LineTotalStep(price, q1 + q2);
    }
  }

  /** Raising the quantity of line `i` by `q` raises the total by that line's price times `q`. */
  lemma ReplaceRaisesTotal(cart: seq<CartItem>, i: nat, quantity: int)
    requires i < |cart|
    ensures Total(cart[i := cart[i].(quantity := cart[i].quantity + quantity)])
         == Total(cart) + LineTotal(cart[i].product.price, quantity)
  {
    TotalReplace(cart, i, cart[i].(quantity := cart[i].quantity + quantity));
    LineTotalAdd(cart[i].product.price, cart[i].quantity, quantity);
  }

  /** An appended line raises the total by its price times its quantity. */
  lemma AppendRaisesTotal(cart: seq<CartItem>, added: CartItem)
    ensures Total(cart + [added]) == Total(cart) + LineTotal(added.product.price, added.quantity)
  {
    TotalAppend(cart, [added]);
    assert [added][..0] == [];
  }

  /** `addToCart(product, q)` raises `cartTotal` by the product's price times `q`. */
  lemma AddRaisesTotal(cart: seq<CartItem>, product: Product, quantity: int,
                       size: Option<string>, color: Option<string>)
    requires UniqueKeys(cart) && PricedAs(cart, product)
    ensures Total(AddLine(cart, product, quantity, size, color)) == Total(cart) + LineTotal(product.price, quantity)
  {
    var k := LineKey(product.id, size, color);
    if HasLine(cart, k) {
      var i :| 0 <= i < |cart| && KeyOf(cart[i]) == k;
      AddIsReplace(cart, product, quantity, size, color, i);
      ReplaceRaisesTotal(cart, i, quantity);
    } else {
      AppendRaisesTotal(cart, CartItem(product, quantity, size, color));
    }
  }

  // ---------------------------------------------------------------------------
  // removeFromCart
  // ---------------------------------------------------------------------------

  /** Removing a product that has no line changes nothing. */
  lemma RemoveAbsentIsNoOp(cart: seq<CartItem>, productId: string)
    requires forall i :: 0 <= i < |cart| ==> cart[i].product.id != productId
    ensures RemoveLines(cart, productId) == cart
  {
    FilterKeepsAll(cart, (item: CartItem) => item.product.id != productId);
  }

  /** Removing twice is removing once. */
  lemma RemoveIdempotent(cart: seq<CartItem>, productId: string)
    ensures RemoveLines(RemoveLines(cart, productId), productId) == RemoveLines(cart, productId)
  {
    var once := RemoveLines(cart, productId);
    assert forall i :: 0 <= i < |once| ==> once[i].product.id != productId by {
      forall i | 0 <= i < |once| ensures once[i].product.id != productId {
        assert once[i] in once;
      }
    }
    RemoveAbsentIsNoOp(once, productId);
  }

  /** Removal acts line by line, so the lines it keeps stay in their original order. */
  lemma RemoveKeepsOrder(a: seq<CartItem>, b: seq<CartItem>, productId: string)
    ensures RemoveLines(a + b, productId) == RemoveLines(a, productId) + RemoveLines(b, productId)
  {
    FilterAppend(a, b, (item: CartItem) => item.product.id != productId);
  }

  lemma RemoveKeepsUniqueKeys(cart: seq<CartItem>, productId: string)
    requires UniqueKeys(cart)
    ensures UniqueKeys(RemoveLines(cart, productId))
  {
    FilterKeepsPairwise(cart, (item: CartItem) => item.product.id != productId,
                        (a: CartItem, b: CartItem) => KeyOf(a) != KeyOf(b));
  }

  lemma RemoveKeepsPositive(cart: seq<CartItem>, productId: string)
    requires PositiveQuantities(cart)
    ensures PositiveQuantities(RemoveLines(cart, productId))
  {
    var r := RemoveLines(cart, productId);
    forall i | 0 <= i < |r| ensures r[i].quantity > 0 {
      assert r[i] in cart;
    }
  }

  // ---------------------------------------------------------------------------
  // updateQuantity
  // ---------------------------------------------------------------------------

  /** A quantity of zero or less is exactly `removeFromCart`. */
  lemma UpdateNonPositiveIsRemove(cart: seq<CartItem>, productId: string, quantity: int)
    requires quantity <= 0
    ensures SetQuantity(cart, productId, quantity) == RemoveLines(cart, productId)
  {
  }

  /**
   * A positive quantity keeps the length, the order, every key and product,
   * gives every line of the product that quantity, and leaves other lines alone.
   */
  lemma UpdatePositiveSetsEveryVariant(cart: seq<CartItem>, productId: string, quantity: int)
    requires quantity > 0
    ensures |SetQuantity(cart, productId, quantity)| == |cart|
    ensures forall i :: 0 <= i < |cart| ==>
      var r := SetQuantity(cart, productId, quantity);
      && KeyOf(r[i]) == KeyOf(cart[i])
      && r[i].product == cart[i].product
      && (cart[i].product.id == productId ==> r[i].quantity == quantity)
      && (cart[i].product.id != productId ==> r[i] == cart[i])
  {
  }

  lemma UpdateKeepsUniqueKeys(cart: seq<CartItem>, productId: string, quantity: int)
    requires UniqueKeys(cart)
    ensures UniqueKeys(SetQuantity(cart, productId, quantity))
  {
    if quantity <= 0 {
      RemoveKeepsUniqueKeys(cart, productId);
    } else {
      var r := SetQuantity(cart, productId, quantity);
      forall i, j | 0 <= i < j < |r| ensures KeyOf(r[i]) != KeyOf(r[j]) {
        assert KeyOf(r[i]) == KeyOf(cart[i]) && KeyOf(r[j]) == KeyOf(cart[j]);
      }
    }
  }

  /** Whatever quantity is passed, no line is left with a quantity of zero or less. */
  lemma UpdateKeepsPositive(cart: seq<CartItem>, productId: string, quantity: int)
    requires PositiveQuantities(cart)
    ensures PositiveQuantities(SetQuantity(cart, productId, quantity))
  {
    if quantity <= 0 {
      RemoveKeepsPositive(cart, productId);
    }
  }

  // ---------------------------------------------------------------------------
  // The catalog and a worked scenario
  // ---------------------------------------------------------------------------

  /** The eight products of the static catalog, in catalog order. */
  function Catalog(): (ps: seq<Product>)
  {
    [MerinoWoolOvercoat(), CashmereTurtleneck(), TailoredWoolTrousers(), SilkBlendBlazer(),
     CottonPoplinShirt(), LeatherChelseaBoots(), LinenSummerSuit(), LeatherBelt()]
  }

  function MerinoWoolOvercoat(): (p: Product)
  {
    Product("1", "Merino Wool Overcoat", 389.0, Some(520.0),
            "https://images.unsplash.com/photo-1539533018447-63fcce2678e3?w=600&q=80",
            "Outerwear", 4.9, 124,
            "Luxurious Italian merino wool overcoat with satin lining. Perfect for cold weather elegance.",
            Some(["XS", "S", "M", "L", "XL"]),
            Some([Swatch("Charcoal", "#36454F"), Swatch("Camel", "#C19A6B"), Swatch("Navy", "#000080")]),
            true, Some(["New Arrival", "Best Seller"]))
  }

  function CashmereTurtleneck(): (p: Product)
  {
    Product("2", "Cashmere Turtleneck", 245.0, None,
            "https://images.unsplash.com/photo-1576566588028-4147f3842f27?w=600&q=80",
            "Knitwear", 4.8, 89,
            "Ultra-soft 100% cashmere turtleneck sweater. Timeless design meets exceptional comfort.",
            Some(["XS", "S", "M", "L"]),
            Some([Swatch("Cream", "#FFFDD0"), Swatch("Black", "#000000"), Swatch("Burgundy", "#800020")]),
            true, Some(["Premium"]))
  }

  function TailoredWoolTrousers(): (p: Product)
  {
    Product("3", "Tailored Wool Trousers", 195.0, Some(260.0),
            "https://images.unsplash.com/photo-1594938298603-c8148c4dae35?w=600&q=80",
            "Bottoms", 4.7, 156,
            "Impeccably tailored wool blend trousers with a modern slim fit.",
            Some(["28", "30", "32", "34", "36"]),
            Some([Swatch("Charcoal", "#36454F"), Swatch("Navy", "#000080"), Swatch("Sand", "#C2B280")]),
            true, None)
  }

  function SilkBlendBlazer(): (p: Product)
  {
    Product("4", "Silk Blend Blazer", 425.0, None,
            "https://images.unsplash.com/photo-1507679799987-c73779587ccf?w=600&q=80",
            "Blazers", 4.9, 67,
            "Refined silk-wool blend blazer with hand-stitched lapels.",
            Some(["S", "M", "L", "XL"]),
            Some([Swatch("Midnight", "#191970"), Swatch("Forest", "#228B22")]),
            true, Some(["Exclusive"]))
  }

  function CottonPoplinShirt(): (p: Product)
  {
    Product("5", "Cotton Poplin Shirt", 125.0, None,
            "https://images.unsplash.com/photo-1602810318383-e386cc2a3ccf?w=600&q=80",
            "Shirts", 4.6, 203,
            "Crisp Egyptian cotton poplin shirt with mother-of-pearl buttons.",
            Some(["XS", "S", "M", "L", "XL", "XXL"]),
            Some([Swatch("White", "#FFFFFF"), Swatch("Light Blue", "#ADD8E6"), Swatch("Pink", "#FFC0CB")]),
            true, None)
  }

  function LeatherChelseaBoots(): (p: Product)
  {
    Product("6", "Leather Chelsea Boots", 345.0, Some(420.0),
            "https://images.unsplash.com/photo-1638247025967-b4e38f787b76?w=600&q=80",
            "Footwear", 4.8, 178,
            "Hand-crafted Italian leather Chelsea boots with Goodyear welt construction.",
            Some(["7", "8", "9", "10", "11", "12"]),
            Some([Swatch("Black", "#000000"), Swatch("Cognac", "#834333")]),
            true, Some(["Handcrafted"]))
  }

  function LinenSummerSuit(): (p: Product)
  {
    Product("7", "Linen Summer Suit", 495.0, None,
            "https://images.unsplash.com/photo-1617137968427-85924c800a22?w=600&q=80",
            "Suits", 4.7, 45,
            "Breathable pure linen suit perfect for summer occasions.",
            Some(["S", "M", "L", "XL"]),
            Some([Swatch("Natural", "#FAF0E6"), Swatch("Sky Blue", "#87CEEB")]),
            true, Some(["Seasonal"]))
  }

  function LeatherBelt(): (p: Product)
  {
    Product("8", "Leather Belt", 85.0, None,
            "https://images.unsplash.com/photo-1624222247344-550fb60583dc?w=600&q=80",
            "Accessories", 4.5, 312,
            "Full-grain leather belt with brushed silver buckle.",
            Some(["30", "32", "34", "36", "38"]),
            Some([Swatch("Black", "#000000"), Swatch("Brown", "#8B4513")]),
            true, None)
  }

  /** The overcoat's catalog price. */
  lemma OvercoatPrice()
    ensures MerinoWoolOvercoat().price == 389.0
  {
  }

  /**
   * A product priced 389 added once and then twice more in size
   * M, Charcoal, is one line of three costing 1167; removing it empties the
   * cart.
   */
  lemma OvercoatScenario(coat: Product)
    requires coat.price == 389.0
    ensures var one := AddLine([], coat, 1, Some("M"), Some("Charcoal"));
      var three := AddLine(one, coat, 2, Some("M"), Some("Charcoal"));
      && Count(one) == 1 && Total(one) == 389.0
      && three == [CartItem(coat, 3, Some("M"), Some("Charcoal"))]
      && Count(three) == 3 && Total(three) == 1167.0
      && RemoveLines(three, coat.id) == [] && Total(RemoveLines(three, coat.id)) == 0.0
  {
    AddTwiceSameSelectors([], coat, 1, 2, Some("M"), Some("Charcoal"));
    var three := [CartItem(coat, 3, Some("M"), Some("Charcoal"))];
    assert three[..0] == [];
    LineTotalIsProduct(coat.price, 3);
  }

  /**
   * The checkout summary's minus and plus buttons call `updateQuantity` with
   * one line's quantity minus or plus one, which acts on every variant of
   * the product: with an M line of 1 and an L line of 5, plus sets both to 2
   * and minus removes both.
   */
  lemma LineButtonsActOnEveryVariant(p: Product)
    ensures var m := CartItem(p, 1, Some("M"), None);
      var l := CartItem(p, 5, Some("L"), None);
      && SetQuantity([m, l], p.id, m.quantity + 1) == [m.(quantity := 2), l.(quantity := 2)]
      && SetQuantity([m, l], p.id, m.quantity - 1) == []
  {
    var m := CartItem(p, 1, Some("M"), None);
    var l := CartItem(p, 5, Some("L"), None);
    var plus := SetQuantity([m, l], p.id, 2);
    assert plus[0] == m.(quantity := 2) && plus[1] == l.(quantity := 2);
    assert Filter([m, l], (item: CartItem) => item.product.id != p.id) == [];
  }

  // ---------------------------------------------------------------------------
  // The provider's state
  // ---------------------------------------------------------------------------

  /** The state `StoreProvider` holds; each action replaces `cart` or `wishlist`. */
  class StoreProvider {
    var cart: seq<CartItem>
    var wishlist: seq<string>

    ghost predicate Valid()
      reads this
    {
      UniqueKeys(cart) && NoDup(wishlist)
    }

    constructor ()
      ensures Valid() && cart == [] && wishlist == []
    {
      cart := [];
      wishlist := [];
    }

    /** `cartTotal`, recomputed from the lines on every read. */
    function CartTotal(): (r: real)
      reads this
    {
      Total(cart)
    }

    /** `cartCount`, recomputed from the lines on every read. */
    function CartCount(): (n: int)
      reads this
    {
      Count(cart)
    }

    method AddToCart(product: Product, quantity: int := 1,
                     size: Option<string> := None, color: Option<string> := None)
      requires Valid()
      modifies this
      ensures Valid()
      ensures cart == AddLine(old(cart), product, quantity, size, color) && wishlist == old(wishlist)
      ensures CartCount() == old(CartCount()) + quantity
      ensures old(PricedAs(cart, product)) ==> CartTotal() == old(CartTotal()) + LineTotal(product.price, quantity)
      ensures quantity > 0 && old(PositiveQuantities(cart)) ==> PositiveQuantities(cart)
    {
      AddKeepsUniqueKeys(cart, product, quantity, size, color);
      AddRaisesCount(cart, product, quantity, size, color);
      if PricedAs(cart, product) {
        AddRaisesTotal(cart, product, quantity, size, color);
      }
      if quantity > 0 && PositiveQuantities(cart) {
        AddKeepsPositive(cart, product, quantity, size, color);
      }
      cart := AddLine(cart, product, quantity, size, color);
    }

    method RemoveFromCart(productId: string)
      requires Valid()
      modifies this
      ensures Valid()
      ensures cart == RemoveLines(old(cart), productId) && wishlist == old(wishlist)
      ensures old(PositiveQuantities(cart)) ==> PositiveQuantities(cart)
    {
      RemoveKeepsUniqueKeys(cart, productId);
      if PositiveQuantities(cart) {
        RemoveKeepsPositive(cart, productId);
      }
      cart := RemoveLines(cart, productId);
    }

    method UpdateQuantity(productId: string, quantity: int)
      requires Valid()
      modifies this
      ensures Valid()
      ensures cart == SetQuantity(old(cart), productId, quantity) && wishlist == old(wishlist)
      ensures old(PositiveQuantities(cart)) ==> PositiveQuantities(cart)
    {
      if quantity <= 0 {
        RemoveFromCart(productId);
        return;
      }
      UpdateKeepsUniqueKeys(cart, productId, quantity);
      if PositiveQuantities(cart) {
        UpdateKeepsPositive(cart, productId, quantity);
      }
      cart := SetQuantity(cart, productId, quantity);
    }

    method ToggleWishlist(productId: string)
      requires Valid()
      modifies this
      ensures Valid()
      ensures wishlist == Toggle(old(wishlist), productId) && cart == old(cart)
      ensures productId in wishlist <==> productId !in old(wishlist)
    {
      ToggleKeepsNoDup(wishlist, productId);
      wishlist := Toggle(wishlist, productId);
    }
  }
}
