/**
 * The product listing page: its own merge-on-add cart, the 12-per-page slice of
 * the product list, the "recently viewed" strip and the SALE badge.
 */
module Product {
  import opened Wrappers
  import opened Js
  import opened Cart

  datatype Product = Product(id: int, name: string, description: string, price: int, newPrice: int,
                             categoryId: int, hasGift: bool, photos: seq<string>)

  /** The item the page's `addToCart` adds: no gift, the cover photo as image. */
  function ItemOf(p: Product): ItemInfo {
    ItemInfo(p.id, p.name, p.price, CoverImage(p.photos), None)
  }

  /**
   * The page's `addToCart`: an id already present bumps only the quantity of its
   * line; a new id appends `{id, name, price, quantity: 1, image}`.
   */
  function AddToCart(prev: Cart, p: Product): (r: Cart)
    ensures Contains(prev, p.id) ==> |r| == |prev|
    ensures Contains(prev, p.id) ==>
              forall i :: 0 <= i < |prev| ==> r[i] == if prev[i].id == p.id then Bumped(prev[i]) else prev[i]
    ensures !Contains(prev, p.id) ==>
              r == prev + [CartItem(p.id, p.name, p.price, 1, CoverImage(p.photos), None)]
  {
    MergeAdd(prev, ItemOf(p))
  }

  /** The carts the page's adds build from its empty initial cart. */
  function AddAllProducts(ps: seq<Product>): Cart {
    if ps == [] then [] else AddToCart(AddAllProducts(ps[..|ps| - 1]), ps[|ps| - 1])
  }

  /** From the empty initial cart, every add keeps one line per id. */
  lemma {:induction false} AddsKeepOneLinePerId(ps: seq<Product>)
    ensures UniqueIds(AddAllProducts(ps))
  {
    if ps != [] {
      AddsKeepOneLinePerId(ps[..|ps| - 1]);
      MergeAddKeepsUnique(AddAllProducts(ps[..|ps| - 1]), ItemOf(ps[|ps| - 1]));
    }
  }

  // ------------------------------------------------------------ pagination

  const PageSize := 12

  /** `products.slice((page - 1) * 12, page * 12)`. */
  function Paginate<T>(products: seq<T>, page: int): (r: seq<T>)
    ensures page >= 1 ==> r == products[Min((page - 1) * PageSize, |products|)..Min(page * PageSize, |products|)]
    ensures page >= 1 ==> |r| <= PageSize
    ensures page == 0 ==> r == []
  {
    Slice(products, (page - 1) * PageSize, page * PageSize)
  }

  /** Pages 1 to k, one after the other. */
  function FirstPages<T>(products: seq<T>, k: nat): seq<T> {
    if k == 0 then [] else FirstPages(products, k - 1) + Paginate(products, k)
  }

  /**
   * Consecutive pages are disjoint and contiguous: pages 1..k laid end to end are
   * exactly the first min(12k, n) products, in order.
   */
  lemma {:induction false} PagesAreContiguous<T>(products: seq<T>, k: nat)
    ensures FirstPages(products, k) == products[..Min(k * PageSize, |products|)]
  {
    if k > 0 {
      PagesAreContiguous(products, k - 1);
      var n := |products|;
      var a, b := Min((k - 1) * PageSize, n), Min(k * PageSize, n);
      assert products[..a] + products[a..b] == products[..b];
    }
  }

  /** Product i is on page i / 12 + 1, at position i % 12. */
  lemma PageOfIndex<T>(products: seq<T>, i: int)
    requires 0 <= i < |products|
    ensures i % PageSize < |Paginate(products, i / PageSize + 1)|
    ensures Paginate(products, i / PageSize + 1)[i % PageSize] == products[i]
  {
    var p := i / PageSize;
    assert p * PageSize <= i < (p + 1) * PageSize;
  }

  /** The "recently viewed" strip: `products.slice(0, 4)`, the first min(4, n) in order. */
  function RecentlyViewed<T>(products: seq<T>): (r: seq<T>)
    ensures r == products[..Min(4, |products|)]
  {
    Slice(products, 0, 4)
  }

  // ------------------------------------------------------------ the card

  /** What a product card shows: the cover image, the price, the SALE badge and the struck-through price. */
  datatype ProductCard = ProductCard(image: string, price: int, saleBadge: bool, struckPrice: Option<int>)

  /**
   * A card of the strip. `newPrice < price` guards both the SALE badge and the
   * struck-through figure, so they appear together; the struck-through figure is
   * `newPrice`, the lower of the two, while `price` is the one shown in bold.
   */
  function Card(p: Product): (c: ProductCard)
    ensures c.saleBadge <==> p.newPrice < p.price
    ensures c.saleBadge <==> c.struckPrice.Some?
    ensures c.struckPrice.Some? ==> c.struckPrice.value == p.newPrice < c.price
    ensures c.price == p.price && c.image == CoverImage(p.photos)
  {
    var sale := p.newPrice < p.price;
    ProductCard(CoverImage(p.photos), p.price, sale, if sale then Some(p.newPrice) else None)
  }
}
