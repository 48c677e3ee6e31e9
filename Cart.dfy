/**
 * The shopping cart's line items and the operations every component applies to
 * them. A cart is an ordered list of lines; the React state holding it is always
 * replaced by a new list, never mutated, so each operation is a function from the
 * old list to the new one.
 */
module Cart {
  import opened Wrappers

  /** One line of the cart: a product, its unit price and how many of it. */
  datatype CartItem = CartItem(id: int, name: string, price: int, quantity: int, image: string, gift: Option<string>)

  /** What an "add" receives: a cart item without its quantity. */
  datatype ItemInfo = ItemInfo(id: int, name: string, price: int, image: string, gift: Option<string>)

  type Cart = seq<CartItem>

  const Placeholder := "/placeholder.jpg"

  /** `photos[0] || "/placeholder.jpg"`: the first photo unless it is missing or empty. */
  function CoverImage(photos: seq<string>): (img: string)
    ensures |photos| > 0 && photos[0] != "" ==> img == photos[0]
    ensures |photos| == 0 || photos[0] == "" ==> img == Placeholder
  {
    if |photos| > 0 && photos[0] != "" then photos[0] else Placeholder
  }

  /** `{ ...item, quantity: 1 }`. */
  function NewLine(x: ItemInfo): CartItem {
    CartItem(x.id, x.name, x.price, 1, x.image, x.gift)
  }

  function Bumped(l: CartItem): CartItem {
    l.(quantity := l.quantity + 1)
  }

  /** `cart.find(line => line.id === id)` finds something. */
  predicate Contains(c: Cart, id: int) {
    exists i :: 0 <= i < |c| && c[i].id == id
  }

  /** The ids of the lines, in display order. */
  function Ids(c: Cart): (r: seq<int>)
    ensures |r| == |c|
    ensures forall i :: 0 <= i < |c| ==> r[i] == c[i].id
  {
    if c == [] then [] else [c[0].id] + Ids(c[1..])
  }

  /** No two lines share an id. */
  predicate UniqueIds(c: Cart) {
    forall i, j :: 0 <= i < j < |c| ==> c[i].id != c[j].id
  }

  // ------------------------------------------------------------ the maps

  /** `cart.map(l => l.id === id ? { ...l, quantity: l.quantity + 1 } : l)`. */
  function Bump(c: Cart, id: int): (r: Cart)
    ensures |r| == |c|
    ensures forall i :: 0 <= i < |c| ==> r[i] == if c[i].id == id then Bumped(c[i]) else c[i]
  {
    if c == [] then [] else [if c[0].id == id then Bumped(c[0]) else c[0]] + Bump(c[1..], id)
  }

  /** `cart.map(l => l.id === id ? { ...l, quantity: q } : l)`. */
  function SetQuantity(c: Cart, id: int, q: int): (r: Cart)
    ensures |r| == |c|
    ensures forall i :: 0 <= i < |c| ==> r[i] == if c[i].id == id then c[i].(quantity := q) else c[i]
  {
    if c == [] then [] else [if c[0].id == id then c[0].(quantity := q) else c[0]] + SetQuantity(c[1..], id, q)
  }

  /** `cart.filter(l => l.id !== id)`. */
  function Remove(c: Cart, id: int): (r: Cart)
    ensures |r| <= |c|
    ensures forall l :: l in r <==> l in c && l.id != id
    ensures !Contains(r, id)
  {
    if c == [] then [] else if c[0].id == id then Remove(c[1..], id) else [c[0]] + Remove(c[1..], id)
  }

  /**
   * Merge-on-add: a repeated id bumps the quantity of its line; a new id is
   * appended at the end with quantity 1.
   */
  function MergeAdd(c: Cart, x: ItemInfo): (r: Cart)
    ensures Contains(c, x.id) ==> |r| == |c|
    ensures Contains(c, x.id) ==>
              forall i :: 0 <= i < |c| ==> r[i] == if c[i].id == x.id then Bumped(c[i]) else c[i]
    ensures !Contains(c, x.id) ==> r == c + [NewLine(x)]
  {
    if Contains(c, x.id) then Bump(c, x.id) else c + [NewLine(x)]
  }

  // ------------------------------------------------------------ totals

  /** The reference total: the sum of price times quantity over the lines. */
  function Sum(c: Cart): int {
    if c == [] then 0 else c[0].price * c[0].quantity + Sum(c[1..])
  }

  /** `cart.reduce((acc, l) => acc + l.price * l.quantity, acc)`: a left fold. */
  function Reduce(acc: int, c: Cart): int
    decreases |c|
  {
    if c == [] then acc else Reduce(acc + c[0].price * c[0].quantity, c[1..])
  }

  lemma {:induction false} ReduceIsSum(acc: int, c: Cart)
    ensures Reduce(acc, c) == acc + Sum(c)
    decreases |c|
  {
    if c != [] {
      ReduceIsSum(acc + c[0].price * c[0].quantity, c[1..]);
    }
  }

  /** The cart total as the page computes it, a reduce starting from 0. */
  function Total(c: Cart): (t: int)
    ensures t == Sum(c)
    ensures c == [] ==> t == 0
  {
    ReduceIsSum(0, c);
    Reduce(0, c)
  }

  lemma {:induction false} SumAppend(a: Cart, b: Cart)
    ensures Sum(a + b) == Sum(a) + Sum(b)
  {
    if a == [] {
      assert a + b == b;
    } else {
      assert (a + b)[1..] == a[1..] + b;
      SumAppend(a[1..], b);
    }
  }

  /** The sum of the unit prices of the lines with `id`. */
  function PricesOf(c: Cart, id: int): int {
    if c == [] then 0 else (if c[0].id == id then c[0].price else 0) + PricesOf(c[1..], id)
  }

  /** Bumping every line with `id` raises the total by the unit prices of those lines. */
  lemma {:induction false} SumBump(c: Cart, id: int)
    ensures Sum(Bump(c, id)) == Sum(c) + PricesOf(c, id)
  {
    if c != [] {
      SumBump(c[1..], id);
      assert Bump(c, id)[1..] == Bump(c[1..], id);
    }
  }

  lemma {:induction false} PricesOfUnique(c: Cart, i: int)
    requires UniqueIds(c) && 0 <= i < |c|
    ensures PricesOf(c, c[i].id) == c[i].price
  {
    if i == 0 {
      PricesOfAbsent(c[1..], c[0].id);
    } else {
      PricesOfUnique(c[1..], i - 1);
    }
  }

  lemma {:induction false} PricesOfAbsent(c: Cart, id: int)
    requires !Contains(c, id)
    ensures PricesOf(c, id) == 0
  {
    if c != [] {
      assert c[0].id != id;
      assert !Contains(c[1..], id) by {
        forall k | 0 <= k < |c[1..]| ensures c[1..][k].id != id {
          assert c[1..][k] == c[k + 1];
        }
      }
      PricesOfAbsent(c[1..], id);
    }
  }

  /**
   * With one line per id, adding an id already present raises the total by the
   * price stored on its line (not the price passed in); a new id raises it by its
   * own price.
   */
  lemma MergeAddTotal(c: Cart, x: ItemInfo)
    requires UniqueIds(c)
    ensures forall i :: 0 <= i < |c| && c[i].id == x.id ==> Sum(MergeAdd(c, x)) == Sum(c) + c[i].price
    ensures !Contains(c, x.id) ==> Sum(MergeAdd(c, x)) == Sum(c) + x.price
  {
    if Contains(c, x.id) {
      SumBump(c, x.id);
      forall i | 0 <= i < |c| && c[i].id == x.id ensures PricesOf(c, x.id) == c[i].price {
        PricesOfUnique(c, i);
      }
    } else {
      SumAppend(c, [NewLine(x)]);
    }
  }

  // ------------------------------------------------- merge-add invariants

  /** Merge-add keeps one line per id. */
  lemma MergeAddKeepsUnique(c: Cart, x: ItemInfo)
    requires UniqueIds(c)
    ensures UniqueIds(MergeAdd(c, x))
  {
  }

  /** Re-adding an id already present neither moves any line nor changes the length. */
  lemma ReAddKeepsOrder(c: Cart, x: ItemInfo)
    requires Contains(c, x.id)
    ensures |MergeAdd(c, x)| == |c| && Ids(MergeAdd(c, x)) == Ids(c)
  {
  }

  /** The number of items in `xs` with `id`. */
  function Occurrences(xs: seq<ItemInfo>, id: int): nat {
    if xs == [] then 0 else Occurrences(xs[..|xs| - 1], id) + (if xs[|xs| - 1].id == id then 1 else 0)
  }

  function ItemIds(xs: seq<ItemInfo>): (r: seq<int>)
    ensures |r| == |xs|
    ensures forall i :: 0 <= i < |xs| ==> r[i] == xs[i].id
  {
    if xs == [] then [] else ItemIds(xs[..|xs| - 1]) + [xs[|xs| - 1].id]
  }

  /** `s` without repetitions, each element kept where it first occurs. */
  function Distinct(s: seq<int>): (r: seq<int>)
    ensures forall v :: v in r <==> v in s
  {
    if s == [] then []
    else
      var d := Distinct(s[..|s| - 1]);
      assert s == s[..|s| - 1] + [s[|s| - 1]];
      if s[|s| - 1] in d then d else d + [s[|s| - 1]]
  }

  /** The carts that the adds in `xs`, in order, build from the empty cart. */
  function AddAll(xs: seq<ItemInfo>): Cart {
    if xs == [] then [] else MergeAdd(AddAll(xs[..|xs| - 1]), xs[|xs| - 1])
  }

  lemma {:induction false} OccurrencesAbsent(xs: seq<ItemInfo>, id: int)
    requires id !in ItemIds(xs)
    ensures Occurrences(xs, id) == 0
  {
    if xs != [] {
      var init := xs[..|xs| - 1];
      assert ItemIds(xs) == ItemIds(init) + [xs[|xs| - 1].id];
      OccurrencesAbsent(init, id);
    }
  }

  lemma ContainsIds(c: Cart, id: int)
    ensures Contains(c, id) <==> id in Ids(c)
  {
    if Contains(c, id) {
      var i :| 0 <= i < |c| && c[i].id == id;
      assert Ids(c)[i] == id;
    }
  }

  /**
   * Starting from the empty cart, any sequence of merge-adds gives one line per
   * id, lines in order of each id's first add, and on each line a quantity equal
   * to the number of adds of its id.
   */
  lemma {:induction false} AddAllTally(xs: seq<ItemInfo>)
    ensures UniqueIds(AddAll(xs))
    ensures Ids(AddAll(xs)) == Distinct(ItemIds(xs))
    ensures forall i :: 0 <= i < |AddAll(xs)| ==> AddAll(xs)[i].quantity == Occurrences(xs, AddAll(xs)[i].id)
  {
    if xs != [] {
      var init := xs[..|xs| - 1];
      AddAllTally(init);
      TallyStepIds(xs, AddAll(init));
      TallyStepQuantities(xs, AddAll(init));
    }
  }

  /** The last add of `xs` keeps the ids of `AddAll` distinct and in first-add order. */
  lemma TallyStepIds(xs: seq<ItemInfo>, c: Cart)
    requires xs != []
    requires UniqueIds(c) && Ids(c) == Distinct(ItemIds(xs[..|xs| - 1]))
    ensures UniqueIds(MergeAdd(c, xs[|xs| - 1]))
    ensures Ids(MergeAdd(c, xs[|xs| - 1])) == Distinct(ItemIds(xs))
  {
    var x := xs[|xs| - 1];
    var r := MergeAdd(c, x);
    assert ItemIds(xs)[..|ItemIds(xs)| - 1] == ItemIds(xs[..|xs| - 1]);
    ContainsIds(c, x.id);
    if Contains(c, x.id) {
      assert Ids(r) == Ids(c);
    } else {
      assert Ids(r) == Ids(c) + [x.id];
    }
  }

  /** The last add of `xs` keeps each line's quantity equal to its id's count of adds. */
  lemma TallyStepQuantities(xs: seq<ItemInfo>, c: Cart)
    requires xs != []
    requires Ids(c) == Distinct(ItemIds(xs[..|xs| - 1]))
    requires forall i :: 0 <= i < |c| ==> c[i].quantity == Occurrences(xs[..|xs| - 1], c[i].id)
    ensures var r := MergeAdd(c, xs[|xs| - 1]);
      forall i :: 0 <= i < |r| ==> r[i].quantity == Occurrences(xs, r[i].id)
  {
    var init, x := xs[..|xs| - 1], xs[|xs| - 1];
    var r := MergeAdd(c, x);
    ContainsIds(c, x.id);
    if !Contains(c, x.id) {
      OccurrencesAbsent(init, x.id);
    }
    forall i | 0 <= i < |r| ensures r[i].quantity == Occurrences(xs, r[i].id) {
      if i < |c| {
        assert r[i].id == c[i].id;
      }
    }
  }

  /** Removing an id and adding it again starts a fresh line with quantity 1, at the end. */
  lemma RemoveThenAdd(c: Cart, x: ItemInfo)
    ensures MergeAdd(Remove(c, x.id), x) == Remove(c, x.id) + [NewLine(x)]
  {
  }

  /** `filter` distributes over concatenation, so the kept lines keep their relative order. */
  lemma {:induction false} RemoveAppend(a: Cart, b: Cart, id: int)
    ensures Remove(a + b, id) == Remove(a, id) + Remove(b, id)
  {
    if a == [] {
      assert a + b == b;
    } else {
      assert (a + b)[0] == a[0];
      assert (a + b)[1..] == a[1..] + b;
      RemoveAppend(a[1..], b, id);
    }
  }

  /** Removing an id that has no line changes nothing. */
  lemma {:induction false} RemoveAbsent(c: Cart, id: int)
    requires !Contains(c, id)
    ensures Remove(c, id) == c
  {
    if c != [] {
      assert c[0].id != id;
      assert !Contains(c[1..], id) by {
        forall k | 0 <= k < |c[1..]| ensures c[1..][k].id != id {
          assert c[1..][k] == c[k + 1];
        }
      }
      RemoveAbsent(c[1..], id);
      assert c == [c[0]] + c[1..];
    }
  }

  /** Editing a quantity keeps the ids, hence the order and the one-line-per-id invariant. */
  lemma SetQuantityKeepsIds(c: Cart, id: int, q: int)
    ensures Ids(SetQuantity(c, id, q)) == Ids(c)
    ensures UniqueIds(c) ==> UniqueIds(SetQuantity(c, id, q))
  {
  }
}
