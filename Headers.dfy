/**
 * The header's cart modal: quantity edits, removal, the total, the append-only
 * add of a "frequently bought" lock, the cart badge and the user icon.
 */
module Headers {
  import opened Wrappers
  import opened Js
  import opened Storage
  import opened Cart

  /** The fields of a lock from the catalogue that the header reads. */
  datatype Lock = Lock(id: int, name: string, price: int, photos: seq<string>)

  /** `value || 1` on the number editor's value: null and 0 both become 1. */
  function QuantityInput(value: Option<int>): (q: int)
    ensures q != 0
    ensures value.Some? && value.value != 0 ==> q == value.value
    ensures value.None? || value == Some(0) ==> q == 1
  {
    if value.Some? && value.value != 0 then value.value else 1
  }

  /**
   * What the number editor of a line does: `QuantityChange(id, value || 1)`.
   * Every line with `id` gets the new quantity, never 0; nothing else changes.
   */
  function QuantityChange(prev: Cart, id: int, value: Option<int>): (r: Cart)
    ensures |r| == |prev| && Ids(r) == Ids(prev)
    ensures forall i :: 0 <= i < |prev| && prev[i].id == id ==>
              r[i] == prev[i].(quantity := QuantityInput(value)) && r[i].quantity != 0
    ensures forall i :: 0 <= i < |prev| && prev[i].id != id ==> r[i] == prev[i]
  {
    SetQuantityKeepsIds(prev, id, QuantityInput(value));
    SetQuantity(prev, id, QuantityInput(value))
  }

  /** The header's `addToCart`: always appends a quantity-1 line, even for an id already present. */
  function AddToCart(prev: Cart, lock: Lock): (r: Cart)
    ensures |r| == |prev| + 1 && r[..|prev|] == prev
    ensures r[|prev|] == CartItem(lock.id, lock.name, lock.price, 1, CoverImage(lock.photos), None)
  {
    prev + [CartItem(lock.id, lock.name, lock.price, 1, CoverImage(lock.photos), None)]
  }

  /**
   * The contrast with merge-on-add: for an id already in the cart the append makes
   * a second line with that id, while merging keeps the length.
   */
  lemma AppendDuplicates(prev: Cart, lock: Lock)
    requires Contains(prev, lock.id)
    ensures !UniqueIds(AddToCart(prev, lock))
    ensures |AddToCart(prev, lock)| == |prev| + 1
    ensures |MergeAdd(prev, ItemInfo(lock.id, lock.name, lock.price, CoverImage(lock.photos), None))| == |prev|
  {
    var r := AddToCart(prev, lock);
    var i :| 0 <= i < |prev| && prev[i].id == lock.id;
    assert r[i].id == r[|prev|].id;
  }

  /** The badge on the cart icon: `cartItems.length`. */
  function BadgeCount(c: Cart): nat {
    |c|
  }

  /**
   * The badge counts lines, not items: after any sequence of merge-adds from the
   * empty cart it shows the number of distinct ids added, however often each was.
   */
  lemma BadgeAfterAdds(xs: seq<ItemInfo>)
    ensures BadgeCount(AddAll(xs)) == |Distinct(ItemIds(xs))|
  {
    AddAllTally(xs);
  }

  /** `UserClick`, as written: a stored `access_token` sends the user to /login, none to /profile. */
  function UserClick(local: Store): (route: string)
    ensures route == "/login" <==> Truthy(GetItem(local, AccessTokenKey))
    ensures route == "/profile" <==> !Truthy(GetItem(local, AccessTokenKey))
  {
    if Truthy(GetItem(local, AccessTokenKey)) then "/login" else "/profile"
  }
}
