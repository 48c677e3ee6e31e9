/**
 * The checkout page: the cart it opens with, its running total, the quantity
 * editor, and the order request `onFinish` builds from the cart and the form.
 */
module Order {
  import opened Wrappers
  import opened Js
  import opened Storage
  import opened Http
  import opened Cart

  /** `location.state?.cartItems || []`: None when there is no state or no cart in it. */
  function InitialCart(navCart: Option<Cart>): (c: Cart)
    ensures navCart.Some? ==> c == navCart.value
    ensures navCart.None? ==> c == []
  {
    navCart.GetOr([])
  }

  /** The page's state: the cart and the `total` the effect keeps. */
  datatype OrderPage = OrderPage(cart: Cart, total: int)

  /** The effect that runs after each change of the cart: `setTotal(reduce(...))`. */
  function TotalEffect(p: OrderPage): (r: OrderPage)
    ensures r.cart == p.cart && r.total == Sum(p.cart)
  {
    p.(total := Total(p.cart))
  }

  /** The page once mounted: the initial cart, and its total computed by the effect. */
  function Open(navCart: Option<Cart>): (p: OrderPage)
    ensures p.cart == InitialCart(navCart)
    ensures p.total == Sum(p.cart)
  {
    TotalEffect(OrderPage(InitialCart(navCart), 0))
  }

  /**
   * `handleInputNumberChange(value, id)`: null leaves the page as it is; a number,
   * any number, becomes the quantity of the lines with `id`, and the total is
   * recomputed. Length and order are kept.
   */
  function HandleInputNumberChange(p: OrderPage, value: Option<int>, id: int): (r: OrderPage)
    ensures value.None? ==> r == p
    ensures value.Some? ==> |r.cart| == |p.cart| && Ids(r.cart) == Ids(p.cart)
    ensures value.Some? ==> forall i :: 0 <= i < |p.cart| ==>
              r.cart[i] == if p.cart[i].id == id then p.cart[i].(quantity := value.value) else p.cart[i]
    ensures value.Some? || p.total == Sum(p.cart) ==> r.total == Sum(r.cart)
  {
    if value.None? then p
    else
      SetQuantityKeepsIds(p.cart, id, value.value);
      TotalEffect(p.(cart := SetQuantity(p.cart, id, value.value)))
  }

  // ------------------------------------------------------- the order request

  /** The form's values; a field the user never filled in is None. */
  datatype OrderForm = OrderForm(firstName: Option<string>, lastName: Option<string>, phone: Option<string>,
                                 email: Option<string>, city: Option<string>, branch: Option<string>,
                                 payment: Option<string>, installation: bool, comment: Option<string>,
                                 promoCode: Option<string>)

  datatype OrderLine = OrderLine(lockId: int, amount: int)
  datatype Customer = Customer(name: Option<string>, surname: Option<string>, phone: Option<string>, email: Option<string>)
  datatype PaymentType = WithCard | WithCash
  datatype OrderDetail = OrderDetail(city: string, branch: string, paymentType: PaymentType,
                                     setupLock: bool, installSoft: bool, comment: string)
  datatype OrderRequest = OrderRequest(orderLines: seq<OrderLine>, customerDto: Customer,
                                       orderDetailDto: OrderDetail, promoCode: string)

  /** `v || ""`. */
  function OrEmpty(v: Option<string>): string {
    v.GetOr("")
  }

  /** `cart.map(item => ({ lockId: item.id, amount: item.quantity }))`. */
  function OrderLines(c: Cart): (r: seq<OrderLine>)
    ensures |r| == |c|
    ensures forall i :: 0 <= i < |c| ==> r[i] == OrderLine(c[i].id, c[i].quantity)
  {
    if c == [] then [] else [OrderLine(c[0].id, c[0].quantity)] + OrderLines(c[1..])
  }

  /** `payment === "card" ? "WITH_CARD" : "WITH_CASH"`. */
  function PaymentTypeOf(payment: Option<string>): (t: PaymentType)
    ensures t == WithCard <==> payment == Some("card")
  {
    if payment == Some("card") then WithCard else WithCash
  }

  /**
   * `onFinish`'s request: one order line per cart line, in cart order; the
   * customer fields passed on as they are; missing city, branch, comment and promo
   * code sent as ""; the installation box sent as both `setupLock` and
   * `installSoft`. Nothing checks that the cart is non-empty.
   */
  function BuildOrder(c: Cart, f: OrderForm): (o: OrderRequest)
    ensures |o.orderLines| == |c|
    ensures forall i :: 0 <= i < |c| ==> o.orderLines[i].lockId == c[i].id && o.orderLines[i].amount == c[i].quantity
    ensures o.customerDto == Customer(f.firstName, f.lastName, f.phone, f.email)
    ensures f.city.Some? ==> o.orderDetailDto.city == f.city.value
    ensures f.city.None? ==> o.orderDetailDto.city == ""
    ensures f.branch.Some? ==> o.orderDetailDto.branch == f.branch.value
    ensures f.branch.None? ==> o.orderDetailDto.branch == ""
    ensures f.comment.Some? ==> o.orderDetailDto.comment == f.comment.value
    ensures f.comment.None? ==> o.orderDetailDto.comment == ""
    ensures f.promoCode.Some? ==> o.promoCode == f.promoCode.value
    ensures f.promoCode.None? ==> o.promoCode == ""
    ensures o.orderDetailDto.paymentType == WithCard <==> f.payment == Some("card")
    ensures o.orderDetailDto.setupLock == f.installation && o.orderDetailDto.installSoft == f.installation
  {
    OrderRequest(
      OrderLines(c),
      Customer(f.firstName, f.lastName, f.phone, f.email),
      OrderDetail(OrEmpty(f.city), OrEmpty(f.branch), PaymentTypeOf(f.payment), f.installation, f.installation,
                  OrEmpty(f.comment)),
      OrEmpty(f.promoCode))
  }

  /** A template literal's rendering of `getItem`'s result: null becomes "null". */
  function Interpolated(v: Option<string>): string {
    v.GetOr("null")
  }

  /**
   * The Authorization header the order request leaves with. The page sets
   * `Bearer <localStorage accessToken>`, which reads "Bearer null" when that key
   * is absent; the API instance's request interceptor then overwrites it whenever
   * local storage holds a non-empty `access_token`.
   */
  function SubmitAuthorization(local: Store): (h: string)
    ensures Truthy(GetItem(local, AccessTokenKey)) ==> h == Bearer(local[AccessTokenKey])
    ensures !Truthy(GetItem(local, AccessTokenKey)) && LocalAccessTokenKey in local ==>
              h == Bearer(local[LocalAccessTokenKey])
    ensures !Truthy(GetItem(local, AccessTokenKey)) && LocalAccessTokenKey !in local ==> h == "Bearer null"
  {
    var headers := map[AuthorizationHeader := Bearer(Interpolated(GetItem(local, LocalAccessTokenKey)))];
    WithBearer(headers, GetItem(local, AccessTokenKey))[AuthorizationHeader]
  }
}
