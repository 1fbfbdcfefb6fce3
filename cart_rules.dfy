/** The rules of the RocketShoes cart (src/hooks/useCart.tsx) as functions on values.
    A cart is the sequence of Product entries in display order; each handler of
    CartProvider is a function from the current cart and the replies of the catalog
    and stock services to an outcome and the next cart. */
module CartRules {

  datatype Option<T> = None | Some(value: T)

  /** One cart entry as it is serialised to storage. Title, image and price are
      payload that the cart carries and never inspects. */
  datatype Product = Product(id: int, title: string, image: string, price: real, amount: int)

  /** The reply of a service call: the awaited request was rejected (network or HTTP
      error), or it resolved with the body `data`. */
  datatype Fetch<T> = Threw | Got(data: T)

  /** The body of a `stock/{id}` reply. Reading `amount` on a null or undefined body
      throws a TypeError; on a body without an `amount` field it gives undefined, and
      every comparison with undefined is false. */
  datatype StockBody = NullBody | MissingAmount | Stock(amount: int)

  /** What a handler reports. Every outcome but Ok and NoOp is a toast shown to the
      user; Ok is a committed change, NoOp a silent return. */
  datatype Outcome =
    | Ok
    | NoOp          // falsy catalog reply, or a non-positive requested amount
    | OutOfStock    // 'Quantidade solicitada fora de estoque'
    | AddFailed     // the generic error of addProduct
    | RemoveFailed  // the generic error of removeProduct
    | UpdateFailed  // the generic error of updateProductAmount

  /** The outcome of a handler together with the cart it leaves behind. */
  datatype Step = Step(outcome: Outcome, cart: seq<Product>)

  predicate HasId(cart: seq<Product>, id: int) {
    exists i :: 0 <= i < |cart| && cart[i].id == id
  }

  /** No two entries of the cart carry the same product id. */
  predicate DistinctIds(cart: seq<Product>) {
    forall i, j :: 0 <= i < j < |cart| ==> cart[i].id != cart[j].id
  }

  /** The catalog answered for the product that was asked for. */
  predicate Answers(product: Fetch<Option<Product>>, productId: int) {
    product.Got? && product.data.Some? ==> product.data.value.id == productId
  }

  /** `cart.find(product => product.id === productId)`: the first entry with that id. */
  function Find(cart: seq<Product>, id: int): (r: Option<Product>)
    ensures r.None? <==> !HasId(cart, id)
    ensures r.Some? ==> r.value.id == id
    ensures r.Some? ==> exists k :: 0 <= k < |cart| && cart[k] == r.value && !HasId(cart[..k], id)
  {
    if cart == [] then None
    else if cart[0].id == id then
      assert cart[0] == cart[0] && !HasId(cart[..0], id);
      Some(cart[0])
    else
      var r := Find(cart[1..], id);
      assert HasId(cart, id) ==> HasId(cart[1..], id) by {
        if HasId(cart, id) {
          var i :| 0 <= i < |cart| && cart[i].id == id;
          assert cart[1..][i - 1].id == id;
        }
      }
      if r.Some? then
        var k :| 0 <= k < |cart[1..]| && cart[1..][k] == r.value && !HasId(cart[1..][..k], id);
        assert cart[k + 1] == r.value;
        assert !HasId(cart[..k + 1], id) by {
          assert cart[..k + 1] == [cart[0]] + cart[1..][..k];
        }
        r
      else
        r
  }

  /** `cart.filter(product => product.id !== productId)`. */
  function Without(cart: seq<Product>, id: int): (r: seq<Product>)
    ensures forall p :: p in r <==> p in cart && p.id != id
    ensures |r| <= |cart|
  {
    if cart == [] then []
    else if cart[0].id == id then Without(cart[1..], id)
    else [cart[0]] + Without(cart[1..], id)
  }

  /** The values `cart.map` leaves behind when it runs `product.amount += 1` on every
      entry with that id. */
  function Incremented(cart: seq<Product>, id: int): seq<Product> {
    seq(|cart|, i requires 0 <= i < |cart| =>
      if cart[i].id == id then cart[i].(amount := cart[i].amount + 1) else cart[i])
  }

  /** The values `cart.map` leaves behind when it runs `product.amount = amount` on
      every entry with that id. */
  function WithAmount(cart: seq<Product>, id: int, amount: int): seq<Product> {
    seq(|cart|, i requires 0 <= i < |cart| =>
      if cart[i].id == id then cart[i].(amount := amount) else cart[i])
  }

  /** The amount of the entry `find` returns, or 0 when there is none. */
  function AmountInCart(cart: seq<Product>, id: int): int {
    match Find(cart, id)
    case Some(entry) => entry.amount
    case None => 0
  }

  /** addProduct(productId), given the replies of `products/{id}` and `stock/{id}`.
      Both requests resolve before anything is tested; the stock's `amount` is read
      only once the catalog reply is known to be non-empty. */
  function AddProduct(cart: seq<Product>, productId: int, product: Fetch<Option<Product>>,
                      stock: Fetch<StockBody>): (r: Step)
    ensures r.outcome == AddFailed <==>
      product.Threw? || stock.Threw? || (product.data.Some? && stock.data == NullBody)
    ensures r.outcome == NoOp <==> product == Got(None) && stock.Got?
    ensures r.outcome == Ok <==>
      && product.Got? && product.data.Some? && stock.Got? && stock.data.Stock?
      && stock.data.amount > AmountInCart(cart, productId)
    ensures r.outcome == OutOfStock <==>
      && product.Got? && product.data.Some? && stock.Got?
      && (stock.data == MissingAmount
          || (stock.data.Stock? && stock.data.amount <= AmountInCart(cart, productId)))
    ensures r.outcome != Ok ==> r.cart == cart
    ensures r.outcome == Ok ==> |r.cart| == |cart| + (if HasId(cart, productId) then 0 else 1)
    ensures r.outcome == Ok && Answers(product, productId) ==> HasId(r.cart, productId)
  {
    if product.Threw? || stock.Threw? then Step(AddFailed, cart)
    else if product.data.None? then Step(NoOp, cart)
    else if stock.data.NullBody? then Step(AddFailed, cart)  // `stock.amount` throws
    else
      match Find(cart, productId)
      case Some(entry) =>
        if stock.data.Stock? && stock.data.amount > entry.amount then
          var next := Incremented(cart, productId);
          assert HasId(next, productId) by {
            var k :| 0 <= k < |cart| && cart[k] == entry;
            assert next[k].id == productId;
          }
          Step(Ok, next)
        else Step(OutOfStock, cart)
      case None =>
        if stock.data.Stock? && stock.data.amount > 0 then
          var next := cart + [product.data.value.(amount := 1)];
          assert next[|cart|].id == product.data.value.id;
          Step(Ok, next)
        else Step(OutOfStock, cart)
  }

  /** removeProduct(productId): the new cart it commits, or the removal error for an
      absent id. A failing storage write is the only way to reach its catch branch,
      which shows the same error as an absent id; that write is a matter of the store
      (UseCart.CartProvider.RemoveProduct), not of the rule. */
  function RemoveProduct(cart: seq<Product>, productId: int): (r: Step)
    ensures r.outcome == Ok <==> HasId(cart, productId)
    ensures r.outcome != Ok ==> r == Step(RemoveFailed, cart)
    ensures r.outcome == Ok ==> |r.cart| < |cart| && !HasId(r.cart, productId)
  {
    if Find(cart, productId).Some? then
      var next := Without(cart, productId);
      var k :| 0 <= k < |cart| && cart[k].id == productId;
      assert cart[k] in cart && cart[k] !in next;
      assert |next| < |cart| by { WithoutShorter(cart, productId, k); }
      Step(Ok, next)
    else Step(RemoveFailed, cart)
  }

  lemma {:induction false} WithoutShorter(cart: seq<Product>, id: int, k: int)
    requires 0 <= k < |cart| && cart[k].id == id
    ensures |Without(cart, id)| < |cart|
  {
    if k > 0 {
      WithoutShorter(cart[1..], id, k - 1);
    }
  }

  /** updateProductAmount({ productId, amount }). The stock is fetched before the
      amount is looked at, so a rejected request is reported even for amount <= 0; the
      stock's `amount` is read only for a positive amount. */
  function UpdateProductAmount(cart: seq<Product>, productId: int, amount: int,
                               stock: Fetch<StockBody>): (r: Step)
    ensures r.outcome == UpdateFailed <==> stock.Threw? || (0 < amount && stock.data == NullBody)
    ensures r.outcome == NoOp <==> stock.Got? && amount <= 0
    ensures r.outcome == Ok <==> stock.Got? && stock.data.Stock? && 0 < amount <= stock.data.amount
    ensures r.outcome == OutOfStock <==>
      && stock.Got? && 0 < amount
      && (stock.data == MissingAmount || (stock.data.Stock? && stock.data.amount < amount))
    ensures r.outcome != Ok ==> r.cart == cart
    ensures |r.cart| == |cart|
  {
    if stock.Threw? then Step(UpdateFailed, cart)
    else if amount > 0 then
      if stock.data.NullBody? then Step(UpdateFailed, cart)  // `stock.amount` throws
      else if stock.data.Stock? && stock.data.amount > 0 && stock.data.amount >= amount then
        Step(Ok, WithAmount(cart, productId, amount))
      else Step(OutOfStock, cart)
    else Step(NoOp, cart)
  }
}
