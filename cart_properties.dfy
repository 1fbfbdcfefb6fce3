/** What the three cart handlers promise, proved about the rules in CartRules. */
module CartProperties {
  import opened CartRules

  /** Every entry holds at least one unit. */
  predicate AmountsPositive(cart: seq<Product>) {
    forall i :: 0 <= i < |cart| ==> cart[i].amount >= 1
  }

  // ---------------------------------------------------------------- find

  /** In a cart whose ids are distinct, `find` returns the one entry with that id. */
  lemma {:induction false} FindDistinct(cart: seq<Product>, k: int)
    requires DistinctIds(cart)
    requires 0 <= k < |cart|
    ensures Find(cart, cart[k].id) == Some(cart[k])
  {
    if k > 0 {
      assert DistinctIds(cart[1..]) by {
        forall i, j | 0 <= i < j < |cart[1..]| ensures cart[1..][i].id != cart[1..][j].id {
          assert cart[1..][i] == cart[i + 1] && cart[1..][j] == cart[j + 1];
        }
      }
      FindDistinct(cart[1..], k - 1);
      assert cart[0].id != cart[k].id;
    }
  }

  // ---------------------------------------------------------------- addProduct

  /** A product not yet in the cart, with stock left, is appended once with amount 1;
      every earlier entry stays where and as it was. The appended entry is the catalog
      reply as it comes, whatever id it carries. */
  lemma AddNewAppends(cart: seq<Product>, productId: int, product: Product, stock: int)
    requires !HasId(cart, productId)
    requires stock > 0
    ensures AddProduct(cart, productId, Got(Some(product)), Got(Stock(stock)))
         == Step(Ok, cart + [product.(amount := 1)])
  {
  }

  /** A product already in the cart, with stock above its amount, goes up by exactly
      one and stays within the stock; length, order and every other entry are kept. */
  lemma AddExistingIncrements(cart: seq<Product>, k: int, product: Product, stock: int)
    requires DistinctIds(cart)
    requires 0 <= k < |cart|
    requires stock > cart[k].amount
    ensures var r := AddProduct(cart, cart[k].id, Got(Some(product)), Got(Stock(stock)));
      && r.outcome == Ok
      && |r.cart| == |cart|
      && r.cart[k] == cart[k].(amount := cart[k].amount + 1)
      && r.cart[k].amount <= stock
      && forall j :: 0 <= j < |cart| && j != k ==> r.cart[j] == cart[j]
  {
    FindDistinct(cart, k);
  }

  /** A product already in the cart whose stock does not exceed its amount is refused
      as out of stock and the cart is left as it was. */
  lemma AddExistingOutOfStock(cart: seq<Product>, k: int, product: Product, stock: int)
    requires DistinctIds(cart)
    requires 0 <= k < |cart|
    requires stock <= cart[k].amount
    ensures AddProduct(cart, cart[k].id, Got(Some(product)), Got(Stock(stock))) == Step(OutOfStock, cart)
  {
    FindDistinct(cart, k);
  }

  /** A product not in the cart with no stock is refused as out of stock. */
  lemma AddNewOutOfStock(cart: seq<Product>, productId: int, product: Product, stock: int)
    requires !HasId(cart, productId)
    requires stock <= 0
    ensures AddProduct(cart, productId, Got(Some(product)), Got(Stock(stock))) == Step(OutOfStock, cart)
  {
  }

  /** A stock body without an `amount` fails every comparison: a non-empty catalog
      reply is refused as out of stock, and so is a positive update. */
  lemma MissingAmountIsOutOfStock(cart: seq<Product>, productId: int, product: Product, amount: int)
    requires amount > 0
    ensures AddProduct(cart, productId, Got(Some(product)), Got(MissingAmount)) == Step(OutOfStock, cart)
    ensures UpdateProductAmount(cart, productId, amount, Got(MissingAmount)) == Step(OutOfStock, cart)
  {
  }

  /** A null stock body throws only where its `amount` is read: after a non-empty
      catalog reply, or for a positive update. Elsewhere the handler returns silently. */
  lemma NullStockBody(cart: seq<Product>, productId: int, product: Product, amount: int)
    ensures AddProduct(cart, productId, Got(Some(product)), Got(NullBody)) == Step(AddFailed, cart)
    ensures AddProduct(cart, productId, Got(None), Got(NullBody)) == Step(NoOp, cart)
    ensures UpdateProductAmount(cart, productId, amount, Got(NullBody))
         == Step(if amount > 0 then UpdateFailed else NoOp, cart)
  {
  }

  /** Ids stay distinct across addProduct, as long as the catalog answers for the id
      asked: an entry is appended only when `find` found none. */
  lemma AddKeepsIdsDistinct(cart: seq<Product>, productId: int, product: Fetch<Option<Product>>,
                            stock: Fetch<StockBody>)
    requires DistinctIds(cart)
    requires Answers(product, productId)
    ensures DistinctIds(AddProduct(cart, productId, product, stock).cart)
  {
    var r := AddProduct(cart, productId, product, stock);
    if r.outcome == Ok && !HasId(cart, productId) {
      assert r.cart == cart + [product.data.value.(amount := 1)];
      forall i, j | 0 <= i < j < |r.cart| ensures r.cart[i].id != r.cart[j].id {
        if j == |cart| {
          assert r.cart[i] == cart[i];
        }
      }
    } else if r.outcome == Ok {
      assert forall i :: 0 <= i < |cart| ==> r.cart[i].id == cart[i].id;
    }
  }

  // ---------------------------------------------------------------- removeProduct

  /** Filtering out an id that is absent changes nothing. */
  lemma {:induction false} WithoutAbsent(cart: seq<Product>, id: int)
    requires !HasId(cart, id)
    ensures Without(cart, id) == cart
  {
    if cart != [] {
      assert cart[0].id != id;
      assert !HasId(cart[1..], id) by {
        forall i | 0 <= i < |cart[1..]| ensures cart[1..][i].id != id {
          assert cart[1..][i] == cart[i + 1];
        }
      }
      WithoutAbsent(cart[1..], id);
      assert [cart[0]] + cart[1..] == cart;
    }
  }

  /** Filtering distributes over concatenation: it keeps the relative order. */
  lemma {:induction false} WithoutConcat(a: seq<Product>, b: seq<Product>, id: int)
    ensures Without(a + b, id) == Without(a, id) + Without(b, id)
  {
    if a != [] {
      assert (a + b)[1..] == a[1..] + b;
      WithoutConcat(a[1..], b, id);
    } else {
      assert a + b == b;
    }
  }

  /** Removing an id that is present in a cart with distinct ids drops exactly that
      entry, keeping the others in their order. */
  lemma RemovePresent(cart: seq<Product>, k: int)
    requires DistinctIds(cart)
    requires 0 <= k < |cart|
    ensures RemoveProduct(cart, cart[k].id) == Step(Ok, cart[..k] + cart[k + 1..])
  {
    var id := cart[k].id;
    assert cart == cart[..k] + ([cart[k]] + cart[k + 1..]);
    WithoutConcat(cart[..k], [cart[k]] + cart[k + 1..], id);
    WithoutConcat([cart[k]], cart[k + 1..], id);
    assert !HasId(cart[..k], id) by {
      forall i | 0 <= i < k ensures cart[..k][i].id != id {
        assert cart[..k][i] == cart[i];
      }
    }
    var tail := cart[k + 1..];
    assert !HasId(tail, id) by {
      forall i | 0 <= i < |tail| ensures tail[i].id != id {
        assert tail[i] == cart[k + 1 + i];
      }
    }
    WithoutAbsent(cart[..k], id);
    WithoutAbsent(tail, id);
    assert Without([cart[k]], id) == [] by {
      assert [cart[k]][1..] == [];
    }
  }

  /** Removing an absent id is an error and leaves the cart as it was. */
  lemma RemoveAbsent(cart: seq<Product>, productId: int)
    requires !HasId(cart, productId)
    ensures RemoveProduct(cart, productId) == Step(RemoveFailed, cart)
  {
  }

  /** Ids stay distinct across removeProduct. */
  lemma {:induction false} WithoutKeepsIdsDistinct(cart: seq<Product>, id: int)
    requires DistinctIds(cart)
    ensures DistinctIds(Without(cart, id))
  {
    if cart != [] {
      assert DistinctIds(cart[1..]) by {
        forall i, j | 0 <= i < j < |cart[1..]| ensures cart[1..][i].id != cart[1..][j].id {
          assert cart[1..][i] == cart[i + 1] && cart[1..][j] == cart[j + 1];
        }
      }
      WithoutKeepsIdsDistinct(cart[1..], id);
      var rest := Without(cart[1..], id);
      if cart[0].id != id {
        forall j | 0 <= j < |rest| ensures rest[j].id != cart[0].id {
          assert rest[j] in cart[1..];
        }
        var r := [cart[0]] + rest;
        forall i, j | 0 <= i < j < |r| ensures r[i].id != r[j].id {
          if i > 0 {
            assert r[i] == rest[i - 1] && r[j] == rest[j - 1];
          }
        }
      }
    }
  }

  /** Adding a new product and then removing it gives back the original cart. */
  lemma AddNewThenRemove(cart: seq<Product>, product: Product, stock: int)
    requires !HasId(cart, product.id)
    requires stock > 0
    ensures var added := AddProduct(cart, product.id, Got(Some(product)), Got(Stock(stock)));
      RemoveProduct(added.cart, product.id) == Step(Ok, cart)
  {
    var entry := product.(amount := 1);
    WithoutConcat(cart, [entry], product.id);
    WithoutAbsent(cart, product.id);
    assert Without([entry], product.id) == [] by {
      assert [entry][1..] == [];
    }
  }

  /** A second removal of the same id is the removal error and changes nothing. */
  lemma RemoveTwice(cart: seq<Product>, productId: int)
    ensures var once := RemoveProduct(cart, productId);
      RemoveProduct(once.cart, productId) == Step(RemoveFailed, once.cart)
  {
  }

  // ---------------------------------------------------------------- updateProductAmount

  /** A positive amount within stock is written into every entry with that id; all
      other entries are unchanged. */
  lemma UpdateWithinStock(cart: seq<Product>, productId: int, amount: int, stock: int)
    requires 0 < amount <= stock
    ensures var r := UpdateProductAmount(cart, productId, amount, Got(Stock(stock)));
      && r.outcome == Ok
      && |r.cart| == |cart|
      && (forall j :: 0 <= j < |cart| && cart[j].id == productId ==>
            r.cart[j] == cart[j].(amount := amount))
      && (forall j :: 0 <= j < |cart| && cart[j].id != productId ==> r.cart[j] == cart[j])
  {
  }

  /** An id not in the cart leaves it unchanged, whatever the outcome. */
  lemma UpdateAbsent(cart: seq<Product>, productId: int, amount: int, stock: Fetch<StockBody>)
    requires !HasId(cart, productId)
    ensures UpdateProductAmount(cart, productId, amount, stock).cart == cart
  {
    var r := UpdateProductAmount(cart, productId, amount, stock);
    if r.outcome == Ok {
      forall j | 0 <= j < |cart| ensures r.cart[j] == cart[j] {
        assert cart[j].id != productId;
      }
    }
  }

  /** A non-positive amount is ignored without a report once the stock has arrived. */
  lemma UpdateNonPositive(cart: seq<Product>, productId: int, amount: int, stock: int)
    requires amount <= 0
    ensures UpdateProductAmount(cart, productId, amount, Got(Stock(stock))) == Step(NoOp, cart)
  {
  }

  /** Setting the same amount twice is the same as setting it once. */
  lemma UpdateIdempotent(cart: seq<Product>, productId: int, amount: int, stock: Fetch<StockBody>)
    ensures var once := UpdateProductAmount(cart, productId, amount, stock);
      UpdateProductAmount(once.cart, productId, amount, stock).cart == once.cart
  {
  }

  /** Ids stay distinct across updateProductAmount. */
  lemma UpdateKeepsIdsDistinct(cart: seq<Product>, productId: int, amount: int, stock: Fetch<StockBody>)
    requires DistinctIds(cart)
    ensures DistinctIds(UpdateProductAmount(cart, productId, amount, stock).cart)
  {
    var r := UpdateProductAmount(cart, productId, amount, stock);
    assert forall i :: 0 <= i < |cart| ==> r.cart[i].id == cart[i].id;
  }

  // ---------------------------------------------------------------- all handlers

  /** No handler ever leaves an entry with fewer than one unit behind. */
  lemma StepsKeepAmountsPositive(cart: seq<Product>, productId: int,
                                 product: Fetch<Option<Product>>, stock: Fetch<StockBody>, amount: int)
    requires AmountsPositive(cart)
    ensures AmountsPositive(AddProduct(cart, productId, product, stock).cart)
    ensures AmountsPositive(RemoveProduct(cart, productId).cart)
    ensures AmountsPositive(UpdateProductAmount(cart, productId, amount, stock).cart)
  {
    var removed := RemoveProduct(cart, productId).cart;
    forall i | 0 <= i < |removed| ensures removed[i].amount >= 1 {
      assert removed[i] in cart;
    }
  }

  // ---------------------------------------------------------------- worked cases

  /** cart = [{id: 1, amount: 1}], stock(1) = 5: addProduct(1) gives [{id: 1, amount: 2}]. */
  lemma ScenarioIncrement(title: string, image: string, price: real)
    ensures var entry := Product(1, title, image, price, 1);
      AddProduct([entry], 1, Got(Some(entry)), Got(Stock(5))) == Step(Ok, [entry.(amount := 2)])
  {
  }

  /** cart = [], stock(2) = 0: addProduct(2) is refused and the cart stays empty. */
  lemma ScenarioNoStock(product: Product)
    requires product.id == 2
    ensures AddProduct([], 2, Got(Some(product)), Got(Stock(0))) == Step(OutOfStock, [])
  {
  }
}
