/** CartProvider of src/hooks/useCart.tsx as a stateful object. The cart state holds
    references to product records; the handlers' `map` callbacks change those records'
    amounts in place, and every committed change overwrites the '@RocketShoes:cart'
    storage entry with the JSON image of an array of them. */
module UseCart {
  import opened CartRules

  /** A product object as it lives in the cart state. Only `amount` is ever written. */
  class ProductRecord {
    const id: int
    const title: string
    const image: string
    const price: real
    var amount: int

    constructor (p: Product)
      ensures View() == p
    {
      id, title, image, price, amount := p.id, p.title, p.image, p.price, p.amount;
    }

    /** The record's fields as a value. */
    function View(): Product
      reads this
    {
      Product(id, title, image, price, amount)
    }
  }

  /** The value `JSON.stringify` writes for an array of records (and `JSON.parse`
      reads back): each record's fields as they are at the moment of the call. */
  function Snapshot(records: seq<ProductRecord>): seq<Product>
    reads records
  {
    seq(|records|, i requires 0 <= i < |records| reads records => records[i].View())
  }

  /** No record appears twice in the array. */
  predicate Unaliased(records: seq<ProductRecord>) {
    forall i, j :: 0 <= i < j < |records| ==> records[i] != records[j]
  }

  /** `records.filter(product => product.id !== id)`: the same records, minus those
      with that id. */
  function Kept(records: seq<ProductRecord>, id: int): (r: seq<ProductRecord>)
    reads records
    ensures forall x :: x in r ==> x in records && x.id != id
    ensures Unaliased(records) ==> Unaliased(r)
  {
    if records == [] then []
    else
      var rest := Kept(records[1..], id);
      if records[0].id == id then rest
      else
        var tail := records[1..];
        assert Unaliased(records) ==> records[0] !in tail by {
          if Unaliased(records) {
            forall j | 0 <= j < |tail| ensures tail[j] != records[0] {
              assert tail[j] == records[j + 1];
            }
          }
        }
        [records[0]] + rest
  }

  /** The image of the filtered records is the filtered image of the records. */
  lemma {:induction false} KeptSnapshot(records: seq<ProductRecord>, id: int)
    ensures Snapshot(Kept(records, id)) == Without(Snapshot(records), id)
  {
    if records != [] {
      var rest := Kept(records[1..], id);
      KeptSnapshot(records[1..], id);
      assert Snapshot(records) == [records[0].View()] + Snapshot(records[1..]);
      if records[0].id != id {
        assert Snapshot([records[0]] + rest) == [records[0].View()] + Snapshot(rest);
      }
    }
  }

  /** `records.map(product => { if (product.id === id) product.amount += 1; return product; })`:
      the same array back, its matching records raised by one in place. */
  method MapIncrement(records: seq<ProductRecord>, id: int) returns (mapped: seq<ProductRecord>)
    requires Unaliased(records)
    modifies records
    ensures mapped == records
    ensures Snapshot(records) == Incremented(old(Snapshot(records)), id)
  {
    ghost var before := Snapshot(records);
    mapped := [];
    var i := 0;
    while i < |records|
      invariant 0 <= i <= |records|
      invariant mapped == records[..i]
      invariant forall k :: 0 <= k < i ==> records[k].View() == Incremented(before, id)[k]
      invariant forall k :: i <= k < |records| ==> records[k].View() == before[k]
    {
      var p := records[i];
      if p.id == id {
        p.amount := p.amount + 1;
      }
      mapped := mapped + [p];
      i := i + 1;
    }
  }

  /** `records.map(product => { if (product.id === id) product.amount = amount; return product; })`:
      the same array back, its matching records set to `amount` in place. */
  method MapSetAmount(records: seq<ProductRecord>, id: int, amount: int) returns (mapped: seq<ProductRecord>)
    requires Unaliased(records)
    modifies records
    ensures mapped == records
    ensures Snapshot(records) == WithAmount(old(Snapshot(records)), id, amount)
  {
    ghost var before := Snapshot(records);
    mapped := [];
    var i := 0;
    while i < |records|
      invariant 0 <= i <= |records|
      invariant mapped == records[..i]
      invariant forall k :: 0 <= k < i ==> records[k].View() == WithAmount(before, id, amount)[k]
      invariant forall k :: i <= k < |records| ==> records[k].View() == before[k]
    {
      var p := records[i];
      if p.id == id {
        p.amount := amount;
      }
      mapped := mapped + [p];
      i := i + 1;
    }
  }

  /** What a handler reports once its rule has run: a committed change whose storage
      write throws (`localStorage.setItem` over quota, or storage blocked) reaches the
      handler's catch branch and shows its generic error. */
  function Reported(rule: Outcome, storageAccepts: bool, failure: Outcome): (o: Outcome)
    requires failure != Ok
    ensures o == Ok <==> rule == Ok && storageAccepts
    ensures o != rule ==> o == failure && rule == Ok
  {
    if rule == Ok && !storageAccepts then failure else rule
  }

  class CartProvider {
    /** The `cart` state of the provider. */
    var cart: seq<ProductRecord>
    /** The '@RocketShoes:cart' entry of localStorage, as the value it parses to;
        None while nothing has been written under that key. */
    var stored: Option<seq<Product>>

    /** The records in the cart are distinct objects. */
    ghost predicate Valid()
      reads this
    {
      Unaliased(cart)
    }

    /** Storage holds the cart's current image, or nothing at all while the cart is
        still empty. Every handler keeps this as long as its storage write succeeds. */
    ghost predicate Persisted()
      reads this, cart
    {
      if stored.None? then cart == [] else stored.value == Snapshot(cart)
    }

    /** The cart as the user sees it. */
    ghost function Contents(): seq<Product>
      reads this, cart
    {
      Snapshot(cart)
    }

    /** The `useState` initialiser: the stored cart if the key is present, else []. */
    constructor (storage: Option<seq<Product>>)
      ensures Valid() && Persisted()
      ensures stored == storage
      ensures Contents() == if storage.Some? then storage.value else []
      ensures forall i :: 0 <= i < |cart| ==> fresh(cart[i])
    {
      var records: seq<ProductRecord> := [];
      if storage.Some? {
        var i := 0;
        while i < |storage.value|
          invariant 0 <= i <= |storage.value|
          invariant |records| == i
          invariant forall k :: 0 <= k < i ==> records[k].View() == storage.value[k]
          invariant Unaliased(records)
          invariant forall k :: 0 <= k < |records| ==> fresh(records[k])
        {
          var r := new ProductRecord(storage.value[i]);
          records := records + [r];
          i := i + 1;
        }
      }
      cart := records;
      stored := storage;
    }

    /** addProduct(productId), given the replies of the catalog and stock services and
        whether storage accepts the write. A refused write leaves the new cart in the
        state (setCart has run) and storage as it was. */
    method AddProduct(productId: int, product: Fetch<Option<Product>>, stock: Fetch<StockBody>,
                      storageAccepts: bool)
      returns (outcome: Outcome)
      requires Valid()
      modifies this, cart
      ensures Valid()
      ensures Contents() == CartRules.AddProduct(old(Contents()), productId, product, stock).cart
      ensures outcome
           == Reported(CartRules.AddProduct(old(Contents()), productId, product, stock).outcome,
                       storageAccepts, AddFailed)
      ensures outcome == Ok ==> stored == Some(Contents())
      ensures outcome != Ok ==> stored == old(stored)
      ensures CartRules.AddProduct(old(Contents()), productId, product, stock).outcome != Ok ==>
                cart == old(cart)
      ensures storageAccepts && old(Persisted()) ==> Persisted()
      ensures forall i :: 0 <= i < |cart| ==> cart[i] in old(cart) || fresh(cart[i])
    {
      if product.Threw? || stock.Threw? {
        return AddFailed;
      }
      if product.data.None? {
        return NoOp;
      }
      if stock.data.NullBody? {
        // reading `stock.amount` throws
        return AddFailed;
      }
      var captured := cart;
      ghost var before := Snapshot(captured);
      var found := Find(Snapshot(captured), productId);
      if found.Some? {
        if stock.data.Stock? && stock.data.amount > found.value.amount {
          var next := MapIncrement(captured, productId);
          cart := next;
          if storageAccepts {
            // the source writes JSON.stringify(cart): the array it held before the map,
            // whose records the map has just changed
            stored := Some(Snapshot(captured));
            outcome := Ok;
          } else {
            outcome := AddFailed;
          }
        } else {
          outcome := OutOfStock;
        }
      } else {
        if stock.data.Stock? && stock.data.amount > 0 {
          var entry := new ProductRecord(product.data.value.(amount := 1));
          var next := captured + [entry];
          assert Snapshot(next) == before + [entry.View()];
          cart := next;
          if storageAccepts {
            stored := Some(Snapshot(next));
            outcome := Ok;
          } else {
            outcome := AddFailed;
          }
        } else {
          outcome := OutOfStock;
        }
      }
    }

    /** removeProduct(productId), given whether storage accepts the write. */
    method RemoveProduct(productId: int, storageAccepts: bool) returns (outcome: Outcome)
      requires Valid()
      modifies this
      ensures Valid()
      ensures Contents() == CartRules.RemoveProduct(old(Contents()), productId).cart
      ensures outcome
           == Reported(CartRules.RemoveProduct(old(Contents()), productId).outcome,
                       storageAccepts, RemoveFailed)
      ensures outcome == Ok ==> stored == Some(Contents())
      ensures outcome != Ok ==> stored == old(stored)
      ensures CartRules.RemoveProduct(old(Contents()), productId).outcome != Ok ==> cart == old(cart)
      ensures storageAccepts && old(Persisted()) ==> Persisted()
      ensures forall i :: 0 <= i < |cart| ==> cart[i] in old(cart)
    {
      if Find(Snapshot(cart), productId).Some? {
        var next := Kept(cart, productId);
        KeptSnapshot(cart, productId);
        cart := next;
        if storageAccepts {
          stored := Some(Snapshot(next));
          outcome := Ok;
        } else {
          outcome := RemoveFailed;
        }
      } else {
        outcome := RemoveFailed;
      }
    }

    /** updateProductAmount({ productId, amount }), given the reply of the stock service
        and whether storage accepts the write. */
    method UpdateProductAmount(productId: int, amount: int, stock: Fetch<StockBody>,
                               storageAccepts: bool)
      returns (outcome: Outcome)
      requires Valid()
      modifies this, cart
      ensures Valid()
      ensures Contents() == CartRules.UpdateProductAmount(old(Contents()), productId, amount, stock).cart
      ensures outcome
           == Reported(CartRules.UpdateProductAmount(old(Contents()), productId, amount, stock).outcome,
                       storageAccepts, UpdateFailed)
      ensures outcome == Ok ==> stored == Some(Contents())
      ensures outcome != Ok ==> stored == old(stored)
      ensures CartRules.UpdateProductAmount(old(Contents()), productId, amount, stock).outcome != Ok ==>
                cart == old(cart)
      ensures storageAccepts && old(Persisted()) ==> Persisted()
      ensures forall i :: 0 <= i < |cart| ==> cart[i] in old(cart)
    {
      if stock.Threw? {
        return UpdateFailed;
      }
      if amount > 0 {
        if stock.data.NullBody? {
          // reading `stock.amount` throws
          outcome := UpdateFailed;
        } else if stock.data.Stock? && stock.data.amount > 0 && stock.data.amount >= amount {
          var captured := cart;
          var next := MapSetAmount(captured, productId, amount);
          cart := next;
          if storageAccepts {
            // as in addProduct, the write serialises the array captured before the map
            stored := Some(Snapshot(captured));
            outcome := Ok;
          } else {
            outcome := UpdateFailed;
          }
        } else {
          outcome := OutOfStock;
        }
      } else {
        outcome := NoOp;
      }
    }
  }

  /** A page reload: a new provider initialised from what the old one left in storage
      shows the same cart, as long as every write so far was accepted. */
  method Reload(provider: CartProvider) returns (reloaded: CartProvider)
    requires provider.Persisted()
    ensures reloaded.Valid() && reloaded.Persisted()
    ensures reloaded.Contents() == provider.Contents()
  {
    reloaded := new CartProvider(provider.stored);
  }
}
