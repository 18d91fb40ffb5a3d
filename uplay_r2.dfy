/** The Uplay R2 hooks: the products the unlocker reports (the game's own
    app, then the configured DLCs, then the configured items), the product
    list it hands to the game, the "missing products" check run on the
    legitimate list, and the list's release. */
module UplayR2 {
  import opened Types

  /** C++ `unsigned int` / `uint32_t`. */
  type UInt32 = x: int | 0 <= x < 0x1_0000_0000

  /** UPC::ProductType. An enum variable can hold a value outside its
      enumerators; `Other(raw)` is such a value, and `raw` is never the value
      of App, DLC or Item. */
  datatype ProductType = App | Dlc | Item | Other(raw: UInt32)

  /** UPC::Product, reduced to the fields the unlocker sets or reads. */
  datatype Product = Product(appid: UInt32, productType: ProductType)

  /** productTypeToString: the enumerators by name, anything else as
      "Unexpected Type". */
  function ProductTypeToString(productType: ProductType): (name: string)
    ensures name == "App" <==> productType == App
    ensures name == "DLC" <==> productType == Dlc
    ensures name == "Item" <==> productType == Item
    ensures name == "Unexpected Type" <==> productType.Other?
  {
    match productType
    case App => "App"
    case Dlc => "DLC"
    case Item => "Item"
    case Other(_) => "Unexpected Type"
  }

  /** Each id as a product of type `productType`, in order. */
  function Tagged(ids: seq<UInt32>, productType: ProductType): (ps: seq<Product>)
    ensures |ps| == |ids|
    ensures forall k :: 0 <= k < |ids| ==> ps[k] == Product(ids[k], productType)
  {
    if ids == [] then [] else Tagged(ids[..|ids| - 1], productType) + [Product(ids[|ids| - 1], productType)]
  }

  /** The app ids of a product sequence. */
  function Appids(ps: seq<Product>): (ids: seq<UInt32>)
    ensures |ids| == |ps|
    ensures forall k :: 0 <= k < |ps| ==> ids[k] == ps[k].appid
  {
    if ps == [] then [] else Appids(ps[..|ps| - 1]) + [ps[|ps| - 1].appid]
  }

  /** What UPC_Init appends: the app itself, each DLC, each item. */
  function InitProducts(appID: UInt32, dlcs: seq<UInt32>, items: seq<UInt32>): seq<Product>
  {
    [Product(appID, App)] + Tagged(dlcs, Dlc) + Tagged(items, Item)
  }

  /** The appended products are exactly 1 + |dlcs| + |items| in number, the
      app first, then the DLCs in config order, then the items in config
      order, with no de-duplication. */
  lemma InitProductsLayout(appID: UInt32, dlcs: seq<UInt32>, items: seq<UInt32>)
    ensures var ps := InitProducts(appID, dlcs, items);
            && |ps| == 1 + |dlcs| + |items|
            && ps[0] == Product(appID, App)
            && (forall k :: 0 <= k < |dlcs| ==> ps[1 + k] == Product(dlcs[k], Dlc))
            && (forall k :: 0 <= k < |items| ==> ps[1 + |dlcs| + k] == Product(items[k], Item))
  {
  }

  /** Reading the ids back from the appended products gives the app id and
      the configured ids, unchanged and in order. */
  lemma InitProductsAppids(appID: UInt32, dlcs: seq<UInt32>, items: seq<UInt32>)
    ensures Appids(InitProducts(appID, dlcs, items)) == [appID] + dlcs + items
  {
  }

  /** The missing-products test of ProductListGetCallback: the appid is in
      neither config list and the product is not the app itself. */
  predicate IsMissing(p: Product, dlcs: seq<UInt32>, items: seq<UInt32>)
  {
    !(p.appid in dlcs || p.appid in items) && p.productType != App
  }

  /** The legitimate products that fail the test, in list order. */
  function MissingProducts(ps: seq<Product>, dlcs: seq<UInt32>, items: seq<UInt32>): (missing: seq<Product>)
    ensures |missing| <= |ps|
  {
    if ps == [] then []
    else
      var last := ps[|ps| - 1];
      MissingProducts(ps[..|ps| - 1], dlcs, items) + (if IsMissing(last, dlcs, items) then [last] else [])
  }

  /** A product is reported exactly when it is in the list and fails the
      test: configured ids and the app are never reported. */
  lemma {:induction false} MissingProductsMembers(ps: seq<Product>, dlcs: seq<UInt32>, items: seq<UInt32>)
    ensures forall p :: p in MissingProducts(ps, dlcs, items) <==> p in ps && IsMissing(p, dlcs, items)
  {
    if ps != [] {
      var init := ps[..|ps| - 1];
      MissingProductsMembers(init, dlcs, items);
      assert ps == init + [ps[|ps| - 1]];
    }
  }

  /** The filter works element by element, so it keeps the list order:
      the report for `a + b` is the report for `a`, then the one for `b`. */
  lemma {:induction false} MissingProductsAppend(a: seq<Product>, b: seq<Product>, dlcs: seq<UInt32>, items: seq<UInt32>)
    ensures MissingProducts(a + b, dlcs, items) == MissingProducts(a, dlcs, items) + MissingProducts(b, dlcs, items)
    decreases |b|
  {
    if b == [] {
      assert a + b == a;
    } else {
      var init := b[..|b| - 1];
      assert (a + b)[..|a + b| - 1] == a + init;
      MissingProductsAppend(a, init, dlcs, items);
    }
  }

  /** Among products the unlocker itself added (UPC_Init) with the same
      config, none is ever reported missing. */
  lemma InitProductsNeverMissing(appID: UInt32, dlcs: seq<UInt32>, items: seq<UInt32>)
    ensures MissingProducts(InitProducts(appID, dlcs, items), dlcs, items) == []
  {
    var ps := InitProducts(appID, dlcs, items);
    InitProductsLayout(appID, dlcs, items);
    forall p | p in ps
      ensures !IsMissing(p, dlcs, items)
    {
      var k :| 0 <= k < |ps| && ps[k] == p;
      if 1 <= k < 1 + |dlcs| {
        assert p == Product(dlcs[k - 1], Dlc);
      } else if 1 + |dlcs| <= k {
        assert ps[1 + |dlcs| + (k - 1 - |dlcs|)] == Product(items[k - 1 - |dlcs|], Item);
      }
    }
    NothingMissing(ps, dlcs, items);
  }

  /** A list in which every product passes the test reports nothing. */
  lemma {:induction false} NothingMissing(ps: seq<Product>, dlcs: seq<UInt32>, items: seq<UInt32>)
    requires forall p :: p in ps ==> !IsMissing(p, dlcs, items)
    ensures MissingProducts(ps, dlcs, items) == []
  {
    if ps != [] {
      var init := ps[..|ps| - 1];
      assert forall p :: p in init ==> p in ps;
      assert ps[|ps| - 1] in ps;
      NothingMissing(init, dlcs, items);
    }
  }

  /** UPC::ProductList: `length` products behind the `data` array. */
  class ProductList {
    var data: array<Product>
    var length: UInt32

    /** `new ProductList()`: no data and a length of zero. */
    constructor ()
      ensures data.Length == 0 && length == 0
    {
      data := new Product[0];
      length := 0;
    }

    predicate Valid()
      reads this
    {
      data.Length == length
    }

    /** The products of a valid list, in order. */
    function Contents(): seq<Product>
      reads this, data
      requires Valid()
    {
      data[..]
    }
  }

  /** UPC::CallbackContainer: what the hook keeps between UPC_ProductListGet
      and the callback; the original fills in `legitProductList`. */
  class CallbackContainer {
    const context: Addr
    const callback: Addr
    const callbackData: Addr
    var legitProductList: ProductList?

    constructor (context: Addr, callback: Addr, callbackData: Addr)
      ensures this.context == context && this.callback == callback && this.callbackData == callbackData
      ensures legitProductList == null
    {
      this.context := context;
      this.callback := callback;
      this.callbackData := callbackData;
      legitProductList := null;
    }
  }

  /** The callback handed to the original UPC_ProductListGet: the hook's own
      ProductListGetCallback, or a function of the game at some address. */
  datatype Callback = ProductListGetCallbackFn | GameFunction(address: Addr)

  /** What the hooks do outside their own state: calls to the original
      functions through their trampolines, the game's callback, and the
      memory they delete. */
  datatype Effect =
    | OriginalInit(version: UInt32, appID: UInt32)
    | OriginalProductListGet(context: Addr, userId: Addr, filter: UInt32, forwardedCallback: Callback, container: CallbackContainer)
    | OriginalProductListFree(context: Addr, list: ProductList)
    | GameCallback(callback: Addr, arg1: nat, callbackData: Addr)
    | DeletedProduct(list: ProductList, index: nat)
    | DeletedData(list: ProductList)
    | DeletedList(list: ProductList)
    | DeletedContainer(container: CallbackContainer)

  /** The original UPC functions reached through the trampoline map; their
      results are passed back to the game unchanged. */
  datatype Originals = Originals(
    init: (UInt32, UInt32) -> int,
    productListGet: (Addr, Addr, UInt32) -> int)

  /** What UPC_ProductListFree deletes for a non-null list: each element,
      then the array, then the list. */
  function FreeEffects(list: ProductList, length: UInt32): seq<Effect>
  {
    DeletedProducts(list, length) + [DeletedData(list), DeletedList(list)]
  }

  /** The element deletions of the first `n` entries, in index order. */
  function DeletedProducts(list: ProductList, n: nat): (r: seq<Effect>)
    ensures |r| == n
    ensures forall i :: 0 <= i < n ==> r[i] == DeletedProduct(list, i)
  {
    if n == 0 then [] else DeletedProducts(list, n - 1) + [DeletedProduct(list, n - 1)]
  }

  /** The translation unit's globals `products`, `dlcs` and `items`, and a
      trace of the hooks' effects. */
  class Globals {
    var products: seq<Product>
    var dlcs: seq<UInt32>
    var items: seq<UInt32>
    ghost var effects: seq<Effect>

    constructor (dlcs: seq<UInt32>, items: seq<UInt32>)
      ensures products == [] && this.dlcs == dlcs && this.items == items && effects == []
    {
      products := [];
      this.dlcs := dlcs;
      this.items := items;
      effects := [];
    }

    /** UPC_Init: append the app, each DLC and each item, then return what
        the original returns. */
    method Init(originals: Originals, version: UInt32, appID: UInt32) returns (r: int)
      modifies this`products, this`effects
      ensures products == old(products) + InitProducts(appID, dlcs, items)
      ensures effects == old(effects) + [OriginalInit(version, appID)]
      ensures r == originals.init(version, appID)
    {
      products := products + [Product(appID, App)];
      for k := 0 to |dlcs|
        invariant products == old(products) + [Product(appID, App)] + Tagged(dlcs[..k], Dlc)
        invariant effects == old(effects)
      {
        assert dlcs[..k + 1][..k] == dlcs[..k];
        products := products + [Product(dlcs[k], Dlc)];
      }
      assert dlcs[..|dlcs|] == dlcs;
      ghost var withDlcs := products;
      for k := 0 to |items|
        invariant products == withDlcs + Tagged(items[..k], Item)
        invariant effects == old(effects)
      {
        assert items[..k + 1][..k] == items[..k];
        products := products + [Product(items[k], Item)];
      }
      assert items[..|items|] == items;
      effects := effects + [OriginalInit(version, appID)];
      r := originals.init(version, appID);
    }

    /** UPC_ProductListGet: hand the game a fresh copy of `products`, and
        forward to the original with a container holding the game's context,
        callback and callback data, and ProductListGetCallback in place of
        the game's callback. The index is an `unsigned int`, so the loop
        ends only for fewer than 2^32 products. */
    method ProductListGet(originals: Originals, context: Addr, userId: Addr, filter: UInt32, callback: Addr, callbackData: Addr)
      returns (r: int, productList: ProductList, container: CallbackContainer)
      requires |products| < 0x1_0000_0000
      modifies this`effects
      ensures fresh(productList) && fresh(productList.data)
      ensures productList.Valid() && productList.length == |products|
      ensures productList.Contents() == products
      ensures fresh(container) && container.legitProductList == null
      ensures container.context == context && container.callback == callback && container.callbackData == callbackData
      ensures effects == old(effects) + [OriginalProductListGet(context, userId, filter, ProductListGetCallbackFn, container)]
      ensures r == originals.productListGet(context, userId, filter)
    {
      productList := new ProductList();
      var data := new Product[|products|];
      for i := 0 to |products|
        invariant data[..i] == products[..i]
        invariant effects == old(effects)
      {
        data[i] := products[i];
      }
      productList.data := data;
      productList.length := |products|;
      container := new CallbackContainer(context, callback, callbackData);
      effects := effects + [OriginalProductListGet(context, userId, filter, ProductListGetCallbackFn, container)];
      r := originals.productListGet(context, userId, filter);
    }

    /** ProductListGetCallback: report the legitimate products missing from
        the config, free the legitimate list through the original, call the
        game's callback with `arg1` and its own data, and delete the
        container. */
    method ProductListGetCallback(arg1: nat, container: CallbackContainer) returns (missing: seq<Product>)
      requires container.legitProductList != null && container.legitProductList.Valid()
      modifies this`effects
      ensures missing == MissingProducts(container.legitProductList.Contents(), dlcs, items)
      ensures effects == old(effects) + [
        OriginalProductListFree(container.context, container.legitProductList),
        GameCallback(container.callback, arg1, container.callbackData),
        DeletedContainer(container)]
    {
      var list := container.legitProductList;
      missing := CollectMissingProducts(list, dlcs, items);
      effects := effects + [OriginalProductListFree(container.context, list)];
      effects := effects + [GameCallback(container.callback, arg1, container.callbackData)];
      effects := effects + [DeletedContainer(container)];
    }

    /** UPC_ProductListFree: a null list is tolerated; otherwise each of the
        `length` elements is deleted, then the array, then the list. The
        result is always 0. */
    method ProductListFree(context: Addr, productList: ProductList?) returns (r: int)
      modifies this`effects
      ensures r == 0
      ensures effects == old(effects) + if productList == null then [] else FreeEffects(productList, productList.length)
    {
      if productList != null {
        for i := 0 to productList.length
          invariant effects == old(effects) + DeletedProducts(productList, i)
        {
          effects := effects + [DeletedProduct(productList, i)];
        }
        effects := effects + [DeletedData(productList)];
        effects := effects + [DeletedList(productList)];
      }
      r := 0;
    }
  }

  /** The loop of ProductListGetCallback over the legitimate list. */
  method CollectMissingProducts(list: ProductList, dlcs: seq<UInt32>, items: seq<UInt32>) returns (missing: seq<Product>)
    requires list.Valid()
    ensures missing == MissingProducts(list.Contents(), dlcs, items)
  {
    missing := [];
    for i := 0 to list.length
      invariant missing == MissingProducts(list.data[..i], dlcs, items)
    {
      var product := list.data[i];
      assert list.data[..i + 1][..i] == list.data[..i];
      if !(product.appid in dlcs || product.appid in items) {
        if product.productType != App {
          missing := missing + [product];
        }
      }
    }
    assert list.data[..list.length] == list.data[..];
  }
}
