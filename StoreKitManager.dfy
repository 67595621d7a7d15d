/**
 * Product loading for a paywall: up to three caller-supplied substitute
 * products replace the paywall's primary, secondary and tertiary slots, the
 * remaining product ids are fetched from the store, and every product seen is
 * cached in the manager's `productsById`.
 */
module Products {
  import opened Wrappers

  /** A store product, by its identifier and the event data it renders to. */
  datatype SKProduct = SKProduct(productIdentifier: string, legacyEventData: map<string, string>)

  /** The slot a paywall product fills. */
  datatype ProductType = Primary | Secondary | Tertiary

  /** A paywall's reference to a product: its slot and its id. */
  datatype Product = Product(productType: ProductType, id: string)

  /** Caller overrides for the three slots. */
  datatype PaywallProducts = PaywallProducts(primary: Option<SKProduct>, secondary: Option<SKProduct>, tertiary: Option<SKProduct>)

  /** What `removeAndStore` hands back to `getProducts`. */
  datatype ProcessingResult = ProcessingResult(
    productIdsToLoad: set<string>,
    substituteProductsById: map<string, SKProduct>,
    products: seq<Product>)

  /** The parts of a paywall response that product loading reads. */
  datatype PaywallResponse = PaywallResponse(productIds: seq<string>, products: seq<Product>)

  /** A template variable: keyed by the product's slot, valued by the store product. */
  datatype Variable = Variable(key: ProductType, value: SKProduct)

  datatype FetchError = FetchError(reason: string)

  /** The store fetch (`productsManager.getProducts`): the products found, in iteration order, or a failure. */
  type Fetch = set<string> -> Result<seq<SKProduct>, FetchError>

  /**
   * `products[guarded: index] = x`: writes position `index` when it exists
   * and does nothing otherwise (the helper is not part of this model; this is
   * its assumed behaviour).
   */
  function SetGuarded<T>(s: seq<T>, index: nat, x: T): (r: seq<T>)
    ensures |r| == |s|
    ensures forall j :: 0 <= j < |s| ==> r[j] == if j == index then x else s[j]
  {
    if index < |s| then s[index := x] else s
  }

  /**
   * `remove(safeAt: index)`: removes position `index` when it exists and does
   * nothing otherwise (assumed behaviour of a helper not part of this model).
   */
  function RemoveSafe<T>(s: seq<T>, index: nat): (r: seq<T>)
    ensures index < |s| ==> |r| == |s| - 1 && r == s[..index] + s[index + 1..]
    ensures index >= |s| ==> r == s
    ensures forall x :: x in r ==> x in s
  {
    if index < |s| then s[..index] + s[index + 1..] else s
  }

  /** The three local variables `removeAndStore` updates. */
  datatype Working = Working(responseProductIds: seq<string>, substituteProductsById: map<string, SKProduct>, products: seq<Product>)

  /** One `storeAndSubstitute` call on the local variables. */
  function Substitute(w: Working, p: SKProduct, t: ProductType, index: nat): Working {
    var id := p.productIdentifier;
    Working(RemoveSafe(w.responseProductIds, index), w.substituteProductsById[id := p], SetGuarded(w.products, index, Product(t, id)))
  }

  function SubstituteIfPresent(w: Working, o: Option<SKProduct>, t: ProductType, index: nat): Working {
    match o
    case Some(p) => Substitute(w, p, t, index)
    case None => w
  }

  /** `substituteProducts?.primary` and friends, through the optional chain. */
  function PrimaryOf(subs: Option<PaywallProducts>): Option<SKProduct> {
    if subs.Some? then subs.value.primary else None
  }
  function SecondaryOf(subs: Option<PaywallProducts>): Option<SKProduct> {
    if subs.Some? then subs.value.secondary else None
  }
  function TertiaryOf(subs: Option<PaywallProducts>): Option<SKProduct> {
    if subs.Some? then subs.value.tertiary else None
  }

  function SetOf<T>(s: seq<T>): set<T> {
    set x | x in s
  }

  /** The local variables after the three slots were processed, in the order primary, secondary, tertiary. */
  function Processed(subs: Option<PaywallProducts>, ids: seq<string>, products: seq<Product>): (r: Working)
    ensures |r.products| == |products|
  {
    var w0 := Working(ids, map[], products);
    var w1 := SubstituteIfPresent(w0, PrimaryOf(subs), Primary, 0);
    var w2 := SubstituteIfPresent(w1, SecondaryOf(subs), Secondary, 1);
    SubstituteIfPresent(w2, TertiaryOf(subs), Tertiary, 2)
  }

  /** The specification of `removeAndStore`'s result. */
  function RemoveAndStoreSpec(subs: Option<PaywallProducts>, ids: seq<string>, products: seq<Product>): ProcessingResult {
    var w := Processed(subs, ids, products);
    ProcessingResult(SetOf(w.responseProductIds), w.substituteProductsById, w.products)
  }

  /** The substitute for the slot at `index` (0, 1 or 2), if the caller supplied one. */
  function SlotAt(subs: Option<PaywallProducts>, index: nat): Option<Product> {
    if index == 0 && PrimaryOf(subs).Some? then Some(Product(Primary, PrimaryOf(subs).value.productIdentifier))
    else if index == 1 && SecondaryOf(subs).Some? then Some(Product(Secondary, SecondaryOf(subs).value.productIdentifier))
    else if index == 2 && TertiaryOf(subs).Some? then Some(Product(Tertiary, TertiaryOf(subs).value.productIdentifier))
    else None
  }

  /** The supplied substitutes, in slot order. */
  function Supplied(subs: Option<PaywallProducts>): seq<SKProduct> {
    (if PrimaryOf(subs).Some? then [PrimaryOf(subs).value] else [])
    + (if SecondaryOf(subs).Some? then [SecondaryOf(subs).value] else [])
    + (if TertiaryOf(subs).Some? then [TertiaryOf(subs).value] else [])
  }

  /** With no substitutes, nothing is replaced: every response id is loaded and the product list is untouched. */
  lemma NoSubstitutes(subs: Option<PaywallProducts>, ids: seq<string>, products: seq<Product>)
    requires subs.None? || subs.value == PaywallProducts(None, None, None)
    ensures RemoveAndStoreSpec(subs, ids, products) == ProcessingResult(SetOf(ids), map[], products)
  {
  }

  /**
   * Each supplied substitute overwrites its own position of the product
   * list; every other position keeps the response's product.
   */
  lemma SlotsOverwritten(subs: Option<PaywallProducts>, ids: seq<string>, products: seq<Product>)
    ensures var r := RemoveAndStoreSpec(subs, ids, products);
      && |r.products| == |products|
      && forall j :: 0 <= j < |products| ==>
           r.products[j] == if SlotAt(subs, j).Some? then SlotAt(subs, j).value else products[j]
  {
  }

  /**
   * The substitute map holds exactly the supplied substitutes' ids, each
   * bound to a supplied product with that id (the later slot wins on a clash).
   */
  lemma SubstituteMapKeys(subs: Option<PaywallProducts>, ids: seq<string>, products: seq<Product>)
    ensures var r := RemoveAndStoreSpec(subs, ids, products);
      && r.substituteProductsById.Keys == (set p | p in Supplied(subs) :: p.productIdentifier)
      && forall id :: id in r.substituteProductsById ==>
           r.substituteProductsById[id] in Supplied(subs) && r.substituteProductsById[id].productIdentifier == id
  {
    var w0 := Working(ids, map[], products);
    var w1 := SubstituteIfPresent(w0, PrimaryOf(subs), Primary, 0);
    var w2 := SubstituteIfPresent(w1, SecondaryOf(subs), Secondary, 1);
    var w3 := SubstituteIfPresent(w2, TertiaryOf(subs), Tertiary, 2);
    var s1 := if PrimaryOf(subs).Some? then [PrimaryOf(subs).value] else [];
    var s2 := if SecondaryOf(subs).Some? then [SecondaryOf(subs).value] else [];
    var s3 := if TertiaryOf(subs).Some? then [TertiaryOf(subs).value] else [];
    assert MapFrom(w0.substituteProductsById, []);
    SlotMap(w0, PrimaryOf(subs), Primary, 0, []);
    assert [] + s1 == s1;
    SlotMap(w1, SecondaryOf(subs), Secondary, 1, s1);
    SlotMap(w2, TertiaryOf(subs), Tertiary, 2, s1 + s2);
    assert Supplied(subs) == s1 + s2 + s3;
  }

  /** `m` holds exactly the products of `ps`, each under its own id. */
  ghost predicate MapFrom(m: map<string, SKProduct>, ps: seq<SKProduct>) {
    && m.Keys == (set p | p in ps :: p.productIdentifier)
    && forall id :: id in m ==> m[id] in ps && m[id].productIdentifier == id
  }

  lemma SlotMap(w: Working, o: Option<SKProduct>, t: ProductType, index: nat, ps: seq<SKProduct>)
    requires MapFrom(w.substituteProductsById, ps)
    ensures MapFrom(SubstituteIfPresent(w, o, t, index).substituteProductsById, ps + (if o.Some? then [o.value] else []))
  {
    var qs := ps + (if o.Some? then [o.value] else []);
    assert forall p :: p in qs <==> p in ps || (o.Some? && p == o.value);
  }

  /** Ids still to be fetched are always among the response's ids. */
  lemma IdsToLoadFromResponse(subs: Option<PaywallProducts>, ids: seq<string>, products: seq<Product>)
    ensures RemoveAndStoreSpec(subs, ids, products).productIdsToLoad <= SetOf(ids)
  {
  }

  /**
   * The positions of the original id list that `removeAndStore` removes.
   * Each removal index (0, 1, 2) is counted in the list left by the
   * earlier removals, so it lands one original position further on for
   * every substitute before it.
   */
  function RemovedPositions(subs: Option<PaywallProducts>): set<int> {
    RemovedFor(PrimaryOf(subs).Some?, SecondaryOf(subs).Some?, TertiaryOf(subs).Some?)
  }

  function RemovedFor(primary: bool, secondary: bool, tertiary: bool): set<int> {
    var p := if primary then 1 else 0;
    var s := if secondary then 1 else 0;
    (if primary then {0} else {}) + (if secondary then {1 + p} else {}) + (if tertiary then {2 + p + s} else {})
  }

  /** `ids`, read as starting at position `base`, without the positions in `removed`. */
  function Drop(ids: seq<string>, removed: set<int>, base: int): seq<string> {
    if ids == [] then [] else (if base in removed then [] else [ids[0]]) + Drop(ids[1..], removed, base + 1)
  }

  /** What `Drop` keeps: exactly the ids at positions that are not removed. */
  lemma {:induction false} DropMembers(ids: seq<string>, removed: set<int>, base: int)
    ensures forall x :: x in Drop(ids, removed, base) <==> exists j :: 0 <= j < |ids| && base + j !in removed && ids[j] == x
  {
    if ids != [] {
      var rest := Drop(ids[1..], removed, base + 1);
      DropMembers(ids[1..], removed, base + 1);
      forall x | x in rest ensures exists j :: 1 <= j < |ids| && base + j !in removed && ids[j] == x {
        var j :| 0 <= j < |ids[1..]| && base + 1 + j !in removed && ids[1..][j] == x;
        assert ids[j + 1] == x;
      }
      forall x, j | 1 <= j < |ids| && base + j !in removed && ids[j] == x ensures x in rest {
        assert ids[1..][j - 1] == x;
      }
    }
  }

  /** The number of positions in `[base, o)` that are not removed. */
  function KeptBelow(removed: set<int>, base: int, o: int): nat
    decreases o - base
  {
    if base >= o then 0 else (if base in removed then 0 else 1) + KeptBelow(removed, base + 1, o)
  }

  lemma {:induction false} DropAgrees(ids: seq<string>, r1: set<int>, r2: set<int>, base: int)
    requires forall j :: base <= j ==> (j in r1 <==> j in r2)
    ensures Drop(ids, r1, base) == Drop(ids, r2, base)
  {
    if ids != [] {
      DropAgrees(ids[1..], r1, r2, base + 1);
    }
  }

  /**
   * One positional removal from a list that already lacks the positions in
   * `removed`, all of them before `o`: the index that reaches original
   * position `o` is the number of kept positions before it.
   */
  lemma {:induction false} DropRemoveAt(ids: seq<string>, removed: set<int>, base: int, o: int)
    requires base <= o && o !in removed
    requires forall j :: j in removed && base <= j ==> j < o
    ensures RemoveSafe(Drop(ids, removed, base), KeptBelow(removed, base, o)) == Drop(ids, removed + {o}, base)
  {
    if ids == [] {
    } else if base == o {
      DropRemoveHere(ids, removed, o);
    } else {
      DropRemoveAt(ids[1..], removed, base + 1, o);
      DropRemoveLift(ids, removed, base, o);
    }
  }

  /** The step of `DropRemoveAt` past a position before `o`, given the fact for the rest of the list. */
  lemma DropRemoveLift(ids: seq<string>, removed: set<int>, base: int, o: int)
    requires ids != [] && base < o
    requires RemoveSafe(Drop(ids[1..], removed, base + 1), KeptBelow(removed, base + 1, o))
             == Drop(ids[1..], removed + {o}, base + 1)
    ensures RemoveSafe(Drop(ids, removed, base), KeptBelow(removed, base, o)) == Drop(ids, removed + {o}, base)
  {
    if base in removed {
      DropRemoveSkipped(ids, removed, base, o);
    } else {
      DropRemoveKept(ids, removed, base, o);
    }
  }

  /** `DropRemoveLift` at a removed position: it adds nothing on either side. */
  lemma DropRemoveSkipped(ids: seq<string>, removed: set<int>, base: int, o: int)
    requires ids != [] && base < o && base in removed
    ensures KeptBelow(removed, base, o) == KeptBelow(removed, base + 1, o)
    ensures Drop(ids, removed, base) == Drop(ids[1..], removed, base + 1)
    ensures Drop(ids, removed + {o}, base) == Drop(ids[1..], removed + {o}, base + 1)
  {
    assert Drop(ids, removed, base) == [] + Drop(ids[1..], removed, base + 1);
    assert Drop(ids, removed + {o}, base) == [] + Drop(ids[1..], removed + {o}, base + 1);
  }

  /** `DropRemoveLift` at a kept position: its id stays in front and the removal index moves up by one. */
  lemma DropRemoveKept(ids: seq<string>, removed: set<int>, base: int, o: int)
    requires ids != [] && base < o && base !in removed
    requires RemoveSafe(Drop(ids[1..], removed, base + 1), KeptBelow(removed, base + 1, o))
             == Drop(ids[1..], removed + {o}, base + 1)
    ensures RemoveSafe(Drop(ids, removed, base), KeptBelow(removed, base, o)) == Drop(ids, removed + {o}, base)
  {
    var rest := Drop(ids[1..], removed, base + 1);
    var k := KeptBelow(removed, base + 1, o);
    assert KeptBelow(removed, base, o) == k + 1;
    assert Drop(ids, removed, base) == [ids[0]] + rest;
    assert Drop(ids, removed + {o}, base) == [ids[0]] + Drop(ids[1..], removed + {o}, base + 1);
    RemoveSafeCons(ids[0], rest, k);
  }

  lemma DropRemoveHere(ids: seq<string>, removed: set<int>, o: int)
    requires ids != [] && o !in removed
    requires forall j :: j in removed && o <= j ==> j < o
    ensures RemoveSafe(Drop(ids, removed, o), KeptBelow(removed, o, o)) == Drop(ids, removed + {o}, o)
  {
    assert KeptBelow(removed, o, o) == 0;
    assert Drop(ids, removed, o) == [ids[0]] + Drop(ids[1..], removed, o + 1);
    assert Drop(ids, removed + {o}, o) == Drop(ids[1..], removed + {o}, o + 1);
    DropAgrees(ids[1..], removed, removed + {o}, o + 1);
  }

  /** The removal index 1 reaches the position `RemovedFor` names for the secondary slot. */
  lemma SecondaryCount(removed: set<int>, o: int)
    requires (removed == {} && o == 1) || (removed == {0} && o == 2)
    ensures KeptBelow(removed, 0, o) == 1
  {
    assert KeptBelow(removed, o, o) == 0;
    assert KeptBelow(removed, o - 1, o) == 1;
    if o == 2 {
      assert KeptBelow(removed, 0, o) == 0 + KeptBelow(removed, 1, o);
    }
  }

  /** The removal index 2 reaches the position `RemovedFor` names for the tertiary slot. */
  lemma TertiaryCount(removed: set<int>, o: int)
    requires (removed == {} && o == 2) || (removed == {0} && o == 3) || (removed == {1} && o == 3) || (removed == {0, 2} && o == 4)
    ensures KeptBelow(removed, 0, o) == 2
  {
    assert KeptBelow(removed, o, o) == 0;
    assert KeptBelow(removed, o - 1, o) == 1;
    assert KeptBelow(removed, o - 2, o) == (if o - 2 in removed then 0 else 1) + 1;
    if o >= 3 {
      assert KeptBelow(removed, o - 3, o) == (if o - 3 in removed then 0 else 1) + KeptBelow(removed, o - 2, o);
    }
    if o == 4 {
      assert KeptBelow(removed, 0, o) == 0 + KeptBelow(removed, 1, o);
    }
  }

  lemma RemoveSafeCons<T>(x: T, rest: seq<T>, k: nat)
    ensures RemoveSafe([x] + rest, k + 1) == [x] + RemoveSafe(rest, k)
  {
    var l := [x] + rest;
    if k < |rest| {
      assert l[..k + 1] == [x] + rest[..k];
      assert l[k + 2..] == rest[k + 1..];
    }
  }

  lemma {:induction false} DropNothing(ids: seq<string>, base: int)
    ensures Drop(ids, {}, base) == ids
  {
    if ids != [] {
      DropNothing(ids[1..], base + 1);
    }
  }

  /** The id list after the three slots, given which substitutes are present. */
  function IdsAfterSlots(ids: seq<string>, primary: bool, secondary: bool, tertiary: bool): seq<string> {
    var i1 := if primary then RemoveSafe(ids, 0) else ids;
    var i2 := if secondary then RemoveSafe(i1, 1) else i1;
    if tertiary then RemoveSafe(i2, 2) else i2
  }

  lemma ProcessedIds(subs: Option<PaywallProducts>, ids: seq<string>, products: seq<Product>)
    ensures Processed(subs, ids, products).responseProductIds
            == IdsAfterSlots(ids, PrimaryOf(subs).Some?, SecondaryOf(subs).Some?, TertiaryOf(subs).Some?)
  {
  }

  lemma TertiaryRemoves(ids: seq<string>, primary: bool, secondary: bool, r2: set<int>)
    requires r2 == RemovedFor(primary, secondary, false)
    ensures RemoveSafe(Drop(ids, r2, 0), 2) == Drop(ids, RemovedFor(primary, secondary, true), 0)
  {
    if primary && secondary {
      assert r2 == {0, 2};
      TertiaryAt(ids, {0, 2}, 4, RemovedFor(primary, secondary, true));
    } else if primary {
      assert r2 == {0};
      TertiaryAt(ids, {0}, 3, RemovedFor(primary, secondary, true));
    } else if secondary {
      assert r2 == {1};
      TertiaryAt(ids, {1}, 3, RemovedFor(primary, secondary, true));
    } else {
      assert r2 == {};
      TertiaryAt(ids, {}, 2, RemovedFor(primary, secondary, true));
    }
  }

  lemma TertiaryAt(ids: seq<string>, r2: set<int>, o: int, r3: set<int>)
    requires (r2 == {} && o == 2) || (r2 == {0} && o == 3) || (r2 == {1} && o == 3) || (r2 == {0, 2} && o == 4)
    requires r3 == r2 + {o}
    ensures RemoveSafe(Drop(ids, r2, 0), 2) == Drop(ids, r3, 0)
  {
    TertiaryCount(r2, o);
    DropRemoveAt(ids, r2, 0, o);
  }

  /** Removal at the shrinking indices 0, 1 and 2 removes the original positions `RemovedFor` names. */
  lemma IdsAfterSlotsDrop(ids: seq<string>, primary: bool, secondary: bool, tertiary: bool)
    ensures IdsAfterSlots(ids, primary, secondary, tertiary) == Drop(ids, RemovedFor(primary, secondary, tertiary), 0)
  {
    var p := if primary then 1 else 0;
    var s := if secondary then 1 else 0;
    var r1: set<int> := if primary then {0} else {};
    var r2: set<int> := if primary && secondary then {0, 2} else if secondary then {1} else r1;
    DropNothing(ids, 0);
    var i1 := if primary then RemoveSafe(ids, 0) else ids;
    if primary {
      DropRemoveAt(ids, {}, 0, 0);
      assert {} + {0} == r1;
    }
    assert i1 == Drop(ids, r1, 0);
    var i2 := if secondary then RemoveSafe(i1, 1) else i1;
    if secondary {
      SecondaryCount(r1, 1 + p);
      DropRemoveAt(ids, r1, 0, 1 + p);
      assert r1 + {1 + p} == r2;
    }
    assert i2 == Drop(ids, r2, 0);
    if tertiary {
      TertiaryRemoves(ids, primary, secondary, r2);
    } else {
      assert r2 == RemovedFor(primary, secondary, tertiary);
    }
  }

  /**
   * For every combination of substitutes, the ids still to fetch are
   * exactly the ids at the original positions that were not removed.
   */
  lemma IdsToLoadExact(subs: Option<PaywallProducts>, ids: seq<string>, products: seq<Product>)
    ensures RemoveAndStoreSpec(subs, ids, products).productIdsToLoad
            == set j | 0 <= j < |ids| && j !in RemovedPositions(subs) :: ids[j]
  {
    ProcessedIds(subs, ids, products);
    IdsAfterSlotsDrop(ids, PrimaryOf(subs).Some?, SecondaryOf(subs).Some?, TertiaryOf(subs).Some?);
    DropMembers(ids, RemovedPositions(subs), 0);
  }

  /**
   * Removal is positional on a list that is already shorter: with all three
   * substitutes, the removed positions of the original id list are 0, 2 and
   * 4, so ids 1 and 3 are still fetched.
   */
  lemma AllThreeRemoveEvenPositions(p1: SKProduct, p2: SKProduct, p3: SKProduct, ids: seq<string>, products: seq<Product>)
    requires |ids| >= 5
    ensures RemoveAndStoreSpec(Some(PaywallProducts(Some(p1), Some(p2), Some(p3))), ids, products).productIdsToLoad
            == {ids[1], ids[3]} + SetOf(ids[5..])
  {
    var subs := Some(PaywallProducts(Some(p1), Some(p2), Some(p3)));
    ProcessedIds(subs, ids, products);
    AllThreeIds(ids);
    SetOfConcat([ids[1], ids[3]], ids[5..]);
  }

  lemma AllThreeIds(ids: seq<string>)
    requires |ids| >= 5
    ensures IdsAfterSlots(ids, true, true, true) == [ids[1], ids[3]] + ids[5..]
  {
    var i1 := RemoveSafe(ids, 0);
    assert i1 == ids[1..];
    var i2 := RemoveSafe(i1, 1);
    assert i1[..1] == [ids[1]] && i1[2..] == ids[3..];
    assert i2 == [ids[1]] + ids[3..];
    var i3 := RemoveSafe(i2, 2);
    assert i2[..2] == [ids[1], ids[3]] && i2[3..] == ids[5..];
    assert i3 == [ids[1], ids[3]] + ids[5..];
  }

  lemma SetOfConcat<T>(a: seq<T>, b: seq<T>)
    ensures SetOf(a + b) == SetOf(a) + SetOf(b)
  {
  }

  /** The worked example: all three substitutes over ids [a, b, c] leave only b to fetch. */
  lemma AllThreeOverThreeIds(p1: SKProduct, p2: SKProduct, p3: SKProduct, products: seq<Product>)
    ensures RemoveAndStoreSpec(Some(PaywallProducts(Some(p1), Some(p2), Some(p3))), ["a", "b", "c"], products).productIdsToLoad == {"b"}
  {
    assert RemoveSafe(["a", "b", "c"], 0) == ["b", "c"];
    assert RemoveSafe(["b", "c"], 1) == ["b"];
  }

  /** `m` with each product of `ps` written in turn under its identifier. */
  function Overlay(m: map<string, SKProduct>, ps: seq<SKProduct>): (r: map<string, SKProduct>)
    ensures r.Keys == m.Keys + (set p | p in ps :: p.productIdentifier)
  {
    if ps == [] then m
    else
      var last := ps[|ps| - 1];
      Overlay(m, ps[..|ps| - 1])[last.productIdentifier := last]
  }

  /**
   * A fetched product wins over the map on its id, and the map's entry
   * survives on every id that was not fetched.
   */
  lemma {:induction false} OverlayWins(m: map<string, SKProduct>, ps: seq<SKProduct>, id: string)
    ensures id in Overlay(m, ps)
    <==> id in m || exists p :: p in ps && p.productIdentifier == id
    ensures (exists p :: p in ps && p.productIdentifier == id) ==>
              Overlay(m, ps)[id] in ps && Overlay(m, ps)[id].productIdentifier == id
    ensures (forall p :: p in ps ==> p.productIdentifier != id) && id in m ==> Overlay(m, ps)[id] == m[id]
  {
    if ps != [] {
      var init := ps[..|ps| - 1];
      var last := ps[|ps| - 1];
      OverlayWins(m, init, id);
      assert forall p :: p in ps <==> p in init || p == last;
    }
  }

  /** Overlaying substitutes and then fetches onto a cache is overlaying the fetches onto the cache-plus-substitutes. */
  lemma {:induction false} OverlayOnUnion(cache: map<string, SKProduct>, subs: map<string, SKProduct>, ps: seq<SKProduct>)
    ensures cache + Overlay(subs, ps) == Overlay(cache + subs, ps)
  {
    if ps != [] {
      var init, last := ps[..|ps| - 1], ps[|ps| - 1];
      OverlayOnUnion(cache, subs, init);
      var x := Overlay(subs, init);
      assert Overlay(subs, ps) == x[last.productIdentifier := last];
      assert Overlay(cache + subs, ps) == (cache + x)[last.productIdentifier := last];
      MapUpdateAfterUnion(cache, x, last.productIdentifier, last);
    }
  }

  lemma MapUpdateAfterUnion<K, V>(a: map<K, V>, b: map<K, V>, k: K, v: V)
    ensures a + b[k := v] == (a + b)[k := v]
  {
  }

  /** One variable per response product whose id was fetched, in response order. */
  function VariablesFor(products: seq<Product>, byId: map<string, SKProduct>): (r: seq<Variable>)
    ensures |r| <= |products|
    ensures forall i :: 0 <= i < |r| ==> r[i].value in byId.Values
  {
    if products == [] then []
    else
      var last := products[|products| - 1];
      VariablesFor(products[..|products| - 1], byId)
      + (if last.id in byId then [Variable(last.productType, byId[last.id])] else [])
  }

  /** The loop of `getVariables`: one variable per response product whose id was fetched. */
  method CollectVariables(products: seq<Product>, byId: map<string, SKProduct>) returns (variables: seq<Variable>)
    ensures variables == VariablesFor(products, byId)
  {
    variables := [];
    var i := 0;
    while i < |products|
      invariant 0 <= i <= |products|
      invariant variables == VariablesFor(products[..i], byId)
    {
      var product := products[i];
      assert products[..i + 1][..i] == products[..i];
      if product.id in byId {
        variables := variables + [Variable(product.productType, byId[product.id])];
      }
      i := i + 1;
    }
    assert products[..i] == products;
  }

  /** Positions of the response products whose id was fetched, in increasing order. */
  function FetchedPositions(products: seq<Product>, byId: map<string, SKProduct>): seq<nat> {
    if products == [] then []
    else
      FetchedPositions(products[..|products| - 1], byId)
      + (if products[|products| - 1].id in byId then [|products| - 1] else [])
  }

  /**
   * The variables are exactly the fetched response products, in response
   * order: the k-th variable comes from the k-th fetched position, those
   * positions increase, and no product with a fetched id is skipped.
   */
  lemma {:induction false} VariablesInResponseOrder(products: seq<Product>, byId: map<string, SKProduct>)
    ensures var vs, pos := VariablesFor(products, byId), FetchedPositions(products, byId);
      && |vs| == |pos| <= |products|
      && (forall k :: 0 <= k < |pos| ==>
            pos[k] < |products| && products[pos[k]].id in byId
            && vs[k] == Variable(products[pos[k]].productType, byId[products[pos[k]].id]))
      && (forall k, l :: 0 <= k < l < |pos| ==> pos[k] < pos[l])
      && (forall j :: 0 <= j < |products| && products[j].id in byId ==> j in pos)
  {
    if products != [] {
      var init := products[..|products| - 1];
      VariablesInResponseOrder(init, byId);
      forall j | 0 <= j < |init| ensures init[j] == products[j] { }
    }
  }

  /** The store-product manager; `productsById` is its in-memory product cache. */
  class StoreKitManager {
    var productsById: map<string, SKProduct>

    constructor ()
      ensures productsById == map[]
    {
      productsById := map[];
    }

    /** The nested `storeAndSubstitute`: updates the caller's locals and the cache. */
    method StoreAndSubstitute(w: Working, p: SKProduct, t: ProductType, index: nat) returns (w': Working)
      modifies this
      ensures w' == Substitute(w, p, t, index)
      ensures productsById == old(productsById)[p.productIdentifier := p]
    {
      var id := p.productIdentifier;
      var substituteProductsById := w.substituteProductsById[id := p];
      productsById := productsById[id := p];
      var product := Product(t, id);
      var products := SetGuarded(w.products, index, product);
      var responseProductIds := RemoveSafe(w.responseProductIds, index);
      w' := Working(responseProductIds, substituteProductsById, products);
    }

    /**
     * `removeAndStore`: applies the substitutes slot by slot and writes each
     * one into the cache as well.
     */
    method RemoveAndStore(subs: Option<PaywallProducts>, ids: seq<string>, products: seq<Product>)
      returns (r: ProcessingResult)
      modifies this
      ensures r == RemoveAndStoreSpec(subs, ids, products)
      ensures productsById == old(productsById) + r.substituteProductsById
    {
      var w := Working(ids, map[], products);
      assert productsById == old(productsById) + w.substituteProductsById;
      if PrimaryOf(subs).Some? {
        var p := PrimaryOf(subs).value;
        MapUpdateAfterUnion(productsById, w.substituteProductsById, p.productIdentifier, p);
        w := StoreAndSubstitute(w, p, Primary, 0);
      }
      assert w == SubstituteIfPresent(Working(ids, map[], products), PrimaryOf(subs), Primary, 0);
      assert productsById == old(productsById) + w.substituteProductsById;
      ghost var w1 := w;
      if SecondaryOf(subs).Some? {
        var p := SecondaryOf(subs).value;
        MapUpdateAfterUnion(old(productsById), w.substituteProductsById, p.productIdentifier, p);
        w := StoreAndSubstitute(w, p, Secondary, 1);
      }
      assert w == SubstituteIfPresent(w1, SecondaryOf(subs), Secondary, 1);
      assert productsById == old(productsById) + w.substituteProductsById;
      ghost var w2 := w;
      if TertiaryOf(subs).Some? {
        var p := TertiaryOf(subs).value;
        MapUpdateAfterUnion(old(productsById), w.substituteProductsById, p.productIdentifier, p);
        w := StoreAndSubstitute(w, p, Tertiary, 2);
      }
      assert w == SubstituteIfPresent(w2, TertiaryOf(subs), Tertiary, 2);
      r := ProcessingResult(SetOf(w.responseProductIds), w.substituteProductsById, w.products);
    }

    /**
     * `getProducts`: substitutes first (which already updates the cache),
     * then fetches the remaining ids; the fetched products overlay the
     * substitutes in the result and are written into the cache. A failed
     * fetch is rethrown.
     */
    method GetProducts(ids: seq<string>, responseProducts: seq<Product>, subs: Option<PaywallProducts>, fetch: Fetch)
      returns (r: Result<(map<string, SKProduct>, seq<Product>), FetchError>)
      modifies this
      ensures var pr := RemoveAndStoreSpec(subs, ids, responseProducts);
        match fetch(pr.productIdsToLoad)
        case Failure(e) =>
          r == Failure(e) && productsById == old(productsById) + pr.substituteProductsById
        case Success(fetched) =>
          && r == Success((Overlay(pr.substituteProductsById, fetched), pr.products))
          && productsById == old(productsById) + Overlay(pr.substituteProductsById, fetched)
    {
      var processingResult := RemoveAndStore(subs, ids, responseProducts);
      var outcome := fetch(processingResult.productIdsToLoad);
      if outcome.Failure? {
        return Failure(outcome.error);
      }
      var fetched := outcome.value;
      var byId := processingResult.substituteProductsById;
      ghost var cache0 := old(productsById);
      var i := 0;
      while i < |fetched|
        invariant 0 <= i <= |fetched|
        invariant byId == Overlay(processingResult.substituteProductsById, fetched[..i])
        invariant productsById == Overlay(cache0 + processingResult.substituteProductsById, fetched[..i])
      {
        var product := fetched[i];
        assert fetched[..i + 1][..i] == fetched[..i];
        byId := byId[product.productIdentifier := product];
        productsById := productsById[product.productIdentifier := product];
        i := i + 1;
      }
      assert fetched[..i] == fetched;
      OverlayOnUnion(cache0, processingResult.substituteProductsById, fetched);
      r := Success((byId, processingResult.products));
    }

    /**
     * `getVariables`: fetches the response's ids without substitutes and
     * makes one variable per response product that was fetched; a failed
     * fetch gives no variables.
     */
    method GetVariables(response: PaywallResponse, fetch: Fetch) returns (variables: seq<Variable>)
      modifies this
      ensures match fetch(SetOf(response.productIds))
        case Failure(_) => variables == [] && productsById == old(productsById)
        case Success(fetched) =>
          && variables == VariablesFor(response.products, Overlay(map[], fetched))
          && productsById == Overlay(old(productsById), fetched)
      ensures |variables| <= |response.products|
    {
      NoSubstitutes(None, response.productIds, []);
      var output := GetProducts(response.productIds, [], None, fetch);
      if output.Failure? {
        assert old(productsById) + map[] == old(productsById);
        return [];
      }
      var byId := output.value.0;
      ghost var fetched := fetch(SetOf(response.productIds)).value;
      OverlayOnUnion(old(productsById), map[], fetched);
      assert old(productsById) + map[] == old(productsById);
      variables := CollectVariables(response.products, byId);
    }

    /**
     * `loadPurchasedProducts`, after the configuration is available: every
     * purchased product the store returns goes into the cache; a failed
     * fetch leaves the cache alone.
     */
    method LoadPurchasedProducts(purchased: Result<seq<SKProduct>, FetchError>)
      modifies this
      ensures purchased.Failure? ==> productsById == old(productsById)
      ensures purchased.Success? ==> productsById == Overlay(old(productsById), purchased.value)
    {
      if purchased.Failure? {
        return;
      }
      var productsSet := purchased.value;
      var i := 0;
      while i < |productsSet|
        invariant 0 <= i <= |productsSet|
        invariant productsById == Overlay(old(productsById), productsSet[..i])
      {
        assert productsSet[..i + 1][..i] == productsSet[..i];
        productsById := productsById[productsSet[i].productIdentifier := productsSet[i]];
        i := i + 1;
      }
      assert productsSet[..i] == productsSet;
    }
  }
}
