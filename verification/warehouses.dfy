/**
 * Warehouses and stock (`saleor/warehouse/models.py`): the countries a
 * warehouse ships to, the click-and-collect validation, the stock
 * counter's increase and decrease, and the quantity of a stock that is
 * still free once its allocations are taken out.
 */
module Warehouses {
  import opened Wrappers

  /** `WarehouseClickAndCollectOption` */
  datatype ClickAndCollectOption = Disabled | LocalStock | AllWarehouses

  /** A shipping zone and the country codes it covers. */
  datatype ShippingZone = ShippingZone(countries: seq<string>)

  /** The warehouse fields the model uses. */
  datatype Warehouse = Warehouse(
    shippingZones: seq<ShippingZone>,
    clickAndCollectOption: ClickAndCollectOption,
    isPrivate: bool)

  /** The `ValidationError` raised by `Warehouse.clean`. */
  datatype ValidationError = LocalStockOnPrivateWarehouse

  /** The countries of a list of shipping zones, chained together. */
  function ZonesCountries(zones: seq<ShippingZone>): (r: set<string>)
    ensures forall c :: c in r <==> exists z :: z in zones && c in z.countries
  {
    if zones == [] then {}
    else
      var init := zones[..|zones| - 1];
      var last := zones[|zones| - 1];
      var r := ZonesCountries(init) + (set c | c in last.countries);
      assert forall z :: z in zones <==> z in init || z == last by {
        assert zones == init + [last];
      }
      r
  }

  /** `Warehouse.countries`: every country of every shipping zone of the warehouse. */
  function Countries(w: Warehouse): (r: set<string>)
    ensures forall c :: c in r <==> exists z :: z in w.shippingZones && c in z.countries
  {
    ZonesCountries(w.shippingZones)
  }

  /** Adding a shipping zone adds exactly its countries. */
  lemma CountriesWithZone(w: Warehouse, zone: ShippingZone)
    ensures Countries(w.(shippingZones := w.shippingZones + [zone])) ==
            Countries(w) + set c | c in zone.countries
  {
    var w' := w.(shippingZones := w.shippingZones + [zone]);
    forall c ensures c in Countries(w') <==> c in Countries(w) || c in zone.countries {
      if c in Countries(w') {
        var z :| z in w'.shippingZones && c in z.countries;
        if z != zone {
          assert z in w.shippingZones;
        }
      }
      if c in zone.countries {
        assert zone in w'.shippingZones;
      }
      if c in Countries(w) {
        var z :| z in w.shippingZones && c in z.countries;
        assert z in w'.shippingZones;
      }
    }
  }

  /**
   * `Warehouse.clean`: a private warehouse cannot offer click-and-collect
   * from its local stock; every other combination is accepted.
   */
  function Clean(w: Warehouse): (r: Outcome<ValidationError>)
    ensures r.Fail? <==> w.clickAndCollectOption == LocalStock && w.isPrivate
    ensures r.Fail? ==> r.error == LocalStockOnPrivateWarehouse
  {
    if w.clickAndCollectOption == LocalStock && w.isPrivate then Fail(LocalStockOnPrivateWarehouse)
    else Pass
  }

  /**
   * Whether a warehouse passes validation depends only on its
   * click-and-collect option and its privacy, not on its shipping zones;
   * making a warehouse public always makes it pass.
   */
  lemma CleanDependsOnOptionAndPrivacy(w: Warehouse, zones: seq<ShippingZone>)
    ensures Clean(w.(shippingZones := zones)) == Clean(w)
    ensures Clean(w.(isPrivate := false)) == Pass
    ensures w.clickAndCollectOption != LocalStock ==> Clean(w) == Pass
  {
  }

  /**
   * The stored quantity of a stock and the pending `F("quantity") + delta`
   * expression last assigned to the instance (`None` before any).
   */
  datatype StockState = StockState(quantity: int, pendingDelta: Option<int>)

  /**
   * `increase_stock` / `decrease_stock` on values: the instance's quantity
   * becomes `F("quantity") + delta`, and with `commit` the database applies
   * it to the stored quantity. An expression assigned earlier and not
   * saved is replaced, not added to.
   */
  function AddToStock(s: StockState, delta: int, commit: bool): StockState {
    StockState(if commit then s.quantity + delta else s.quantity, Some(delta))
  }

  /** A committed decrease followed by a committed increase of the same amount restores the quantity. */
  lemma DecreaseThenIncreaseRestores(s: StockState, n: int)
    ensures AddToStock(AddToStock(s, -n, true), n, true).quantity == s.quantity
    ensures AddToStock(AddToStock(s, n, true), -n, true).quantity == s.quantity
  {
  }

  /**
   * Without `commit` nothing is stored, and a second change replaces the
   * first pending one rather than adding to it.
   */
  lemma UncommittedChangesReplace(s: StockState, a: int, b: int)
    ensures AddToStock(AddToStock(s, a, false), b, false) == StockState(s.quantity, Some(b))
  {
  }

  /** `Stock` */
  class Stock {
    const id: nat
    var quantity: int
    var pendingDelta: Option<int>

    function State(): StockState
      reads this
    {
      StockState(quantity, pendingDelta)
    }

    constructor (id: nat, quantity: int)
      ensures this.id == id && State() == StockState(quantity, None)
    {
      this.id := id;
      this.quantity := quantity;
      pendingDelta := None;
    }

    /** `increase_stock`: return `n` units to the stock. */
    method IncreaseStock(n: int, commit: bool)
      modifies this
      ensures State() == AddToStock(old(State()), n, commit)
      ensures commit ==> quantity == old(quantity) + n
    {
      pendingDelta := Some(n);
      if commit {
        quantity := quantity + n;
      }
    }

    /** `decrease_stock`: take `n` units from the stock. */
    method DecreaseStock(n: int, commit: bool)
      modifies this
      ensures State() == AddToStock(old(State()), -n, commit)
      ensures commit ==> quantity == old(quantity) - n
    {
      pendingDelta := Some(-n);
      if commit {
        quantity := quantity - n;
      }
    }
  }

  /** An `Allocation`: a quantity of a stock reserved for an order line. */
  datatype Allocation = Allocation(stockId: nat, quantityAllocated: int)

  /** `Sum("quantity_allocated")` over the allocations of one stock, `0` when there are none. */
  function AllocatedQuantity(allocations: seq<Allocation>, stockId: nat): int {
    if allocations == [] then 0
    else
      var last := allocations[|allocations| - 1];
      AllocatedQuantity(allocations[..|allocations| - 1], stockId) +
      (if last.stockId == stockId then last.quantityAllocated else 0)
  }

  /** `available_quantity_for_stock`: the stock's quantity less its allocations, floored at zero. */
  function AvailableQuantityForStock(allocations: seq<Allocation>, stock: Stock): (r: int)
    reads stock
    ensures r >= 0 && r >= stock.quantity - AllocatedQuantity(allocations, stock.id)
    ensures r == 0 || r == stock.quantity - AllocatedQuantity(allocations, stock.id)
  {
    var allocatedQuantity := AllocatedQuantity(allocations, stock.id);
    if stock.quantity - allocatedQuantity > 0 then stock.quantity - allocatedQuantity else 0
  }

  /**
   * Allocating more of a stock never makes more of it available, and
   * allocations of other stocks do not matter.
   */
  lemma AllocationLowersAvailability(allocations: seq<Allocation>, a: Allocation, stock: Stock)
    requires a.quantityAllocated >= 0
    ensures AvailableQuantityForStock(allocations + [a], stock) <= AvailableQuantityForStock(allocations, stock)
    ensures a.stockId != stock.id ==>
              AvailableQuantityForStock(allocations + [a], stock) == AvailableQuantityForStock(allocations, stock)
  {
    assert (allocations + [a])[..|allocations|] == allocations;
  }

  /** Allocations that are all non-negative add up to a non-negative quantity. */
  lemma {:induction false} AllocatedQuantityNonNegative(allocations: seq<Allocation>, stockId: nat)
    requires forall a | a in allocations :: a.quantityAllocated >= 0
    ensures AllocatedQuantity(allocations, stockId) >= 0
  {
    if allocations != [] {
      var init := allocations[..|allocations| - 1];
      assert forall a | a in init :: a in allocations;
      AllocatedQuantityNonNegative(init, stockId);
    }
  }

  /** With non-negative allocations, never more than the stock's quantity is available. */
  lemma AvailableAtMostQuantity(allocations: seq<Allocation>, stock: Stock)
    requires stock.quantity >= 0
    requires forall a | a in allocations :: a.quantityAllocated >= 0
    ensures AvailableQuantityForStock(allocations, stock) <= stock.quantity
  {
    AllocatedQuantityNonNegative(allocations, stock.id);
  }
}
