/**
 * The build the page keeps: the part in each slot and each slot's quantity,
 * and the three handlers that change them (a drop, the remove button and the
 * quantity stepper). Each handler is one atomic step.
 */
module Engine {

  import opened Wrappers
  import opened Parts
  import opened Compatibility
  import opened Metrics

  /** The physical memory slots the stepper may fill. */
  const RamSlots := 4

  /** Slots with a part and slots with a quantity coincide, and every quantity is at least 1. */
  predicate Paired(parts: map<string, Part>, q: map<string, int>) {
    && q.Keys == parts.Keys
    && forall k :: k in q ==> q[k] >= 1
  }

  /** `Math.max(1, current + delta)` with an absent or zero current quantity read as 1. */
  function NewQuantity(q: map<string, int>, key: string, delta: int): (v: int)
    ensures v >= 1 && v >= QtyOf(q, key) + delta
    ensures v == 1 || v == QtyOf(q, key) + delta
  {
    if QtyOf(q, key) + delta > 1 then QtyOf(q, key) + delta else 1
  }

  /**
   * The quantities after `updateQuantity(key, delta)`. For memory, while a
   * kit is placed, a new quantity whose sticks exceed the slots leaves the
   * quantities as they were; every other slot is written without a cap,
   * whether or not it holds a part.
   */
  function QuantityUpdate(parts: map<string, Part>, q: map<string, int>, key: string, delta: int): (r: map<string, int>)
    ensures forall k :: k != key ==> (k in r <==> k in q) && (k in r ==> r[k] == q[k])
    ensures r == q || (key in r && r[key] == NewQuantity(q, key, delta))
  {
    var v := NewQuantity(q, key, delta);
    if key == Ram && Ram in parts && v * OrDefault(parts[Ram].sticks, 1) > RamSlots then q else q[key := v]
  }

  /** A decrement at quantity 1 changes nothing: the stepper never removes a part. */
  lemma DecrementAtOneKeepsQuantities(parts: map<string, Part>, q: map<string, int>, key: string)
    requires key in q && q[key] == 1
    ensures QuantityUpdate(parts, q, key, -1) == q
  {
  }

  /** Outside the memory slot, and for memory with no kit placed, the new quantity is always written. */
  lemma UncappedUpdate(parts: map<string, Part>, q: map<string, int>, key: string, delta: int)
    requires key != Ram || Ram !in parts
    ensures QuantityUpdate(parts, q, key, delta) == q[key := NewQuantity(q, key, delta)]
  {
  }

  /**
   * The memory cap: with a kit placed, an update is refused exactly when the
   * new quantity times the sticks per kit exceeds the slots, and an accepted
   * update leaves at most that many sticks.
   */
  lemma RamCapHolds(parts: map<string, Part>, q: map<string, int>, delta: int)
    requires Ram in parts
    ensures var r := QuantityUpdate(parts, q, Ram, delta);
            && (r == q <== NewQuantity(q, Ram, delta) * OrDefault(parts[Ram].sticks, 1) > RamSlots)
            && (r == q[Ram := NewQuantity(q, Ram, delta)] <== NewQuantity(q, Ram, delta) * OrDefault(parts[Ram].sticks, 1) <= RamSlots)
            && (r != q ==> TotalRamSticks(parts, r) <= RamSlots)
  {
  }

  /** A two-stick kit: one increment from 1 reaches 2 (four sticks), a second one is refused. */
  lemma TwoStickKitStopsAtTwo(parts: map<string, Part>, q: map<string, int>)
    requires Ram in parts && parts[Ram].sticks == Some(2)
    requires Ram in q && q[Ram] == 1
    ensures QuantityUpdate(parts, q, Ram, 1) == q[Ram := 2]
    ensures QuantityUpdate(parts, q[Ram := 2], Ram, 1) == q[Ram := 2]
  {
  }

  /** The stepper keeps slots and quantities paired when it is used on an occupied slot. */
  lemma UpdateKeepsPaired(parts: map<string, Part>, q: map<string, int>, key: string, delta: int)
    requires Paired(parts, q) && key in parts
    ensures Paired(parts, QuantityUpdate(parts, q, key, delta))
  {
  }

  /**
   * Used on an empty slot, the stepper writes a quantity with no part beside
   * it; only the page's rendering of the stepper for occupied slots prevents this.
   */
  lemma UpdateOnEmptySlotUnpairs(parts: map<string, Part>, q: map<string, int>, key: string, delta: int)
    requires key !in parts
    ensures key in QuantityUpdate(parts, q, key, delta)
    ensures !Paired(parts, QuantityUpdate(parts, q, key, delta))
  {
  }

  /** What slot `key` currently adds to a total; 0 for an empty slot. */
  function SlotShare(parts: map<string, Part>, q: map<string, int>, key: string, f: Figure): int {
    if key in parts then Contribution(parts, q, key, f) else 0
  }

  /** Placing a part keeps slots and quantities paired. */
  lemma PlaceKeepsPaired(parts: map<string, Part>, q: map<string, int>, key: string, item: Part)
    requires Paired(parts, q)
    ensures Paired(parts[key := item], q[key := 1])
  {
  }

  /** The two maps the page keeps, changed only through the handlers below. */
  class Build {
    var parts: map<string, Part>
    var quantities: map<string, int>

    ghost predicate Valid()
      reads this
    {
      Paired(parts, quantities)
    }

    /** The build starts empty. */
    constructor ()
      ensures parts == map[] && quantities == map[]
      ensures Valid()
    {
      parts := map[];
      quantities := map[];
    }

    /**
     * The state part of `handleDrop`: when the check accepts, the part takes
     * the slot (replacing any part there) with quantity 1; when it refuses,
     * nothing changes.
     */
    method Drop(item: Part, key: string) returns (v: Verdict)
      modifies this
      ensures v == ValidateDrop(old(parts), item, key)
      ensures v.Accepted? ==> parts == old(parts)[key := item] && quantities == old(quantities)[key := 1]
      ensures v.Rejected? ==> parts == old(parts) && quantities == old(quantities)
      ensures old(Valid()) ==> Valid()
      ensures old(Consistent(parts)) ==> Consistent(parts)
      ensures v.Accepted? ==> (TotalPrice(parts, quantities)
                                == old(TotalPrice(parts, quantities)) - old(SlotShare(parts, quantities, key, Price)) + item.price)
      ensures v.Accepted? ==> (TotalWattage(parts, quantities)
                                == old(TotalWattage(parts, quantities)) - old(SlotShare(parts, quantities, key, Power)) + FigureOf(item, Power))
    {
      v := ValidateDrop(parts, item, key);
      if v.Rejected? {
        return;
      }
      if Consistent(parts) {
        AcceptedDropKeepsConsistent(parts, item, key);
      }
      PlaceChangesTotal(parts, quantities, key, item, Price);
      PlaceChangesTotal(parts, quantities, key, item, Power);
      parts := parts[key := item];
      quantities := quantities[key := 1];
    }

    /** `removeItem`: the slot loses its part and its quantity; an empty slot stays as it was. */
    method Remove(key: string)
      modifies this
      ensures parts == old(parts) - {key} && quantities == old(quantities) - {key}
      ensures key !in old(parts) && key !in old(quantities) ==> parts == old(parts) && quantities == old(quantities)
      ensures old(Valid()) ==> Valid()
      ensures old(Consistent(parts)) ==> Consistent(parts)
      ensures TotalPrice(parts, quantities) == old(TotalPrice(parts, quantities)) - old(SlotShare(parts, quantities, key, Price))
      ensures TotalWattage(parts, quantities) == old(TotalWattage(parts, quantities)) - old(SlotShare(parts, quantities, key, Power))
    {
      if Consistent(parts) {
        RemovalKeepsConsistent(parts, key);
      }
      RemoveChangesTotal(parts, quantities, key, Price);
      RemoveChangesTotal(parts, quantities, key, Power);
      parts := parts - {key};
      quantities := quantities - {key};
    }

    /** `updateQuantity`: the stepper's new quantities; the parts do not change. */
    method UpdateQuantity(key: string, delta: int)
      modifies this
      ensures parts == old(parts)
      ensures quantities == QuantityUpdate(old(parts), old(quantities), key, delta)
      ensures old(Valid()) && key in parts ==> Valid()
      ensures key == Ram && Ram in parts && quantities != old(quantities) ==> TotalRamSticks(parts, quantities) <= RamSlots
    {
      if key == Ram && Ram in parts {
        RamCapHolds(parts, quantities, delta);
      }
      quantities := QuantityUpdate(parts, quantities, key, delta);
    }
  }

  const ScenarioCpu := Part("c4", Cpu, "AMD Ryzen 5 7600X", Some("AMD"), 19500, Some(105), None, None, Some("AM5"), None, None, None)
  const ScenarioBoard := Part("m3", Motherboard, "Gigabyte B650M Gaming X", Some("Gigabyte"), 14500, None, None, None, Some("AM5"), Some("DDR5"), Some("mATX"), None)
  const ScenarioIntelBoard := Part("m1", Motherboard, "MSI PRO B760M-E DDR4", Some("MSI"), 9200, None, None, None, Some("LGA1700"), Some("DDR4"), Some("mATX"), None)
  const ScenarioKit := Part("r3", Ram, "XPG Lancer RGB 32GB (16x2)", Some("XPG"), 10500, Some(10), None, Some(2), None, Some("DDR5"), None, None)

  /** A processor, a matching motherboard and a two-stick kit, placed in turn, give the expected totals. */
  method ThreePartBuild() returns (b: Build)
    ensures fresh(b) && b.Valid()
    ensures b.parts == map[Cpu := ScenarioCpu, Motherboard := ScenarioBoard, Ram := ScenarioKit]
    ensures b.quantities == map[Cpu := 1, Motherboard := 1, Ram := 1]
    ensures TotalPrice(b.parts, b.quantities) == 44500
    ensures TotalWattage(b.parts, b.quantities) == WattageBaseline + 115
  {
    b := new Build();
    var v := b.Drop(ScenarioCpu, Cpu);
    assert v == Accepted;
    v := b.Drop(ScenarioBoard, Motherboard);
    assert v == Accepted;
    v := b.Drop(ScenarioKit, Ram);
    assert v == Accepted;
  }

  /**
   * On that build the catalog's Intel motherboard is refused for its socket,
   * the first check to fail, and the build is left as it was.
   */
  method ThreePartRefusal() returns (b: Build, v: Verdict)
    ensures fresh(b) && b.Valid()
    ensures v == Rejected(CpuSocketClash(Some("AM5"), Some("LGA1700")))
    ensures b.parts == map[Cpu := ScenarioCpu, Motherboard := ScenarioBoard, Ram := ScenarioKit]
    ensures b.quantities == map[Cpu := 1, Motherboard := 1, Ram := 1]
  {
    b := ThreePartBuild();
    v := b.Drop(ScenarioIntelBoard, Motherboard);
  }

  /** On that build the memory stepper stops at two kits. */
  method ThreePartEdits() returns (b: Build)
    ensures fresh(b) && b.Valid()
    ensures b.parts == map[Cpu := ScenarioCpu, Motherboard := ScenarioBoard, Ram := ScenarioKit]
    ensures b.quantities == map[Cpu := 1, Motherboard := 1, Ram := 2]
    ensures TotalRamSticks(b.parts, b.quantities) == RamSlots
  {
    b := ThreePartBuild();
    TwoStickKitStopsAtTwo(b.parts, b.quantities);
    b.UpdateQuantity(Ram, 1);
    assert b.quantities == map[Cpu := 1, Motherboard := 1, Ram := 2];
    b.UpdateQuantity(Ram, 1);
  }

  /** On that build, removing the processor leaves the other slots alone and takes its price off the total. */
  method ThreePartRemoval() returns (b: Build)
    ensures fresh(b) && b.Valid()
    ensures b.parts == map[Motherboard := ScenarioBoard, Ram := ScenarioKit]
    ensures b.quantities == map[Motherboard := 1, Ram := 1]
    ensures TotalPrice(b.parts, b.quantities) == 25000
  {
    b := ThreePartBuild();
    b.Remove(Cpu);
    assert b.parts == map[Motherboard := ScenarioBoard, Ram := ScenarioKit];
  }
}
