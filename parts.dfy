/**
 * Catalog records and the fixed set of build slots.
 */
module Parts {

  import opened Wrappers

  const Cpu := "cpu"
  const Motherboard := "motherboard"
  const Ram := "ram"
  const Gpu := "gpu"
  const Storage := "storage"
  const Cooler := "cooler"
  const Psu := "psu"
  const Case := "case"

  /** A build slot: its key and the caption the bill and the quote show. */
  datatype Category = Category(key: string, caption: string)

  /** The slots in the order the bill and the quote list them. */
  const Categories: seq<Category> := [
    Category(Cpu, "Processors"),
    Category(Motherboard, "Motherboards"),
    Category(Ram, "Memory"),
    Category(Gpu, "Graphics Cards"),
    Category(Storage, "Storage"),
    Category(Cooler, "Cooling"),
    Category(Psu, "Power Supply"),
    Category(Case, "Cabinet")
  ]

  const CategoryKeys: set<string> := {Cpu, Motherboard, Ram, Gpu, Storage, Cooler, Psu, Case}

  function KeySet(cats: seq<Category>): set<string> {
    set c | c in cats :: c.key
  }

  /** No key occurs twice in `cats`. */
  predicate DistinctKeys(cats: seq<Category>) {
    forall i, j :: 0 <= i < j < |cats| ==> cats[i].key != cats[j].key
  }

  /** No two slots share a key: the keys differ in length or in their first letter. */
  lemma CategoryKeysDistinct()
    ensures DistinctKeys(Categories)
  {
    forall i, j | 0 <= i < j < |Categories|
      ensures Categories[i].key != Categories[j].key
    {
      var a, b := Categories[i].key, Categories[j].key;
      assert |a| != |b| || a[0] != b[0];
    }
  }

  lemma CategoriesAreTheKeys()
    ensures KeySet(Categories) == CategoryKeys
    ensures DistinctKeys(Categories)
  {
    CategoryKeysDistinct();
    assert forall c :: c in Categories ==> c.key in CategoryKeys;
    assert Categories[0] in Categories && Categories[1] in Categories && Categories[2] in Categories;
    assert Categories[3] in Categories && Categories[4] in Categories && Categories[5] in Categories;
    assert Categories[6] in Categories && Categories[7] in Categories;
  }

  /**
   * One catalog entry. Every attribute the source reads with `?.` or `||`
   * is optional; `kind` is the record's `type` property.
   */
  datatype Part = Part(
    id: string,
    kind: string,
    name: string,
    brand: Option<string>,
    price: int,
    power: Option<int>,
    watts: Option<int>,
    sticks: Option<int>,
    socket: Option<string>,
    ramType: Option<string>,
    size: Option<string>,
    coolerType: Option<string>)

  /** JavaScript's `x || d` on a number that may be absent: absent and the falsy 0 both give `d`. */
  function OrDefault(x: Option<int>, d: int): (r: int)
    ensures x.Some? && x.value != 0 ==> r == x.value
    ensures x.None? || x.value == 0 ==> r == d
  {
    if x.Some? && x.value != 0 then x.value else d
  }

  /** `quantities[k] || 1`: the quantity the bill uses for slot `k`; never 0. */
  function QtyOf(q: map<string, int>, k: string): (r: int)
    ensures r != 0
    ensures k in q && q[k] != 0 ==> r == q[k]
    ensures k !in q ==> r == 1
    ensures k in q && q[k] == 0 ==> r == 1
  {
    OrDefault(if k in q then Some(q[k]) else None, 1)
  }
}
