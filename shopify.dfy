/**
 * `parseShopifyData`: turning storefront product nodes into catalog parts.
 * Each node carries `key:value` tags; the tags give the node's category and
 * its attributes, and the node is kept under its category only when that is
 * one of the eight slot keys.
 */
module Shopify {

  import opened Wrappers
  import opened Text
  import opened Parts
  import opened Metrics

  /** A product node: `price` is the first variant's amount, already a number (0 when absent). */
  datatype ProductNode = ProductNode(id: string, title: string, vendor: Option<string>, tags: seq<string>, price: int)

  /** The attributes the tags can set; `power` is filled by the `watts` tag. */
  datatype Specs = Specs(
    socket: Option<string>,
    ramType: Option<string>,
    power: Option<int>,
    size: Option<string>,
    coolerType: Option<string>,
    sticks: Option<int>)

  /** What the tags of one node have set so far: the category (lower-cased) and the attributes. */
  datatype TagScan = TagScan(category: Option<string>, specs: Specs)

  const Unscanned := TagScan(None, Specs(None, None, None, None, None, None))

  /** A tag's key: the text before its first colon, trimmed and lower-cased. */
  function TagKey(tag: string): string {
    Lower(Trim(SplitPair(tag).0))
  }

  /**
   * A tag's value, trimmed: `None` when the tag is skipped because it has no
   * colon or nothing between its first colon and the next.
   */
  function TagValue(tag: string): (v: Option<string>)
    ensures v.None? <==> ':' !in tag || SplitPair(tag).1.value == []
  {
    var val := SplitPair(tag).1;
    if val.None? || val.value == [] then None else Some(Trim(val.value))
  }

  /** The tag keys the normaliser reads; every other key is ignored. */
  const TagKeys: set<string> := {"category", "socket", "ramtype", "watts", "size", "coolertype", "sticks"}

  /** The effect of one tag; `parseInt` reads a number, `None` standing for NaN. */
  function ScanTag(st: TagScan, tag: string, parseInt: string -> Option<int>): (r: TagScan)
    ensures TagValue(tag).None? ==> r == st
    ensures TagKey(tag) !in TagKeys ==> r == st
  {
    var val := TagValue(tag);
    if val.None? then st
    else
      var key, v := TagKey(tag), val.value;
      if key == "category" then st.(category := Some(Lower(v)))
      else if key == "socket" then st.(specs := st.specs.(socket := Some(v)))
      else if key == "ramtype" then st.(specs := st.specs.(ramType := Some(v)))
      else if key == "watts" then st.(specs := st.specs.(power := parseInt(v)))
      else if key == "size" then st.(specs := st.specs.(size := Some(v)))
      else if key == "coolertype" then st.(specs := st.specs.(coolerType := Some(v)))
      else if key == "sticks" then st.(specs := st.specs.(sticks := parseInt(v)))
      else st
  }

  /** The effect of the tags in order. */
  function ScanTags(tags: seq<string>, parseInt: string -> Option<int>): TagScan
    decreases |tags|
  {
    if tags == [] then Unscanned else ScanTag(ScanTags(tags[..|tags| - 1], parseInt), tags[|tags| - 1], parseInt)
  }

  /** The inner `tags.forEach`: splits each tag and dispatches on its key. */
  method ReadTags(tags: seq<string>, parseInt: string -> Option<int>) returns (st: TagScan)
    ensures st == ScanTags(tags, parseInt)
  {
    var category: Option<string> := None;
    var specs := Unscanned.specs;
    var i := 0;
    while i < |tags|
      invariant 0 <= i <= |tags|
      invariant TagScan(category, specs) == ScanTags(tags[..i], parseInt)
    {
      assert tags[..i + 1][..i] == tags[..i];
      var (key, val) := SplitPair(tags[i]);
      i := i + 1;
      if val.None? || val.value == [] {
        continue;
      }
      var cleanKey, cleanVal := Lower(Trim(key)), Trim(val.value);
      if cleanKey == "category" {
        category := Some(Lower(cleanVal));
      } else if cleanKey == "socket" {
        specs := specs.(socket := Some(cleanVal));
      } else if cleanKey == "ramtype" {
        specs := specs.(ramType := Some(cleanVal));
      } else if cleanKey == "watts" {
        specs := specs.(power := parseInt(cleanVal));
      } else if cleanKey == "size" {
        specs := specs.(size := Some(cleanVal));
      } else if cleanKey == "coolertype" {
        specs := specs.(coolerType := Some(cleanVal));
      } else if cleanKey == "sticks" {
        specs := specs.(sticks := parseInt(cleanVal));
      }
    }
    assert tags[..|tags|] == tags;
    st := TagScan(category, specs);
  }

  /** The trimmed value of the last tag with key `key` that is not skipped. */
  function LastValue(tags: seq<string>, key: string): Option<string>
    decreases |tags|
  {
    if tags == [] then None
    else
      var t := tags[|tags| - 1];
      if TagKey(t) == key && TagValue(t).Some? then TagValue(t) else LastValue(tags[..|tags| - 1], key)
  }

  function ParseValue(v: Option<string>, parseInt: string -> Option<int>): Option<int> {
    if v.None? then None else parseInt(v.value)
  }

  /**
   * Later tags overwrite earlier ones: every field the tags set holds the
   * value of the last tag with that key, and skipped tags count for nothing.
   */
  lemma {:induction false} LastTagWins(tags: seq<string>, parseInt: string -> Option<int>)
    ensures var st, cat := ScanTags(tags, parseInt), LastValue(tags, "category");
            && st.category == (if cat.Some? then Some(Lower(cat.value)) else None)
            && st.specs.socket == LastValue(tags, "socket")
            && st.specs.ramType == LastValue(tags, "ramtype")
            && st.specs.size == LastValue(tags, "size")
            && st.specs.coolerType == LastValue(tags, "coolertype")
            && st.specs.power == ParseValue(LastValue(tags, "watts"), parseInt)
            && st.specs.sticks == ParseValue(LastValue(tags, "sticks"), parseInt)
    decreases |tags|
  {
    if tags != [] {
      LastTagWins(tags[..|tags| - 1], parseInt);
      ScanTagSetsOneField(ScanTags(tags[..|tags| - 1], parseInt), tags[|tags| - 1], parseInt);
    }
  }

  /** One tag that is not skipped sets the one field its key names; a skipped tag sets nothing. */
  lemma ScanTagSetsOneField(st: TagScan, tag: string, parseInt: string -> Option<int>)
    ensures var st', v, k := ScanTag(st, tag, parseInt), TagValue(tag), TagKey(tag);
            && st'.category == (if k == "category" && v.Some? then Some(Lower(v.value)) else st.category)
            && st'.specs.socket == (if k == "socket" && v.Some? then v else st.specs.socket)
            && st'.specs.ramType == (if k == "ramtype" && v.Some? then v else st.specs.ramType)
            && st'.specs.size == (if k == "size" && v.Some? then v else st.specs.size)
            && st'.specs.coolerType == (if k == "coolertype" && v.Some? then v else st.specs.coolerType)
            && st'.specs.power == (if k == "watts" && v.Some? then parseInt(v.value) else st.specs.power)
            && st'.specs.sticks == (if k == "sticks" && v.Some? then parseInt(v.value) else st.specs.sticks)
  {
  }

  /**
   * The category names that find an inherited property of the catalog
   * object rather than one of its arrays: pushing onto them throws.
   */
  const InheritedKeys: set<string> := {"constructor", "__proto__"}

  /** What happens to one node: kept as a part under a slot key, dropped, or the whole parse throws. */
  datatype NodeOutcome = Kept(category: string, part: Part) | Dropped | Throws

  /** The record pushed for a node kept under `c`: default sticks 1, default power 200 for a graphics card and 0 otherwise. */
  function NewPart(node: ProductNode, c: string, specs: Specs): (p: Part)
    ensures p.id == node.id && p.kind == c && p.name == node.title && p.brand == node.vendor && p.price == node.price
    ensures p.socket == specs.socket && p.ramType == specs.ramType && p.size == specs.size && p.coolerType == specs.coolerType
    ensures p.watts.None?
    ensures p.sticks.Some? && p.sticks.value != 0
    ensures specs.sticks.Some? && specs.sticks.value != 0 ==> p.sticks == specs.sticks
    ensures specs.power.Some? && specs.power.value != 0 ==> p.power == specs.power
    ensures specs.power.None? || specs.power.value == 0 ==> p.power == Some(if c == Gpu then 200 else 0)
  {
    Part(node.id, c, node.title, node.vendor, node.price,
         Some(OrDefault(specs.power, if c == Gpu then 200 else 0)), None,
         Some(OrDefault(specs.sticks, 1)),
         specs.socket, specs.ramType, specs.size, specs.coolerType)
  }

  /** `if (category && newData[category]) newData[category].push(...)`. */
  function Classify(node: ProductNode, st: TagScan): (o: NodeOutcome)
    ensures o.Kept? <==> st.category.Some? && st.category.value in CategoryKeys
    ensures o.Throws? <==> st.category.Some? && st.category.value in InheritedKeys
    ensures o.Kept? ==> o.category == st.category.value && o.part == NewPart(node, o.category, st.specs)
  {
    if st.category.None? || st.category.value == [] then Dropped
    else if st.category.value in CategoryKeys then Kept(st.category.value, NewPart(node, st.category.value, st.specs))
    else if st.category.value in InheritedKeys then Throws
    else Dropped
  }

  /** The outcome for one node: its tags read in order, then classified. */
  function NormalizeNode(node: ProductNode, parseInt: string -> Option<int>): (o: NodeOutcome)
    ensures o.Kept? ==> o.category in CategoryKeys && o.part.kind == o.category && o.part.id == node.id
  {
    Classify(node, ScanTags(node.tags, parseInt))
  }

  /**
   * A node is kept exactly when its last category tag names one of the eight
   * slot keys (compared lower-cased), and then under that key.
   */
  lemma KeptExactlyForSlotKeys(node: ProductNode, parseInt: string -> Option<int>)
    ensures var o, cat := NormalizeNode(node, parseInt), LastValue(node.tags, "category");
            && (o.Kept? <==> cat.Some? && Lower(cat.value) in CategoryKeys)
            && (o.Kept? ==> o.category == Lower(cat.value) && o.part.kind == o.category)
            && (o.Throws? <==> cat.Some? && Lower(cat.value) in InheritedKeys)
  {
    LastTagWins(node.tags, parseInt);
  }

  /**
   * The numbers of a kept part, read through `x || d`: sticks default to 1 and
   * power to 200 (graphics card) or 0 whenever the tag is missing or reads as
   * NaN or 0, and otherwise take the tagged number; `watts` itself is never set.
   */
  lemma KeptPartDefaults(node: ProductNode, parseInt: string -> Option<int>)
    ensures NormalizeNode(node, parseInt).Kept? ==>
            var p, c := NormalizeNode(node, parseInt).part, NormalizeNode(node, parseInt).category;
            var sticks, power := ParseValue(LastValue(node.tags, "sticks"), parseInt),
                                 ParseValue(LastValue(node.tags, "watts"), parseInt);
            && p.watts == None
            && (sticks.None? || sticks.value == 0 ==> p.sticks == Some(1))
            && (sticks.Some? && sticks.value != 0 ==> p.sticks == sticks)
            && (power.None? || power.value == 0 ==> p.power == Some(if c == Gpu then 200 else 0))
            && (power.Some? && power.value != 0 ==> p.power == power)
  {
    LastTagWins(node.tags, parseInt);
  }

  /**
   * The rest of a kept part comes from the node and its tags: id, title,
   * vendor and price from the node, and the four text attributes from the
   * last tag carrying each (absent when there is none).
   */
  lemma KeptPartAttributes(node: ProductNode, parseInt: string -> Option<int>)
    ensures NormalizeNode(node, parseInt).Kept? ==>
            var p := NormalizeNode(node, parseInt).part;
            && p.id == node.id && p.name == node.title && p.brand == node.vendor && p.price == node.price
            && p.socket == LastValue(node.tags, "socket")
            && p.ramType == LastValue(node.tags, "ramtype")
            && p.size == LastValue(node.tags, "size")
            && p.coolerType == LastValue(node.tags, "coolertype")
  {
    LastTagWins(node.tags, parseInt);
  }

  /**
   * A power supply from the storefront has no `watts`: its rating went into
   * `power`, so it adds to the wattage total and the indicator compares the
   * total against 0, i.e. is red whenever no part draws negative power.
   */
  lemma StorefrontPsuIsAlwaysOverPower(node: ProductNode, parseInt: string -> Option<int>,
                                       parts: map<string, Part>, q: map<string, int>)
    requires Psu in parts && NormalizeNode(node, parseInt) == Kept(Psu, parts[Psu])
    requires NonNegativeDraw(parts, q)
    ensures OverPower(parts, q)
  {
    OverPowerWithoutRating(parts, q);
  }

  /** The parts kept under `c`, in the order of the nodes. */
  function KeptUnder(edges: seq<ProductNode>, parseInt: string -> Option<int>, c: string): (r: seq<Part>)
    ensures |r| <= |edges|
    ensures forall i :: 0 <= i < |r| ==> r[i].kind == c && r[i].watts.None? && r[i].sticks.Some? && r[i].sticks.value != 0
    decreases |edges|
  {
    if edges == [] then []
    else
      var o := NormalizeNode(edges[|edges| - 1], parseInt);
      KeptUnder(edges[..|edges| - 1], parseInt, c) + (if o.Kept? && o.category == c then [o.part] else [])
  }

  lemma KeptUnderStep(edges: seq<ProductNode>, parseInt: string -> Option<int>, i: nat)
    requires i < |edges|
    ensures forall c :: KeptUnder(edges[..i + 1], parseInt, c)
                     == KeptUnder(edges[..i], parseInt, c) + (var o := NormalizeNode(edges[i], parseInt);
                                                              if o.Kept? && o.category == c then [o.part] else [])
  {
    assert edges[..i + 1][..i] == edges[..i];
  }

  /** The `edges.forEach` callback for one node: read its tags, then keep, drop or throw. */
  method ReadNode(node: ProductNode, parseInt: string -> Option<int>) returns (o: NodeOutcome)
    ensures o == NormalizeNode(node, parseInt)
    ensures o.Kept? ==> o.category in CategoryKeys
  {
    var st := ReadTags(node.tags, parseInt);
    o := Dropped;
    if st.category.Some? && st.category.value != [] {
      var c := st.category.value;
      if c in CategoryKeys {
        o := Kept(c, NewPart(node, c, st.specs));
      } else if c in InheritedKeys {
        o := Throws;
      }
    }
  }

  /**
   * `parseShopifyData`: one array per slot key, each holding the kept parts
   * of that category in node order; `None` when some node's category makes
   * the push throw.
   */
  method ParseShopifyData(edges: seq<ProductNode>, parseInt: string -> Option<int>)
    returns (catalog: Option<map<string, seq<Part>>>)
    ensures catalog.None? <==> exists i :: 0 <= i < |edges| && NormalizeNode(edges[i], parseInt).Throws?
    ensures catalog.Some? ==> && catalog.value.Keys == CategoryKeys
                              && forall c :: c in CategoryKeys ==> catalog.value[c] == KeptUnder(edges, parseInt, c)
  {
    var data: map<string, seq<Part>> := map c | c in CategoryKeys :: [];
    var i := 0;
    assert edges[..0] == [];
    while i < |edges|
      invariant 0 <= i <= |edges|
      invariant data.Keys == CategoryKeys
      invariant forall c :: c in CategoryKeys ==> data[c] == KeptUnder(edges[..i], parseInt, c)
      invariant forall j :: 0 <= j < i ==> !NormalizeNode(edges[j], parseInt).Throws?
    {
      KeptUnderStep(edges, parseInt, i);
      var o := ReadNode(edges[i], parseInt);
      if o.Throws? {
        return None;
      }
      ghost var old_data := data;
      if o.Kept? {
        data := data[o.category := data[o.category] + [o.part]];
      }
      assert data.Keys == CategoryKeys;
      forall c | c in CategoryKeys ensures data[c] == KeptUnder(edges[..i + 1], parseInt, c) {
        assert data[c] == old_data[c] + (if o.Kept? && o.category == c then [o.part] else []);
      }
      assert forall j :: 0 <= j < i + 1 ==> !NormalizeNode(edges[j], parseInt).Throws?;
      i := i + 1;
    }
    assert edges[..|edges|] == edges;
    catalog := Some(data);
  }
}
