/**
 * Figures derived from a build: the price and wattage totals, the
 * over-power indicator, the number of memory sticks and the quote lines.
 * A build is the pair of maps the page keeps: `parts` (slot key to part)
 * and `q` (slot key to quantity).
 */
module Metrics {

  import opened Wrappers
  import opened Parts

  /** Fixed draw added to every wattage total. */
  const WattageBaseline := 100

  datatype Figure = Price | Power

  /** A part's own price, or its power draw with an absent or zero draw counting as 0. */
  function FigureOf(p: Part, f: Figure): int {
    match f
    case Price => p.price
    case Power => OrDefault(p.power, 0)
  }

  /** What slot `k` adds to a total: the part's figure times the slot's quantity. */
  function Contribution(parts: map<string, Part>, q: map<string, int>, k: string, f: Figure): int
    requires k in parts
  {
    FigureOf(parts[k], f) * QtyOf(q, k)
  }

  /** Sum of the contributions of the slots in `keys`, in no particular order. */
  ghost function Sum(parts: map<string, Part>, q: map<string, int>, keys: set<string>, f: Figure): (r: int)
    requires keys <= parts.Keys
    ensures keys == {} ==> r == 0
    ensures (forall k :: k in keys ==> Contribution(parts, q, k, f) >= 0) ==> r >= 0
    decreases keys
  {
    if keys == {} then 0 else var k :| k in keys; Contribution(parts, q, k, f) + Sum(parts, q, keys - {k}, f)
  }

  /** The order in which the slots are added up does not matter: any slot can be taken out first. */
  lemma {:induction false} SumPick(parts: map<string, Part>, q: map<string, int>, keys: set<string>, f: Figure, k: string)
    requires keys <= parts.Keys
    requires k in keys
    ensures Sum(parts, q, keys, f) == Contribution(parts, q, k, f) + Sum(parts, q, keys - {k}, f)
    decreases keys
  {
    var j :| j in keys && Sum(parts, q, keys, f) == Contribution(parts, q, j, f) + Sum(parts, q, keys - {j}, f);
    if j != k {
      SumPick(parts, q, keys - {j}, f, k);
      SumPick(parts, q, keys - {k}, f, j);
      assert keys - {j} - {k} == keys - {k} - {j};
    }
  }

  /** Two builds whose slots in `keys` contribute alike have the same sum over `keys`. */
  lemma {:induction false} SumFrame(p1: map<string, Part>, q1: map<string, int>, p2: map<string, Part>, q2: map<string, int>,
                                    keys: set<string>, f: Figure)
    requires keys <= p1.Keys && keys <= p2.Keys
    requires forall k :: k in keys ==> Contribution(p1, q1, k, f) == Contribution(p2, q2, k, f)
    ensures Sum(p1, q1, keys, f) == Sum(p2, q2, keys, f)
    decreases keys
  {
    if keys != {} {
      var k :| k in keys;
      SumPick(p1, q1, keys, f, k);
      SumPick(p2, q2, keys, f, k);
      SumFrame(p1, q1, p2, q2, keys - {k}, f);
    }
  }

  /** `totalPrice`: every occupied slot's price times its quantity (an absent quantity counts as 1). */
  ghost function TotalPrice(parts: map<string, Part>, q: map<string, int>): (r: int)
    ensures parts == map[] ==> r == 0
  {
    Sum(parts, q, parts.Keys, Price)
  }

  /** `totalWattage`: every occupied slot's power draw times its quantity, plus the fixed baseline. */
  ghost function TotalWattage(parts: map<string, Part>, q: map<string, int>): (r: int)
    ensures parts == map[] ==> r == WattageBaseline
  {
    Sum(parts, q, parts.Keys, Power) + WattageBaseline
  }

  /**
   * Placing `item` in slot `key` with quantity 1 replaces what that slot
   * contributed to a total by the item's own figure; every other slot
   * contributes as before.
   */
  lemma {:induction false} PlaceChangesTotal(parts: map<string, Part>, q: map<string, int>, key: string, item: Part, f: Figure)
    ensures Sum(parts[key := item], q[key := 1], parts[key := item].Keys, f)
         == Sum(parts, q, parts.Keys, f) - (if key in parts then Contribution(parts, q, key, f) else 0) + FigureOf(item, f)
  {
    var p', q' := parts[key := item], q[key := 1];
    var rest := parts.Keys - {key};
    SumPick(p', q', p'.Keys, f, key);
    assert p'.Keys - {key} == rest;
    SumFrame(p', q', parts, q, rest, f);
    if key in parts {
      SumPick(parts, q, parts.Keys, f, key);
    } else {
      assert rest == parts.Keys;
    }
  }

  /** Emptying slot `key` takes away exactly what that slot contributed to a total. */
  lemma {:induction false} RemoveChangesTotal(parts: map<string, Part>, q: map<string, int>, key: string, f: Figure)
    ensures Sum(parts - {key}, q - {key}, (parts - {key}).Keys, f)
         == Sum(parts, q, parts.Keys, f) - (if key in parts then Contribution(parts, q, key, f) else 0)
  {
    var p', q' := parts - {key}, q - {key};
    SumFrame(p', q', parts, q, p'.Keys, f);
    if key in parts {
      SumPick(parts, q, parts.Keys, f, key);
      assert p'.Keys == parts.Keys - {key};
    } else {
      assert p'.Keys == parts.Keys;
    }
  }

  /** Setting one occupied slot to a non-zero quantity changes a total by the figure times the change. */
  lemma {:induction false} QuantityChangesTotal(parts: map<string, Part>, q: map<string, int>, key: string, n: int, f: Figure)
    requires key in parts && n != 0
    ensures Sum(parts, q[key := n], parts.Keys, f)
         == Sum(parts, q, parts.Keys, f) + FigureOf(parts[key], f) * (n - QtyOf(q, key))
  {
    var q' := q[key := n];
    SumPick(parts, q', parts.Keys, f, key);
    SumPick(parts, q, parts.Keys, f, key);
    forall k | k in parts.Keys - {key}
      ensures Contribution(parts, q', k, f) == Contribution(parts, q, k, f)
    {
      assert QtyOf(q', k) == QtyOf(q, k);
    }
    SumFrame(parts, q', parts, q, parts.Keys - {key}, f);
    var x, m := FigureOf(parts[key], f), QtyOf(q, key);
    assert Contribution(parts, q', key, f) == x * n;
    assert Contribution(parts, q, key, f) == x * m;
    Distribute(x, n, m);
  }

  lemma Distribute(x: int, n: int, m: int)
    ensures x * n == x * m + x * (n - m)
  {
  }

  /** The rating the indicator compares against: the power supply's `watts`, or 0 without one. */
  function PsuRating(parts: map<string, Part>): (w: int)
    ensures Psu !in parts || parts[Psu].watts.None? ==> w == 0
    ensures Psu in parts && parts[Psu].watts.Some? ==> w == parts[Psu].watts.value
  {
    if Psu in parts then OrDefault(parts[Psu].watts, 0) else 0
  }

  /**
   * The red power indicator: the wattage total is above the power supply's
   * `watts`, or above 0 when no power supply or no rating is there.
   */
  ghost predicate OverPower(parts: map<string, Part>, q: map<string, int>): (red: bool)
    ensures Psu in parts && parts[Psu].watts.Some? ==> (red <==> TotalWattage(parts, q) > parts[Psu].watts.value)
    ensures Psu !in parts || parts[Psu].watts.None? ==> (red <==> TotalWattage(parts, q) > 0)
  {
    TotalWattage(parts, q) > PsuRating(parts)
  }

  /** Every part's power draw is non-negative and every stored quantity is non-negative. */
  predicate NonNegativeDraw(parts: map<string, Part>, q: map<string, int>) {
    && (forall k :: k in parts ==> OrDefault(parts[k].power, 0) >= 0)
    && (forall k :: k in q ==> q[k] >= 0)
  }

  /** With non-negative draws the wattage total is at least the baseline. */
  lemma WattageAtLeastBaseline(parts: map<string, Part>, q: map<string, int>)
    requires NonNegativeDraw(parts, q)
    ensures TotalWattage(parts, q) >= WattageBaseline
  {
    forall k | k in parts.Keys
      ensures Contribution(parts, q, k, Power) >= 0
    {
      assert QtyOf(q, k) > 0;
    }
  }

  /**
   * With non-negative power draws and quantities, no power supply, or one
   * whose `watts` is absent or 0, turns the indicator red.
   */
  lemma OverPowerWithoutRating(parts: map<string, Part>, q: map<string, int>)
    requires NonNegativeDraw(parts, q)
    requires Psu !in parts || OrDefault(parts[Psu].watts, 0) == 0
    ensures OverPower(parts, q)
  {
    WattageAtLeastBaseline(parts, q);
  }

  /**
   * `totalRamSticks`: the memory quantity times the sticks per kit (each
   * absent or zero value counting as 1); zero exactly when no memory is placed.
   */
  function TotalRamSticks(parts: map<string, Part>, q: map<string, int>): (r: int)
    ensures r == 0 <==> Ram !in parts
    ensures Ram in parts && parts[Ram].sticks.None? && Ram !in q ==> r == 1
  {
    if Ram !in parts then 0 else QtyOf(q, Ram) * OrDefault(parts[Ram].sticks, 1)
  }

  /** One line of the quote: the slot, the part's name, its quantity and price times quantity. */
  datatype QuoteLine = QuoteLine(key: string, caption: string, name: string, qty: int, lineTotal: int)

  /** The quote lines for the slots of `cats`, in that order, skipping empty slots. */
  function QuoteLinesOf(parts: map<string, Part>, q: map<string, int>, cats: seq<Category>): (lines: seq<QuoteLine>)
    ensures |lines| <= |cats|
    ensures forall i :: 0 <= i < |lines| ==> Describes(parts, q, lines[i])
  {
    if cats == [] then []
    else
      var c := cats[0];
      var rest := QuoteLinesOf(parts, q, cats[1..]);
      if c.key in parts then
        var qty := QtyOf(q, c.key);
        [QuoteLine(c.key, c.caption, parts[c.key].name, qty, parts[c.key].price * qty)] + rest
      else
        rest
  }

  /** `line` agrees with the build: its slot is occupied, and name, quantity and total are that slot's. */
  predicate Describes(parts: map<string, Part>, q: map<string, int>, line: QuoteLine) {
    && line.key in parts
    && line.name == parts[line.key].name
    && line.qty == QtyOf(q, line.key)
    && line.lineTotal == parts[line.key].price * line.qty
  }

  /**
   * The quote lists the slots of `cats` that are occupied, each once, in the
   * order of `cats`, each line under its category's key and caption.
   */
  lemma {:induction false} QuoteListsOccupiedSlots(parts: map<string, Part>, q: map<string, int>, cats: seq<Category>)
    ensures LineSlots(QuoteLinesOf(parts, q, cats)) == OccupiedSlots(parts, cats)
  {
    if cats != [] {
      QuoteListsOccupiedSlots(parts, q, cats[1..]);
    }
  }

  /** The category (key and caption) each line is headed by. */
  function LineSlots(lines: seq<QuoteLine>): seq<Category> {
    if lines == [] then [] else [Category(lines[0].key, lines[0].caption)] + LineSlots(lines[1..])
  }

  /** The categories of `cats` whose slot is occupied, in the order of `cats`. */
  function OccupiedSlots(parts: map<string, Part>, cats: seq<Category>): seq<Category> {
    if cats == [] then []
    else (if cats[0].key in parts then [cats[0]] else []) + OccupiedSlots(parts, cats[1..])
  }

  /** The quote lines of `handleWhatsAppSubmit`, one per occupied slot in category order. */
  function QuoteLines(parts: map<string, Part>, q: map<string, int>): (lines: seq<QuoteLine>)
    ensures |lines| <= |Categories|
    ensures forall i :: 0 <= i < |lines| ==> Describes(parts, q, lines[i])
    ensures LineSlots(lines) == OccupiedSlots(parts, Categories)
  {
    QuoteListsOccupiedSlots(parts, q, Categories);
    QuoteLinesOf(parts, q, Categories)
  }

  function LineSum(lines: seq<QuoteLine>): int {
    if lines == [] then 0 else lines[0].lineTotal + LineSum(lines[1..])
  }

  /** The line totals for `cats` add up to the price total over the occupied slots of `cats`. */
  lemma {:induction false} LineSumIsPartialTotal(parts: map<string, Part>, q: map<string, int>, cats: seq<Category>)
    requires DistinctKeys(cats)
    ensures LineSum(QuoteLinesOf(parts, q, cats)) == Sum(parts, q, parts.Keys * KeySet(cats), Price)
  {
    if cats != [] {
      var c, rest := cats[0], cats[1..];
      DistinctKeysTail(cats);
      LineSumIsPartialTotal(parts, q, rest);
      var s, s' := parts.Keys * KeySet(cats), parts.Keys * KeySet(rest);
      if c.key in parts {
        SumPick(parts, q, s, Price, c.key);
        assert s - {c.key} == s';
      } else {
        assert s == s';
      }
    }
  }

  /** Without its first category, `cats` still has distinct keys, and they are all of its keys but the first one. */
  lemma DistinctKeysTail(cats: seq<Category>)
    requires cats != [] && DistinctKeys(cats)
    ensures DistinctKeys(cats[1..])
    ensures cats[0].key !in KeySet(cats[1..])
    ensures KeySet(cats) == {cats[0].key} + KeySet(cats[1..])
  {
    var c, rest := cats[0], cats[1..];
    forall i, j | 0 <= i < j < |rest| ensures rest[i].key != rest[j].key {
      assert rest[i] == cats[i + 1] && rest[j] == cats[j + 1];
    }
    forall d | d in rest ensures d.key != c.key {
      var j :| 0 <= j < |rest| && rest[j] == d;
      assert cats[j + 1] == d;
    }
    assert forall d :: d in cats <==> d == c || d in rest;
  }

  /**
   * When only the eight slot keys are used, the quote's line totals add up
   * to the price total shown on the page.
   */
  lemma QuoteAddsUpToTotal(parts: map<string, Part>, q: map<string, int>)
    requires parts.Keys <= CategoryKeys
    ensures LineSum(QuoteLines(parts, q)) == TotalPrice(parts, q)
  {
    CategoriesAreTheKeys();
    LineSumIsPartialTotal(parts, q, Categories);
    assert parts.Keys * KeySet(Categories) == parts.Keys;
  }
}
