/**
 * The catalog search: parts whose name or brand contains the search term,
 * ignoring case, listed per slot in category order.
 */
module Search {

  import opened Wrappers
  import opened Text
  import opened Parts

  /** The name, or else the brand when there is one, contains the term once both are lower-cased. */
  predicate Matches(item: Part, term: string): (m: bool)
    ensures term == [] ==> m
  {
    ContainsEmpty(Lower(item.name));
    || Contains(Lower(item.name), Lower(term))
    || (item.brand.Some? && Contains(Lower(item.brand.value), Lower(term)))
  }

  /** `items.filter(...)`: the matching items, in their original order. */
  function FilterParts(items: seq<Part>, term: string): (r: seq<Part>)
    ensures |r| <= |items|
    ensures forall i :: 0 <= i < |r| ==> Matches(r[i], term) && r[i] in items
    ensures forall i :: 0 <= i < |items| && Matches(items[i], term) ==> items[i] in r
  {
    if items == [] then []
    else (if Matches(items[0], term) then [items[0]] else []) + FilterParts(items[1..], term)
  }

  /**
   * The filter on its own keeps every part for the empty term. The page never
   * makes that call: with an empty search box it lists the catalog unfiltered.
   */
  lemma {:induction false} EmptyTermKeepsAll(items: seq<Part>)
    ensures FilterParts(items, []) == items
  {
    if items != [] {
      EmptyTermKeepsAll(items[1..]);
    }
  }

  lemma LowerIsIdempotent(s: string)
    ensures Lower(Lower(s)) == Lower(s)
  {
  }

  /** Searching is insensitive to the case of the term: the lower-cased term finds the same parts. */
  lemma {:induction false} TermCaseIgnored(items: seq<Part>, term: string)
    ensures FilterParts(items, Lower(term)) == FilterParts(items, term)
  {
    LowerIsIdempotent(term);
    if items != [] {
      TermCaseIgnored(items[1..], term);
    }
  }

  /** `componentData[key] || []`: a slot missing from the catalog lists nothing. */
  function ListOf(catalog: map<string, seq<Part>>, key: string): seq<Part> {
    if key in catalog then catalog[key] else []
  }

  /** The matches for the slots of `cats`, in that order, leaving out slots with no match. */
  function SearchIn(catalog: map<string, seq<Part>>, term: string, cats: seq<Category>): (r: seq<(Category, seq<Part>)>)
    ensures |r| <= |cats|
    ensures forall i :: 0 <= i < |r| ==> r[i].0 in cats && r[i].1 != [] && r[i].1 == FilterParts(ListOf(catalog, r[i].0.key), term)
  {
    if cats == [] then []
    else
      var matches := FilterParts(ListOf(catalog, cats[0].key), term);
      var rest := SearchIn(catalog, term, cats[1..]);
      assert forall c :: c in cats[1..] ==> c in cats;
      if matches == [] then rest
      else
        var r := [(cats[0], matches)] + rest;
        assert forall i :: 0 <= i < |rest| ==> r[i + 1] == rest[i];
        r
  }

  /** Every slot of `cats` with at least one matching part is listed. */
  lemma {:induction false} SearchListsEveryMatchingSlot(catalog: map<string, seq<Part>>, term: string, cats: seq<Category>, c: Category)
    requires c in cats && FilterParts(ListOf(catalog, c.key), term) != []
    ensures exists i :: 0 <= i < |SearchIn(catalog, term, cats)| && SearchIn(catalog, term, cats)[i].0 == c
  {
    var r := SearchIn(catalog, term, cats);
    if FilterParts(ListOf(catalog, cats[0].key), term) != [] && cats[0] == c {
      assert r[0].0 == c;
    } else {
      SearchListsEveryMatchingSlot(catalog, term, cats[1..], c);
      var rest := SearchIn(catalog, term, cats[1..]);
      var i :| 0 <= i < |rest| && rest[i].0 == c;
      if FilterParts(ListOf(catalog, cats[0].key), term) != [] {
        assert r[i + 1] == rest[i];
      } else {
        assert r[i] == rest[i];
      }
    }
  }

  /** The slots a listing shows, in its order. */
  function ListedSlots(r: seq<(Category, seq<Part>)>): seq<Category> {
    if r == [] then [] else [r[0].0] + ListedSlots(r[1..])
  }

  /** The categories of `cats` with at least one matching part, in the order of `cats`. */
  function MatchingSlots(catalog: map<string, seq<Part>>, term: string, cats: seq<Category>): seq<Category> {
    if cats == [] then []
    else (if FilterParts(ListOf(catalog, cats[0].key), term) != [] then [cats[0]] else []) + MatchingSlots(catalog, term, cats[1..])
  }

  /** The listing shows exactly the slots of `cats` that have a match, each once, in the order of `cats`. */
  lemma {:induction false} SearchListsMatchingSlotsInOrder(catalog: map<string, seq<Part>>, term: string, cats: seq<Category>)
    ensures ListedSlots(SearchIn(catalog, term, cats)) == MatchingSlots(catalog, term, cats)
  {
    if cats != [] {
      SearchListsMatchingSlotsInOrder(catalog, term, cats[1..]);
      var rest := SearchIn(catalog, term, cats[1..]);
      if FilterParts(ListOf(catalog, cats[0].key), term) != [] {
        var r := SearchIn(catalog, term, cats);
        assert r[1..] == rest;
      }
    }
  }

  /** The search listing: each slot in category order with its matching parts. */
  function SearchCatalog(catalog: map<string, seq<Part>>, term: string): (r: seq<(Category, seq<Part>)>)
    ensures |r| <= |Categories|
    ensures forall i :: 0 <= i < |r| ==> r[i].0 in Categories && r[i].1 != [] && r[i].1 == FilterParts(ListOf(catalog, r[i].0.key), term)
    ensures forall c :: c in Categories && FilterParts(ListOf(catalog, c.key), term) != [] ==> exists i :: 0 <= i < |r| && r[i].0 == c
    ensures ListedSlots(r) == MatchingSlots(catalog, term, Categories)
  {
    SearchListsMatchingSlotsInOrder(catalog, term, Categories);
    assert forall c :: c in Categories && FilterParts(ListOf(catalog, c.key), term) != [] ==>
                       exists i :: 0 <= i < |SearchIn(catalog, term, Categories)| && SearchIn(catalog, term, Categories)[i].0 == c by {
      forall c | c in Categories && FilterParts(ListOf(catalog, c.key), term) != []
        ensures exists i :: 0 <= i < |SearchIn(catalog, term, Categories)| && SearchIn(catalog, term, Categories)[i].0 == c
      {
        SearchListsEveryMatchingSlot(catalog, term, Categories, c);
      }
    }
    SearchIn(catalog, term, Categories)
  }
}
