/**
 * The flood-kit list: items grouped into categories by title keywords, each
 * category with its icon, its decorated items and its installed count, and the
 * set of expanded categories.
 */
module FloodKitList {
  import opened Wrappers
  import opened Text
  import opened Lists
  import opened FloodKitSchema
  import opened FloodKitIcons
  import opened MyFloodKit

  /** The category a title falls into: the first keyword rule that matches, "Other" when none does. */
  function CategoryName(title: string): (name: string)
    ensures name in {"Doors & Windows", "Ventilation", "Plumbing", "Barriers", "Other"}
  {
    var t := ToLower(title);
    if Contains(t, "door") || Contains(t, "window") || Contains(t, "seal") then "Doors & Windows"
    else if Contains(t, "air brick") || Contains(t, "airbrick") || Contains(t, "vent") then "Ventilation"
    else if Contains(t, "toilet") || Contains(t, "bath") || Contains(t, "plumbing") then "Plumbing"
    else if Contains(t, "sandbag") || Contains(t, "barrier") then "Barriers"
    else "Other"
  }

  /** The icon a category gets from the item that creates it: the item's own icon, or the package icon for "Other". */
  function CategoryIcon(title: string): Icon {
    if CategoryName(title) == "Other" then Package else IconForFloodKitItem(title)
  }

  /** The demo location attached to an item. */
  function Location(title: string): (location: string)
    ensures location in {"Front Door", "Bathroom", "Exterior Wall", "Various"}
  {
    var t := ToLower(title);
    if Contains(t, "door") then "Front Door"
    else if Contains(t, "toilet") then "Bathroom"
    else if Contains(t, "air brick") then "Exterior Wall"
    else "Various"
  }

  /** Category rules in order: each category is chosen exactly when its keywords occur and no earlier rule's do. */
  lemma CategoryRules(title: string)
    ensures var t := ToLower(title);
      var door := Contains(t, "door") || Contains(t, "window") || Contains(t, "seal");
      var vent := Contains(t, "air brick") || Contains(t, "airbrick") || Contains(t, "vent");
      var plumbing := Contains(t, "toilet") || Contains(t, "bath") || Contains(t, "plumbing");
      var barrier := Contains(t, "sandbag") || Contains(t, "barrier");
      && (CategoryName(title) == "Doors & Windows" <==> door)
      && (CategoryName(title) == "Ventilation" <==> !door && vent)
      && (CategoryName(title) == "Plumbing" <==> !door && !vent && plumbing)
      && (CategoryName(title) == "Barriers" <==> !door && !vent && !plumbing && barrier)
      && (CategoryName(title) == "Other" <==> !door && !vent && !plumbing && !barrier)
  {
  }

  /** Location rules in order; they test fewer keywords than the category rules. */
  lemma LocationRules(title: string)
    ensures var t := ToLower(title);
      && (Location(title) == "Front Door" <==> Contains(t, "door"))
      && (Location(title) == "Bathroom" <==> !Contains(t, "door") && Contains(t, "toilet"))
      && (Location(title) == "Exterior Wall" <==> !Contains(t, "door") && !Contains(t, "toilet") && Contains(t, "air brick"))
      && (Location(title) == "Various" <==> !Contains(t, "door") && !Contains(t, "toilet") && !Contains(t, "air brick"))
  {
  }

  /** The demo cost attached to an item. */
  function Cost(p: Priority): nat {
    match p
    case High => 285
    case Medium => 150
    case Low => 75
  }

  /** Cost grows with priority. */
  lemma CostMonotone(p: Priority, q: Priority)
    ensures PriorityRank(p) <= PriorityRank(q) ==> Cost(p) <= Cost(q)
    ensures Cost(p) == Cost(q) <==> p == q
  {
  }

  function PriorityRank(p: Priority): nat {
    match p
    case Low => 0
    case Medium => 1
    case High => 2
  }

  /** An item as the list shows it: the item with a location, a quantity and a cost. */
  datatype ListedItem = ListedItem(item: FloodKitItem, location: string, quantity: nat, cost: nat)

  function Decorate(item: FloodKitItem): ListedItem {
    ListedItem(item, Location(item.title), 1, Cost(item.priority))
  }

  function Decorated(xs: seq<FloodKitItem>): (r: seq<ListedItem>)
    ensures |r| == |xs|
    ensures forall i :: 0 <= i < |xs| ==> r[i] == Decorate(xs[i])
  {
    seq(|xs|, i requires 0 <= i < |xs| => Decorate(xs[i]))
  }

  datatype Category = Category(name: string, icon: Icon, items: seq<ListedItem>)

  /** Where one item goes: its category's name, the icon it would give that category, and the item as listed. */
  datatype Placement = Placement(name: string, icon: Icon, listed: ListedItem)

  function Place(item: FloodKitItem): Placement {
    Placement(CategoryName(item.title), CategoryIcon(item.title), Decorate(item))
  }

  function Places(items: seq<FloodKitItem>): (r: seq<Placement>)
    ensures |r| == |items|
    ensures forall i :: 0 <= i < |items| ==> r[i] == Place(items[i])
  {
    seq(|items|, i requires 0 <= i < |items| => Place(items[i]))
  }

  /** Categories named `name`. */
  function Named(name: string): Category -> bool {
    (c: Category) => c.name == name
  }

  /** Items whose title falls into the category `name`. */
  function InCategory(name: string): FloodKitItem -> bool {
    (it: FloodKitItem) => CategoryName(it.title) == name
  }

  /** Placements into the category `name`. */
  function Into(name: string): Placement -> bool {
    (pl: Placement) => pl.name == name
  }

  /** The listed items of a run of placements. */
  function Listed(ps: seq<Placement>): (r: seq<ListedItem>)
    ensures |r| == |ps|
    ensures forall i :: 0 <= i < |ps| ==> r[i] == ps[i].listed
  {
    seq(|ps|, i requires 0 <= i < |ps| => ps[i].listed)
  }

  /** One step of `categorizeItems`: the item appended to its category, which is created (last) if new. */
  function AddPlaced(cats: seq<Category>, pl: Placement): (r: seq<Category>)
    ensures var f := FindIndex(cats, Named(pl.name));
      && (f.Some? ==> && |r| == |cats|
                      && cats[f.value].name == pl.name
                      && r[f.value] == cats[f.value].(items := cats[f.value].items + [pl.listed])
                      && forall j :: 0 <= j < |cats| && j != f.value ==> r[j] == cats[j])
      && (f.None? ==> && |r| == |cats| + 1
                      && (forall j :: 0 <= j < |cats| ==> r[j] == cats[j] && cats[j].name != pl.name)
                      && r[|cats|] == Category(pl.name, pl.icon, [pl.listed]))
  {
    var f := FindIndex(cats, Named(pl.name));
    if f.Some? then
      assert Named(pl.name)(cats[f.value]);
      cats[f.value := cats[f.value].(items := cats[f.value].items + [pl.listed])]
    else
      assert forall j :: 0 <= j < |cats| ==> !Named(pl.name)(cats[j]);
      cats + [Category(pl.name, pl.icon, [pl.listed])]
  }

  /** The categories built from a run of placements, in order of first appearance. */
  function Group(ps: seq<Placement>): seq<Category>
    decreases |ps|
  {
    if |ps| == 0 then [] else AddPlaced(Group(ps[..|ps| - 1]), ps[|ps| - 1])
  }

  /** `categorizeItems`: the categories in order of first appearance (`Object.values` over the record). */
  function Categorize(items: seq<FloodKitItem>): seq<Category> {
    Group(Places(items))
  }

  /** `categorizeItems` as written: one pass over the items, looking each item's category up in the record built so far. */
  method CategorizeItems(items: seq<FloodKitItem>) returns (cats: seq<Category>)
    ensures cats == Categorize(items)
  {
    cats := [];
    ghost var ps := Places(items);
    for i := 0 to |items|
      invariant cats == Group(ps[..i])
    {
      var item := items[i];
      ghost var expected := AddPlaced(cats, ps[i]);
      var name := CategoryName(item.title);
      var found := FindIndex(cats, Named(name));
      if found.Some? {
        var k := found.value;
        cats := cats[k := cats[k].(items := cats[k].items + [Decorate(item)])];
      } else {
        cats := cats + [Category(name, CategoryIcon(item.title), [Decorate(item)])];
      }
      assert |cats| == |expected| && forall j :: 0 <= j < |cats| ==> cats[j] == expected[j];
      assert ps[..i + 1][..i] == ps[..i];
    }
    assert ps[..|items|] == ps;
  }

  /** No two categories share a name. */
  predicate DistinctNames(cats: seq<Category>) {
    forall a, b :: 0 <= a < b < |cats| ==> cats[a].name != cats[b].name
  }

  /** Every placement's category is present. */
  predicate EveryPlacementGrouped(cats: seq<Category>, ps: seq<Placement>) {
    forall i :: 0 <= i < |ps| ==> exists k :: 0 <= k < |cats| && cats[k].name == ps[i].name
  }

  /** A category holds exactly the items placed into it, in order, at least one, under the icon the first of them gives. */
  predicate CategoryMatches(c: Category, ps: seq<Placement>) {
    && c.items == Listed(Filter(ps, Into(c.name)))
    && |c.items| > 0
    && c.icon == Filter(ps, Into(c.name))[0].icon
  }

  predicate CategoriesMatch(cats: seq<Category>, ps: seq<Placement>) {
    forall k :: 0 <= k < |cats| ==> CategoryMatches(cats[k], ps)
  }

  lemma DecoratedAppend(a: seq<FloodKitItem>, b: seq<FloodKitItem>)
    ensures Decorated(a + b) == Decorated(a) + Decorated(b)
  {
  }

  lemma ListedAppend(a: seq<Placement>, b: seq<Placement>)
    ensures Listed(a + b) == Listed(a) + Listed(b)
  {
  }

  /** Adding a placement keeps the category names distinct. */
  lemma AddPlacedDistinct(cats: seq<Category>, pl: Placement)
    requires DistinctNames(cats)
    ensures DistinctNames(AddPlaced(cats, pl))
  {
  }

  /** Adding a placement keeps every placement's category present, the new one's included. */
  lemma AddPlacedGrouped(cats: seq<Category>, init: seq<Placement>, pl: Placement)
    requires EveryPlacementGrouped(cats, init)
    ensures EveryPlacementGrouped(AddPlaced(cats, pl), init + [pl])
  {
    var ps := init + [pl];
    var next := AddPlaced(cats, pl);
    var found := FindIndex(cats, Named(pl.name));
    forall i | 0 <= i < |ps|
      ensures exists k :: 0 <= k < |next| && next[k].name == ps[i].name
    {
      if i < |init| {
        assert ps[i] == init[i];
        var j :| 0 <= j < |cats| && cats[j].name == init[i].name;
        assert next[j].name == cats[j].name;
      } else if found.Some? {
        assert next[found.value].name == pl.name;
      } else {
        assert next[|cats|].name == pl.name;
      }
    }
  }

  /** A placement run with no category of a name has no placement into it. */
  lemma NoCategoryNoPlacements(cats: seq<Category>, init: seq<Placement>, name: string)
    requires EveryPlacementGrouped(cats, init)
    requires forall j :: 0 <= j < |cats| ==> cats[j].name != name
    ensures Filter(init, Into(name)) == []
  {
  }

  /** The category a placement creates holds just that placement's item. */
  lemma AddPlacedMatchesNew(cats: seq<Category>, init: seq<Placement>, pl: Placement)
    requires EveryPlacementGrouped(cats, init)
    requires FindIndex(cats, Named(pl.name)).None?
    ensures CategoryMatches(AddPlaced(cats, pl)[|cats|], init + [pl])
  {
    NoCategoryNoPlacements(cats, init, pl.name);
    FilterAppend(init, [pl], Into(pl.name));
    FilterSingleton(pl, Into(pl.name));
  }

  /** A category a placement extends gains exactly that placement's item at its end. */
  lemma AddPlacedMatchesExtended(c: Category, init: seq<Placement>, pl: Placement)
    requires CategoryMatches(c, init) && c.name == pl.name
    ensures CategoryMatches(c.(items := c.items + [pl.listed]), init + [pl])
  {
    var p := Into(c.name);
    FilterAppend(init, [pl], p);
    FilterSingleton(pl, p);
    ListedAppend(Filter(init, p), [pl]);
  }

  /** A category of another name is unaffected by the placement. */
  lemma AddPlacedMatchesOther(c: Category, init: seq<Placement>, pl: Placement)
    requires CategoryMatches(c, init) && c.name != pl.name
    ensures CategoryMatches(c, init + [pl])
  {
    var p := Into(c.name);
    FilterAppend(init, [pl], p);
    FilterSingleton(pl, p);
    assert Filter(init + [pl], p) == Filter(init, p);
  }

  /** Adding a placement keeps every category equal to the items placed into it. */
  lemma AddPlacedMatches(cats: seq<Category>, init: seq<Placement>, pl: Placement)
    requires DistinctNames(cats) && EveryPlacementGrouped(cats, init) && CategoriesMatch(cats, init)
    ensures CategoriesMatch(AddPlaced(cats, pl), init + [pl])
  {
    var next := AddPlaced(cats, pl);
    var found := FindIndex(cats, Named(pl.name));
    forall k | 0 <= k < |next|
      ensures CategoryMatches(next[k], init + [pl])
    {
      if found == Some(k) {
        AddPlacedMatchesExtended(cats[k], init, pl);
      } else if k == |cats| {
        AddPlacedMatchesNew(cats, init, pl);
      } else {
        assert next[k] == cats[k];
        if found.Some? {
          assert cats[found.value].name == pl.name;
          assert cats[k].name != cats[found.value].name;
        }
        AddPlacedMatchesOther(cats[k], init, pl);
      }
    }
  }

  /**
   * Grouping partitions the placements: names are distinct, every placement's
   * category is present, and each category holds exactly the items placed into it,
   * in order, never none, under the icon the first of them gives.
   */
  lemma {:induction false} GroupCorrect(ps: seq<Placement>)
    ensures DistinctNames(Group(ps))
    ensures EveryPlacementGrouped(Group(ps), ps)
    ensures CategoriesMatch(Group(ps), ps)
    decreases |ps|
  {
    if |ps| > 0 {
      var init := ps[..|ps| - 1];
      var pl := ps[|ps| - 1];
      assert ps == init + [pl];
      GroupCorrect(init);
      AddPlacedDistinct(Group(init), pl);
      AddPlacedGrouped(Group(init), init, pl);
      AddPlacedMatches(Group(init), init, pl);
    }
  }

  /** The items placed into a category are the decorated items whose title falls into it, in list order. */
  lemma {:induction false} PlacedInto(items: seq<FloodKitItem>, name: string)
    ensures Listed(Filter(Places(items), Into(name))) == Decorated(Filter(items, InCategory(name)))
    decreases |items|
  {
    if |items| > 0 {
      var x := items[0];
      var ps := Places(items);
      PlacedInto(items[1..], name);
      assert ps[1..] == Places(items[1..]);
      assert ps[0] == Place(x);
      var headP := if Into(name)(Place(x)) then [Place(x)] else [];
      var headI := if InCategory(name)(x) then [x] else [];
      assert Filter(ps, Into(name)) == headP + Filter(ps[1..], Into(name));
      assert Filter(items, InCategory(name)) == headI + Filter(items[1..], InCategory(name));
      ListedAppend(headP, Filter(ps[1..], Into(name)));
      DecoratedAppend(headI, Filter(items[1..], InCategory(name)));
      assert Listed(headP) == Decorated(headI);
    }
  }

  /** Every placement of a list of items is the placement of the item it lists. */
  lemma PlacementOfListedItem(items: seq<FloodKitItem>, pl: Placement)
    requires pl in Places(items)
    ensures pl == Place(pl.listed.item)
  {
    var i :| 0 <= i < |items| && Places(items)[i] == pl;
  }

  /** A category built from the items' placements holds the decorated items of its name, under the first one's icon. */
  lemma CategoryOfItems(items: seq<FloodKitItem>, c: Category)
    requires CategoryMatches(c, Places(items))
    ensures var its := Filter(items, InCategory(c.name));
      && c.items == Decorated(its)
      && |its| > 0
      && c.icon == CategoryIcon(its[0].title)
  {
    var ps := Places(items);
    var its := Filter(items, InCategory(c.name));
    PlacedInto(items, c.name);
    var first := Filter(ps, Into(c.name))[0];
    assert c.items[0] == first.listed;
    assert c.items[0] == Decorate(its[0]);
    PlacementOfListedItem(items, first);
  }

  /**
   * `categorizeItems` partitions the items: category names are distinct, every item's
   * category is present, and each category holds, in list order, exactly the decorated
   * items whose title falls into it, never none, under the icon of the first of them
   * (the item's own icon, or the package icon for "Other").
   */
  lemma CategorizeCorrect(items: seq<FloodKitItem>)
    ensures DistinctNames(Categorize(items))
    ensures forall i :: 0 <= i < |items| ==>
      exists k :: 0 <= k < |Categorize(items)| && Categorize(items)[k].name == CategoryName(items[i].title)
    ensures forall k :: 0 <= k < |Categorize(items)| ==>
      var its := Filter(items, InCategory(Categorize(items)[k].name));
      && Categorize(items)[k].items == Decorated(its)
      && |its| > 0
      && Categorize(items)[k].icon == CategoryIcon(its[0].title)
  {
    var ps := Places(items);
    var cats := Categorize(items);
    GroupCorrect(ps);
    forall i | 0 <= i < |items|
      ensures exists k :: 0 <= k < |cats| && cats[k].name == CategoryName(items[i].title)
    {
      assert ps[i].name == CategoryName(items[i].title);
    }
    forall k | 0 <= k < |cats|
      ensures var its := Filter(items, InCategory(cats[k].name));
        && cats[k].items == Decorated(its)
        && |its| > 0
        && cats[k].icon == CategoryIcon(its[0].title)
    {
      assert CategoryMatches(cats[k], ps);
      CategoryOfItems(items, cats[k]);
    }
  }

  /** Categories come in the order of their first placements: each has one, and earlier categories' come earlier. */
  predicate FirstOccurrenceOrder(cats: seq<Category>, ps: seq<Placement>) {
    && (forall k :: 0 <= k < |cats| ==> FindIndex(ps, Into(cats[k].name)).Some?)
    && (forall k1, k2 :: 0 <= k1 < k2 < |cats| ==>
          var a, b := FindIndex(ps, Into(cats[k1].name)), FindIndex(ps, Into(cats[k2].name));
          a.Some? && b.Some? && a.value < b.value)
  }

  /** Pushing a placement keeps the first placement into every category that already had one. */
  lemma FirstPlacementsKept(cats: seq<Category>, next: seq<Category>, init: seq<Placement>, pl: Placement)
    requires |cats| <= |next|
    requires forall k :: 0 <= k < |cats| ==> next[k].name == cats[k].name
    requires forall k :: 0 <= k < |cats| ==> FindIndex(init, Into(cats[k].name)).Some?
    ensures forall k :: 0 <= k < |cats| ==>
      FindIndex(init + [pl], Into(next[k].name)) == FindIndex(init, Into(cats[k].name))
  {
    forall k | 0 <= k < |cats|
      ensures FindIndex(init + [pl], Into(next[k].name)) == FindIndex(init, Into(cats[k].name))
    {
      FindIndexSnoc(init, pl, Into(cats[k].name));
    }
  }

  /** A category that was new, appended last, has its first placement last. */
  lemma NewCategoryOrdered(cats: seq<Category>, next: seq<Category>, init: seq<Placement>, pl: Placement)
    requires |next| == |cats| + 1 && next[|cats|].name == pl.name
    requires forall k :: 0 <= k < |cats| ==> next[k].name == cats[k].name
    requires forall j :: 0 <= j < |init| ==> init[j].name != pl.name
    requires FirstOccurrenceOrder(cats, init)
    ensures FirstOccurrenceOrder(next, init + [pl])
  {
    var ps := init + [pl];
    FirstPlacementsKept(cats, next, init, pl);
    FindIndexSnoc(init, pl, Into(pl.name));
    assert FindIndex(ps, Into(next[|cats|].name)) == Some(|init|);
    forall k1, k2 | 0 <= k1 < k2 < |next|
      ensures var a, b := FindIndex(ps, Into(next[k1].name)), FindIndex(ps, Into(next[k2].name));
        a.Some? && b.Some? && a.value < b.value
    {
      if k2 == |cats| {
        assert FindIndex(ps, Into(next[k1].name)) == FindIndex(init, Into(cats[k1].name));
      }
    }
  }

  /** `AddPlaced` keeps the order: an existing category keeps its first placement, a new one is last and first placed last. */
  lemma AddPlacedOrdered(cats: seq<Category>, init: seq<Placement>, pl: Placement)
    requires EveryPlacementGrouped(cats, init)
    requires FirstOccurrenceOrder(cats, init)
    ensures FirstOccurrenceOrder(AddPlaced(cats, pl), init + [pl])
  {
    var next := AddPlaced(cats, pl);
    var f := FindIndex(cats, Named(pl.name));
    assert forall k :: 0 <= k < |cats| ==> next[k].name == cats[k].name;
    if f.Some? {
      FirstPlacementsKept(cats, next, init, pl);
    } else {
      forall j | 0 <= j < |init| ensures init[j].name != pl.name {
        var k :| 0 <= k < |cats| && cats[k].name == init[j].name;
      }
      NewCategoryOrdered(cats, next, init, pl);
    }
  }

  lemma {:induction false} GroupOrdered(ps: seq<Placement>)
    ensures FirstOccurrenceOrder(Group(ps), ps)
    decreases |ps|
  {
    if |ps| > 0 {
      var init := ps[..|ps| - 1];
      var pl := ps[|ps| - 1];
      assert ps == init + [pl];
      GroupOrdered(init);
      GroupCorrect(init);
      AddPlacedOrdered(Group(init), init, pl);
    }
  }

  /** The first placement into a category is at the position of the first item whose title falls into it. */
  lemma {:induction false} FirstPlacedInto(items: seq<FloodKitItem>, name: string)
    ensures FindIndex(Places(items), Into(name)) == FindIndex(items, InCategory(name))
    decreases |items|
  {
    if |items| > 0 {
      assert Places(items)[1..] == Places(items[1..]);
      FirstPlacedInto(items[1..], name);
    }
  }

  /**
   * Categories appear in the order their first items appear in the list: `categorizeItems`
   * only ever appends a category the first time one of its items is seen.
   */
  lemma CategoriesInFirstOccurrenceOrder(items: seq<FloodKitItem>)
    ensures forall k1, k2 :: 0 <= k1 < k2 < |Categorize(items)| ==>
      var a, b := FindIndex(items, InCategory(Categorize(items)[k1].name)),
                  FindIndex(items, InCategory(Categorize(items)[k2].name));
      a.Some? && b.Some? && a.value < b.value
  {
    var cats := Categorize(items);
    GroupOrdered(Places(items));
    forall k | 0 <= k < |cats|
      ensures FindIndex(items, InCategory(cats[k].name)) == FindIndex(Places(items), Into(cats[k].name))
    {
      FirstPlacedInto(items, cats[k].name);
    }
  }

  function SumSizes(cats: seq<Category>): nat
    decreases |cats|
  {
    if |cats| == 0 then 0 else |cats[0].items| + SumSizes(cats[1..])
  }

  lemma {:induction false} SumSizesUpdate(cats: seq<Category>, k: nat, c: Category)
    requires k < |cats|
    ensures SumSizes(cats[k := c]) + |cats[k].items| == SumSizes(cats) + |c.items|
    decreases |cats|
  {
    if k > 0 {
      assert cats[k := c][1..] == cats[1..][k - 1 := c];
      SumSizesUpdate(cats[1..], k - 1, c);
    }
  }

  lemma {:induction false} SumSizesAppend(cats: seq<Category>, c: Category)
    ensures SumSizes(cats + [c]) == SumSizes(cats) + |c.items|
    decreases |cats|
  {
    if |cats| > 0 {
      assert (cats + [c])[1..] == cats[1..] + [c];
      SumSizesAppend(cats[1..], c);
    }
  }

  /** Grouping loses and duplicates nothing: the category sizes add up to the number of placements. */
  lemma {:induction false} GroupKeepsCount(ps: seq<Placement>)
    ensures SumSizes(Group(ps)) == |ps|
    decreases |ps|
  {
    if |ps| > 0 {
      var init := ps[..|ps| - 1];
      var pl := ps[|ps| - 1];
      GroupKeepsCount(init);
      var cats := Group(init);
      var found := FindIndex(cats, Named(pl.name));
      if found.Some? {
        SumSizesUpdate(cats, found.value, cats[found.value].(items := cats[found.value].items + [pl.listed]));
        assert AddPlaced(cats, pl) == cats[found.value := cats[found.value].(items := cats[found.value].items + [pl.listed])];
      } else {
        SumSizesAppend(cats, Category(pl.name, pl.icon, [pl.listed]));
        assert AddPlaced(cats, pl) == cats + [Category(pl.name, pl.icon, [pl.listed])];
      }
    }
  }

  /** No item is lost or duplicated: the category sizes add up to the number of items. */
  lemma CategorizeKeepsCount(items: seq<FloodKitItem>)
    ensures SumSizes(Categorize(items)) == |items|
  {
    GroupKeepsCount(Places(items));
  }

  /** A category's "n installed" count. */
  function InstalledInCategory(c: Category, cs: CompletedSteps,
                               installed: (FloodKitItem, CompletedSteps) -> bool): (n: nat)
    ensures n <= |c.items|
  {
    |Filter(c.items, (li: ListedItem) => installed(li.item, cs))|
  }

  /** A category's "Completed" badge: every item in it installed. */
  predicate CategoryCompleted(c: Category, cs: CompletedSteps,
                              installed: (FloodKitItem, CompletedSteps) -> bool) {
    forall j :: 0 <= j < |c.items| ==> installed(c.items[j].item, cs)
  }

  /** The "Completed" badge shows exactly when the installed count equals the category size. */
  lemma CategoryCompletedIffAllCounted(c: Category, cs: CompletedSteps,
                                       installed: (FloodKitItem, CompletedSteps) -> bool)
    ensures CategoryCompleted(c, cs, installed) <==> InstalledInCategory(c, cs, installed) == |c.items|
  {
    FilterAll(c.items, (li: ListedItem) => installed(li.item, cs));
  }

  /** `toggleCategory` on the expanded set. */
  function Toggled(expanded: set<string>, name: string): (r: set<string>)
    ensures name in r <==> name !in expanded
    ensures forall n :: n != name ==> (n in r <==> n in expanded)
  {
    if name in expanded then expanded - {name} else expanded + {name}
  }

  /** Toggling a category twice restores the expanded set. */
  lemma ToggleTwice(expanded: set<string>, name: string)
    ensures Toggled(Toggled(expanded, name), name) == expanded
  {
  }

  /** The list's own state: which categories are expanded; all collapsed at first. */
  class FloodKitListView {
    var expanded: set<string>

    constructor ()
      ensures expanded == {}
    {
      expanded := {};
    }

    method ToggleCategory(name: string)
      modifies this
      ensures expanded == Toggled(old(expanded), name)
    {
      if name in expanded {
        expanded := expanded - {name};
      } else {
        expanded := expanded + {name};
      }
    }

    predicate IsExpanded(name: string)
      reads this
    {
      name in expanded
    }
  }
}
