/** The menu half of the restaurant details page: normalising the foods
    payload, grouping foods into category chips, and the menu grid filter
    (src/user/pages/pasindu/restaurent/RestaurentDetails.js). */
module Menu {
  import opened Js
  import opened Seqs

  /** A menu item as the foods endpoint returns it. `price` is the result of
      `parseFloat(food.price)`: `None` when it does not parse. */
  datatype Food = Food(
    id: string,
    name: Option<string>,
    price: Option<real>,
    category: Option<string>,
    availability: Option<string>)

  // ---------------------------------------------------------------------
  // Payload normalisation

  /** One of `data.foods`, `data.data`, `data.items`, as far as `||` sees it. */
  datatype Candidate = Falsy | FoodArray(items: seq<Food>) | TruthyNonArray

  /** The body of the foods response. `OtherBody` is null or a primitive,
      on which every optional property read gives `undefined`. */
  datatype FoodsBody =
    | ArrayBody(elements: seq<Food>)
    | ObjectBody(foodsField: Candidate, dataField: Candidate, itemsField: Candidate)
    | OtherBody

  /** What the normalisation hands to `setFoods`: a list, or a truthy value
      that is not a list (on which the category `reduce` throws). */
  datatype FoodList = FoodList(list: seq<Food>) | NotAList

  function CandidateValue(c: Candidate): FoodList
    requires c != Falsy
  {
    if c.FoodArray? then FoodList(c.items) else NotAList
  }

  /** `(Array.isArray(d) && d) || d?.foods || d?.data || d?.items || []`. An
      array, even an empty one, is truthy, so it ends the chain. */
  function NormalizeFoods(body: FoodsBody): (r: FoodList)
    ensures body.ArrayBody? ==> r == FoodList(body.elements)
    ensures body.OtherBody? ==> r == FoodList([])
    ensures r.NotAList? <==> body.ObjectBody? && FirstTruthy(body).TruthyNonArray?
    ensures body.ObjectBody? && FirstTruthy(body).FoodArray? ==> r == FoodList(FirstTruthy(body).items)
    ensures body.ObjectBody? && FirstTruthy(body) == Falsy ==> r == FoodList([])
  {
    match body
    case ArrayBody(items) => FoodList(items)
    case OtherBody => FoodList([])
    case ObjectBody(foods, data, items) =>
      if foods != Falsy then CandidateValue(foods)
      else if data != Falsy then CandidateValue(data)
      else if items != Falsy then CandidateValue(items)
      else FoodList([])
  }

  /** The first truthy wrapper field of an object body (`Falsy` if none). */
  function FirstTruthy(body: FoodsBody): Candidate
    requires body.ObjectBody?
  {
    if body.foodsField != Falsy then body.foodsField
    else if body.dataField != Falsy then body.dataField
    else body.itemsField
  }

  /** A later wrapper field is consulted only when every earlier one is falsy:
      an empty `foods` array hides a non-empty `data` array. */
  lemma EmptyFoodsShadowsData(data: Candidate, items: Candidate)
    ensures NormalizeFoods(ObjectBody(FoodArray([]), data, items)) == FoodList([])
  {
  }

  /** Whatever list comes out was one of the body's own lists. */
  lemma NormalizedListComesFromBody(body: FoodsBody)
    requires NormalizeFoods(body).FoodList? && NormalizeFoods(body).list != []
    ensures body.ArrayBody? || (body.ObjectBody? && FirstTruthy(body) == FoodArray(NormalizeFoods(body).list))
  {
  }

  // ---------------------------------------------------------------------
  // Category grouping

  /** `(f.category || "Uncategorized").trim()`: "Uncategorized" for a
      missing or empty category. */
  function CategoryKey(f: Food): (key: string)
    ensures !Present(f.category) ==> key == "Uncategorized"
  {
    TrimUnpadded("Uncategorized");
    Trim(if Present(f.category) then f.category.value else "Uncategorized")
  }

  /** The foods of one category, in menu order. */
  function InCategory(list: seq<Food>, key: string): seq<Food>
  {
    Keep(list, f => CategoryKey(f) == key)
  }

  /** The categories that occur in `list`. */
  function CategoriesOf(list: seq<Food>): set<string>
  {
    set f | f in list :: CategoryKey(f)
  }

  /** The grouping the category `reduce` at lines 66-71 builds: foods are
      taken in menu order and each is pushed onto the group of its key. */
  function Grouped(list: seq<Food>): (byCat: map<string, seq<Food>>)
    ensures forall k :: k in byCat ==> byCat[k] != []
    decreases |list|
  {
    if list == [] then map[]
    else
      var init, f := list[..|list| - 1], list[|list| - 1];
      var g, key := Grouped(init), CategoryKey(f);
      g[key := (if key in g then g[key] else []) + [f]]
  }

  lemma CategoriesOfAppend(list: seq<Food>, f: Food)
    ensures CategoriesOf(list + [f]) == CategoriesOf(list) + {CategoryKey(f)}
  {
    forall x | x in list + [f] ensures x in list || x == f { }
  }

  lemma InCategoryAppend(list: seq<Food>, f: Food, k: string)
    ensures InCategory(list + [f], k) == InCategory(list, k) + (if CategoryKey(f) == k then [f] else [])
  {
    KeepAppend(list, f, x => CategoryKey(x) == k);
  }

  lemma InCategoryAbsent(list: seq<Food>, k: string)
    requires k !in CategoriesOf(list)
    ensures InCategory(list, k) == []
  {
    forall i | 0 <= i < |list| ensures CategoryKey(list[i]) != k {
      assert list[i] in list;
    }
    KeepNone(list, x => CategoryKey(x) == k);
  }

  /** The groups the fold builds are exactly the categories that occur, and
      each group is the menu filtered to that category, in menu order. */
  lemma {:induction false} GroupedIsFilter(list: seq<Food>)
    ensures Grouped(list).Keys == CategoriesOf(list)
    ensures forall k :: k in Grouped(list) ==> Grouped(list)[k] == InCategory(list, k)
    decreases |list|
  {
    if list == [] {
    } else {
      var init, f := list[..|list| - 1], list[|list| - 1];
      assert list == init + [f];
      GroupedIsFilter(init);
      CategoriesOfAppend(init, f);
      var key := CategoryKey(f);
      forall k | k in Grouped(list)
        ensures Grouped(list)[k] == InCategory(list, k)
      {
        InCategoryAppend(init, f, k);
        if k == key && key !in Grouped(init) {
          InCategoryAbsent(init, key);
        }
      }
    }
  }

  /** The category `reduce` at lines 66-71: walks the list, pushing each food
      onto the array stored under its key. */
  method GroupByCategory(list: seq<Food>) returns (byCat: map<string, seq<Food>>)
    ensures byCat == Grouped(list)
    ensures byCat.Keys == CategoriesOf(list)
    ensures forall k :: k in byCat ==> byCat[k] == InCategory(list, k)
  {
    byCat := map[];
    for i := 0 to |list|
      invariant byCat == Grouped(list[..i])
    {
      var f := list[i];
      var key := CategoryKey(f);
      var group := if key in byCat then byCat[key] else [];
      byCat := byCat[key := group + [f]];
      assert list[..i + 1][..i] == list[..i];
    }
    assert list[..|list|] == list;
    GroupedIsFilter(list);
  }

  /** Every food lands in the group of its own key and in no other. */
  lemma GroupingPlacesEachFoodOnce(list: seq<Food>, f: Food, k: string)
    requires f in list
    ensures CategoryKey(f) in Grouped(list) && f in Grouped(list)[CategoryKey(f)]
    ensures k in Grouped(list) && f in Grouped(list)[k] ==> k == CategoryKey(f)
  {
    GroupedIsFilter(list);
  }

  /** Within a group the foods keep their menu order. */
  lemma GroupKeepsOrder(list: seq<Food>, k: string)
    requires k in Grouped(list)
    ensures IsSubsequence(Grouped(list)[k], list)
  {
    GroupedIsFilter(list);
    KeepIsSubsequence(list, f => CategoryKey(f) == k);
  }

  predicate Distinct(ks: seq<string>)
  {
    forall i, j :: 0 <= i < j < |ks| ==> ks[i] != ks[j]
  }

  /** Total size of the groups named in `ks`. */
  function GroupSizes(m: map<string, seq<Food>>, ks: seq<string>): nat
  {
    if ks == [] then 0 else (if ks[0] in m then |m[ks[0]]| else 0) + GroupSizes(m, ks[1..])
  }

  /** Total size of the categories named in `ks`, counted directly on the list. */
  function CategorySizes(list: seq<Food>, ks: seq<string>): nat
  {
    if ks == [] then 0 else |InCategory(list, ks[0])| + CategorySizes(list, ks[1..])
  }

  function Occurrences(ks: seq<string>, k: string): nat
  {
    if ks == [] then 0 else (if ks[0] == k then 1 else 0) + Occurrences(ks[1..], k)
  }

  lemma {:induction false} OccursOnce(ks: seq<string>, k: string)
    requires Distinct(ks) && k in ks
    ensures Occurrences(ks, k) == 1
  {
    if ks[0] == k {
      assert k !in ks[1..] by {
        forall j | 0 <= j < |ks[1..]| ensures ks[1..][j] != k {
          assert ks[1..][j] == ks[j + 1];
        }
      }
      OccursNot(ks[1..], k);
    } else {
      OccursOnce(ks[1..], k);
    }
  }

  lemma {:induction false} OccursNot(ks: seq<string>, k: string)
    requires k !in ks
    ensures Occurrences(ks, k) == 0
  {
    if ks != [] {
      OccursNot(ks[1..], k);
    }
  }

  lemma {:induction false} CategorySizesEmpty(ks: seq<string>)
    ensures CategorySizes([], ks) == 0
  {
    if ks != [] {
      CategorySizesEmpty(ks[1..]);
    }
  }

  lemma {:induction false} CategorySizesAppend(list: seq<Food>, f: Food, ks: seq<string>)
    ensures CategorySizes(list + [f], ks) == CategorySizes(list, ks) + Occurrences(ks, CategoryKey(f))
  {
    if ks != [] {
      CategorySizesAppend(list, f, ks[1..]);
      KeepAppend(list, f, x => CategoryKey(x) == ks[0]);
    }
  }

  lemma {:induction false} CategorySizesCount(list: seq<Food>, ks: seq<string>)
    requires Distinct(ks)
    requires forall f :: f in list ==> CategoryKey(f) in ks
    ensures CategorySizes(list, ks) == |list|
  {
    if list == [] {
      CategorySizesEmpty(ks);
    } else {
      var init, f := list[..|list| - 1], list[|list| - 1];
      assert list == init + [f];
      CategorySizesCount(init, ks);
      CategorySizesAppend(init, f, ks);
      OccursOnce(ks, CategoryKey(f));
    }
  }

  lemma {:induction false} GroupSizesAreCategorySizes(list: seq<Food>, ks: seq<string>)
    requires forall k :: k in ks ==> k in Grouped(list)
    ensures GroupSizes(Grouped(list), ks) == CategorySizes(list, ks)
  {
    if ks != [] {
      GroupSizesAreCategorySizes(list, ks[1..]);
      GroupedIsFilter(list);
    }
  }

  /** The group sizes add up to the length of the menu: listing each
      category once, in any order, counts every food exactly once. */
  lemma GroupSizesSumToLength(list: seq<Food>, ks: seq<string>)
    requires Distinct(ks)
    requires forall k :: k in ks <==> k in Grouped(list)
    ensures GroupSizes(Grouped(list), ks) == |list|
  {
    GroupSizesAreCategorySizes(list, ks);
    GroupedIsFilter(list);
    forall f | f in list ensures CategoryKey(f) in ks {
      assert CategoryKey(f) in CategoriesOf(list);
    }
    CategorySizesCount(list, ks);
  }

  /** A missing or empty category is filed under "Uncategorized". */
  lemma MissingCategoryIsUncategorized(f: Food)
    requires !Present(f.category)
    ensures CategoryKey(f) == "Uncategorized"
  {
  }

  /** A whitespace-only category is truthy, so it is trimmed to "" rather than defaulted. */
  lemma BlankCategoryIsEmptyKey(f: Food)
    requires f.category.Some? && f.category.value != "" && AllSpace(f.category.value)
    ensures CategoryKey(f) == ""
  {
    TrimEdges(f.category.value);
  }

  /** One more food extends exactly its own group. */
  lemma GroupedSnoc(list: seq<Food>, f: Food)
    ensures var g, key := Grouped(list), CategoryKey(f);
      Grouped(list + [f]) == g[key := (if key in g then g[key] else []) + [f]]
  {
    assert (list + [f])[..|list|] == list;
  }

  /** Grouping `[Pizza, "", Pizza]` yields two groups in menu order. */
  lemma GroupingExample(a: Food, b: Food, c: Food)
    requires a.category == Some("Pizza") && c.category == Some("Pizza") && b.category == Some("")
    ensures Grouped([a, b, c]) == map["Pizza" := [a, c], "Uncategorized" := [b]]
  {
    TrimUnpadded("Pizza");
    MissingCategoryIsUncategorized(b);
    GroupingTwoKeys(a, b, c, "Pizza", "Uncategorized");
  }

  /** Foods keyed k, j, k (with k != j) group as {k: [first, third], j: [second]}. */
  lemma GroupingTwoKeys(a: Food, b: Food, c: Food, k: string, j: string)
    requires CategoryKey(a) == k && CategoryKey(c) == k && CategoryKey(b) == j && k != j
    ensures Grouped([a, b, c]) == map[k := [a, c], j := [b]]
  {
    GroupingFirstTwo(a, b, k, j);
    GroupedSnoc([a, b], c);
    assert [a, b] + [c] == [a, b, c];
    assert [a] + [c] == [a, c];
  }

  lemma GroupingFirstTwo(a: Food, b: Food, k: string, j: string)
    requires CategoryKey(a) == k && CategoryKey(b) == j && k != j
    ensures Grouped([a, b]) == map[k := [a], j := [b]]
  {
    var none: seq<Food> := [];
    GroupedSnoc(none, a);
    assert none + [a] == [a];
    GroupedSnoc([a], b);
    assert [a] + [b] == [a, b];
    assert none + [b] == [b];
  }

  // ---------------------------------------------------------------------
  // Menu grid filter

  /** The menu filter at lines 346-353 as written: the chip is compared with
      the raw `food.category`, not with the trimmed key the chip came from. */
  function MenuFilterAsWritten(foods: seq<Food>, selected: string, query: string): (r: seq<Food>)
    ensures forall f :: f in r <==> f in foods && (selected == "All" || f.category == Some(selected)) && NameMatches(f.name, query)
  {
    Keep(foods, (f: Food) => (selected == "All" || f.category == Some(selected)) && NameMatches(f.name, query))
  }

  /** A food without a category is listed under the "Uncategorized" chip
      but the filter as written never shows it there. */
  lemma UncategorizedChipEmptyAsWritten(f: Food)
    requires f.category == None
    ensures "Uncategorized" in Grouped([f]) && Grouped([f])["Uncategorized"] == [f]
    ensures MenuFilterAsWritten([f], "Uncategorized", "") == []
  {
    MissingCategoryIsUncategorized(f);
    assert [f][..0] == [];
  }

  /** The menu filter compared against the chip's own key, as the chips intend. */
  function MenuFilter(foods: seq<Food>, selected: string, query: string): (r: seq<Food>)
    ensures forall f :: f in r <==> f in foods && (selected == "All" || CategoryKey(f) == selected) && NameMatches(f.name, query)
  {
    Keep(foods, (f: Food) => (selected == "All" || CategoryKey(f) == selected) && NameMatches(f.name, query))
  }

  /** With no search text, the "All" chip shows the whole menu in order. */
  lemma AllChipShowsMenu(foods: seq<Food>)
    ensures MenuFilter(foods, "All", "") == foods
  {
    forall i | 0 <= i < |foods| ensures NameMatches(foods[i].name, "") {
      IncludesEmpty(ToLower(OrEmpty(foods[i].name)));
    }
    KeepAll(foods, (f: Food) => (true || CategoryKey(f) == "All") && NameMatches(f.name, ""));
  }

  /** With no search text, each chip shows exactly its group, in order. */
  lemma ChipShowsItsGroup(foods: seq<Food>, k: string)
    requires k in Grouped(foods) && k != "All"
    ensures MenuFilter(foods, k, "") == Grouped(foods)[k]
  {
    GroupedIsFilter(foods);
    forall i | 0 <= i < |foods| ensures NameMatches(foods[i].name, "") {
      IncludesEmpty(ToLower(OrEmpty(foods[i].name)));
    }
    KeepCongruent(foods, (f: Food) => (k == "All" || CategoryKey(f) == k) && NameMatches(f.name, ""), (f: Food) => CategoryKey(f) == k);
  }

  /** Each shown food is in the menu, in menu order. */
  lemma MenuFilterKeepsOrder(foods: seq<Food>, selected: string, query: string)
    ensures IsSubsequence(MenuFilter(foods, selected, query), foods)
  {
    KeepIsSubsequence(foods, (f: Food) => (selected == "All" || CategoryKey(f) == selected) && NameMatches(f.name, query));
  }
}
