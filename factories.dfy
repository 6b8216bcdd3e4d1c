/**
 * The construction rules of the test-data factories: the next number of a
 * case version or case step, and the builders of environment sets.
 */
module Factories {
  import opened Library
  import opened Itertools
  import opened Environments

  // ---------------------------------------------------------------------
  // Next number: one more than the highest existing number, or 1.

  function MaxOf(xs: seq<int>): (m: int)
    requires |xs| > 0
    ensures m in xs
    ensures forall i :: 0 <= i < |xs| ==> xs[i] <= m
  {
    if |xs| == 1 then xs[0]
    else
      var rest := MaxOf(xs[1..]);
      if xs[0] >= rest then xs[0] else rest
  }

  function NextNumber(numbers: seq<int>): (n: int)
    ensures |numbers| == 0 ==> n == 1
    ensures |numbers| > 0 ==> n - 1 in numbers
    ensures forall i :: 0 <= i < |numbers| ==> numbers[i] < n
  {
    if |numbers| == 0 then 1 else MaxOf(numbers) + 1
  }

  function VersionNumbers(versions: seq<CaseVersion>): seq<int>
  {
    seq(|versions|, i requires 0 <= i < |versions| => versions[i].number)
  }

  function StepNumbers(steps: seq<CaseStep>): seq<int>
  {
    seq(|steps|, i requires 0 <= i < |steps| => steps[i].number)
  }

  /** The number a new version of a case with these versions gets. */
  function NextVersionNumber(versions: seq<CaseVersion>): (n: int)
    ensures |versions| == 0 ==> n == 1
    ensures |versions| > 0 ==> exists i :: 0 <= i < |versions| && versions[i].number == n - 1
    ensures forall i :: 0 <= i < |versions| ==> versions[i].number < n
  {
    var numbers := VersionNumbers(versions);
    assert forall i :: 0 <= i < |versions| ==> numbers[i] == versions[i].number;
    NextNumber(numbers)
  }

  /** The number a new step of a case version with these steps gets. */
  function NextStepNumber(steps: seq<CaseStep>): (n: int)
    ensures |steps| == 0 ==> n == 1
    ensures |steps| > 0 ==> exists i :: 0 <= i < |steps| && steps[i].number == n - 1
    ensures forall i :: 0 <= i < |steps| ==> steps[i].number < n
  {
    var numbers := StepNumbers(steps);
    assert forall i :: 0 <= i < |steps| ==> numbers[i] == steps[i].number;
    NextNumber(numbers)
  }

  /** Adding a version with the next number keeps version numbers distinct. */
  lemma NewVersionKeepsNumbersDistinct(versions: seq<CaseVersion>, id: nat)
    requires DistinctVersionNumbers(versions)
    ensures DistinctVersionNumbers(versions + [CaseVersion(id, NextVersionNumber(versions))])
  {
  }

  /** Adding a step with the next number keeps step numbers distinct. */
  lemma NewStepKeepsNumbersDistinct(steps: seq<CaseStep>, id: nat)
    requires DistinctStepNumbers(steps)
    ensures DistinctStepNumbers(steps + [CaseStep(id, NextStepNumber(steps))])
  {
  }

  // ---------------------------------------------------------------------
  // Environment sets.

  /** The categories made for `names`, numbered from `firstId`. */
  function NewCategories(firstId: nat, names: seq<string>): seq<Category>
  {
    seq(|names|, j requires 0 <= j < |names| => Category(firstId + j, names[j]))
  }

  /** The element list of each environment. */
  function ElementLists(envs: seq<Environment>): seq<seq<Element>>
  {
    seq(|envs|, k requires 0 <= k < |envs| => envs[k].elements)
  }

  /** All elements of the environments, in order. */
  function ElementsOf(envs: seq<Environment>): seq<Element>
  {
    Concat(ElementLists(envs))
  }

  /** One new category per name, in order. */
  method CreateCategories(store: Store, names: seq<string>) returns (categories: seq<Category>)
    requires store.Valid()
    modifies store
    ensures store.Valid()
    ensures categories == NewCategories(|old(store.categories)|, names)
    ensures store.categories == old(store.categories) + categories
    ensures store.elements == old(store.elements) && store.environments == old(store.environments)
  {
    ghost var c0 := |store.categories|;
    categories := [];
    for j := 0 to |names|
      invariant store.Valid()
      invariant categories == NewCategories(c0, names[..j])
      invariant store.categories == old(store.categories) + categories
      invariant store.elements == old(store.elements)
      invariant store.environments == old(store.environments)
    {
      var c := store.CreateCategory(names[j]);
      categories := categories + [c];
    }
    assert names[..|names|] == names;
  }

  /** One new element per name, element i in `categories[i]`. */
  method CreatePositionalElements(store: Store, names: seq<string>, categories: seq<Category>)
    returns (els: seq<Element>)
    requires store.Valid() && |names| <= |categories|
    requires forall i :: 0 <= i < |categories| ==> store.HasCategory(categories[i])
    modifies store
    ensures store.Valid() && store.HasElements(els)
    ensures store.elements == old(store.elements) + els
    ensures |els| == |names|
    ensures forall i :: 0 <= i < |names| ==> els[i].name == names[i] && els[i].category == categories[i]
    ensures store.categories == old(store.categories) && store.environments == old(store.environments)
  {
    els := [];
    for i := 0 to |names|
      invariant store.Valid()
      invariant store.categories == old(store.categories)
      invariant store.environments == old(store.environments)
      invariant store.elements == old(store.elements) + els
      invariant |els| == i
      invariant forall m :: 0 <= m < i ==> els[m].name == names[m] && els[m].category == categories[m]
    {
      var e := store.CreateElement(names[i], categories[i]);
      els := els + [e];
    }
    assert forall m :: 0 <= m < |els| ==> els[m] == store.elements[|old(store.elements)| + m];
  }

  /**
   * `env` holds one element per name, in order, and element i is named
   * `names[i]` and belongs to `categories[i]`.
   */
  ghost predicate MadeFrom(env: Environment, names: seq<string>, categories: seq<Category>)
  {
    && |env.elements| == |names| <= |categories|
    && forall i :: 0 <= i < |names| ==>
         env.elements[i].name == names[i] && env.elements[i].category == categories[i]
  }

  /** One new environment of new elements, element i named `names[i]` in `categories[i]`. */
  method CreatePositionalEnvironment(store: Store, names: seq<string>, categories: seq<Category>)
    returns (env: Environment)
    requires store.Valid() && |names| <= |categories|
    requires forall i :: 0 <= i < |categories| ==> store.HasCategory(categories[i])
    modifies store
    ensures store.Valid()
    ensures MadeFrom(env, names, categories)
    ensures env.id == |old(store.environments)|
    ensures store.elements == old(store.elements) + env.elements
    ensures store.environments == old(store.environments) + [env]
    ensures store.categories == old(store.categories)
  {
    var els := CreatePositionalElements(store, names, categories);
    env := store.CreateEnvironment(els);
  }

  /**
   * Given category names and lists of element names, makes one category per
   * name and, for each list, one environment whose element i belongs to
   * category i. No list may be longer than the list of categories.
   */
  method CreateSet(store: Store, categoryNames: seq<string>, envs: seq<seq<string>>)
    returns (result: seq<Environment>)
    requires store.Valid()
    requires forall k :: 0 <= k < |envs| ==> |envs[k]| <= |categoryNames|
    modifies store
    ensures store.Valid()
    ensures store.categories ==
      old(store.categories) + NewCategories(|old(store.categories)|, categoryNames)
    ensures store.environments == old(store.environments) + result
    ensures store.elements == old(store.elements) + ElementsOf(result)
    ensures |result| == |envs|
    ensures forall k :: 0 <= k < |envs| ==> result[k].id == |old(store.environments)| + k
    ensures forall k :: 0 <= k < |envs| ==>
      MadeFrom(result[k], envs[k], NewCategories(|old(store.categories)|, categoryNames))
  {
    var categories := CreateCategories(store, categoryNames);
    result := [];
    for k := 0 to |envs|
      invariant store.Valid()
      invariant store.categories == old(store.categories) + categories
      invariant store.environments == old(store.environments) + result
      invariant store.elements == old(store.elements) + ElementsOf(result)
      invariant |result| == k
      invariant forall m :: 0 <= m < k ==> result[m].id == |old(store.environments)| + m
      invariant forall m :: 0 <= m < k ==> MadeFrom(result[m], envs[m], categories)
    {
      var env := CreatePositionalEnvironment(store, envs[k], categories);
      var els := env.elements;
      assert ElementLists(result + [env]) == ElementLists(result) + [els];
      ConcatSnoc(ElementLists(result), els);
      assert store.elements == old(store.elements) + (ElementsOf(result) + els);
      result := result + [env];
    }
  }

  /** The category name of each item. */
  function Names(items: seq<(string, seq<string>)>): seq<string>
  {
    seq(|items|, j requires 0 <= j < |items| => items[j].0)
  }

  lemma ConcatSnoc(lists: seq<seq<Element>>, last: seq<Element>)
    ensures Concat(lists + [last]) == Concat(lists) + last
  {
  }

  /** The element lists made for one category, numbered from `firstId`. */
  function NewElements(firstId: nat, category: Category, names: seq<string>): seq<Element>
  {
    seq(|names|, i requires 0 <= i < |names| => Element(firstId + i, names[i], category))
  }

  function Concat(lists: seq<seq<Element>>): seq<Element>
  {
    if |lists| == 0 then [] else Concat(lists[..|lists| - 1]) + lists[|lists| - 1]
  }

  /**
   * The element lists that building a full set from the first `n` items
   * makes, one per item: the category of item j is numbered
   * `firstCategory + j`, and elements are numbered on from `firstElement`
   * in creation order.
   */
  function ElementListsUpTo(firstElement: nat, firstCategory: nat,
                            items: seq<(string, seq<string>)>, n: nat): seq<seq<Element>>
    requires n <= |items|
  {
    if n == 0 then []
    else
      var before := ElementListsUpTo(firstElement, firstCategory, items, n - 1);
      before + [NewElements(firstElement + |Concat(before)|,
                            Category(firstCategory + n - 1, items[n - 1].0), items[n - 1].1)]
  }

  function FullSetLists(firstElement: nat, firstCategory: nat, items: seq<(string, seq<string>)>)
    : seq<seq<Element>>
  {
    ElementListsUpTo(firstElement, firstCategory, items, |items|)
  }

  lemma {:induction false} ElementListsUpToShape(e0: nat, c0: nat, items: seq<(string, seq<string>)>, n: nat)
    requires n <= |items|
    ensures |ElementListsUpTo(e0, c0, items, n)| == n
    ensures forall j :: 0 <= j < n ==> |ElementListsUpTo(e0, c0, items, n)[j]| == |items[j].1|
    ensures forall j, i :: 0 <= j < n && 0 <= i < |items[j].1| ==>
      ElementListsUpTo(e0, c0, items, n)[j][i].name == items[j].1[i] &&
      ElementListsUpTo(e0, c0, items, n)[j][i].category == Category(c0 + j, items[j].0)
    ensures forall j :: 0 <= j < n ==> NoDuplicates(ElementListsUpTo(e0, c0, items, n)[j])
  {
    if n > 0 {
      ElementListsUpToShape(e0, c0, items, n - 1);
    }
  }

  /** The lists of the first j + 1 items extend those of the first j by the list of item j. */
  lemma ElementListsStep(e0: nat, c0: nat, items: seq<(string, seq<string>)>, j: nat, els: seq<Element>)
    requires j < |items|
    requires els == NewElements(e0 + |Concat(ElementListsUpTo(e0, c0, items, j))|,
                                Category(c0 + j, items[j].0), items[j].1)
    ensures ElementListsUpTo(e0, c0, items, j + 1) == ElementListsUpTo(e0, c0, items, j) + [els]
  {
  }

  /** List j holds the elements named by item j, all of category j, none twice. */
  lemma FullSetListsShape(e0: nat, c0: nat, items: seq<(string, seq<string>)>)
    ensures |FullSetLists(e0, c0, items)| == |items|
    ensures forall j :: 0 <= j < |items| ==> |FullSetLists(e0, c0, items)[j]| == |items[j].1|
    ensures forall j, i :: 0 <= j < |items| && 0 <= i < |items[j].1| ==>
      FullSetLists(e0, c0, items)[j][i].name == items[j].1[i] &&
      FullSetLists(e0, c0, items)[j][i].category == Category(c0 + j, items[j].0)
    ensures forall j :: 0 <= j < |items| ==> NoDuplicates(FullSetLists(e0, c0, items)[j])
  {
    ElementListsUpToShape(e0, c0, items, |items|);
  }

  /** One new element of `category` per name, in order. */
  method CreateCategoryElements(store: Store, category: Category, names: seq<string>)
    returns (els: seq<Element>)
    requires store.Valid() && store.HasCategory(category)
    modifies store
    ensures store.Valid()
    ensures els == NewElements(|old(store.elements)|, category, names)
    ensures store.elements == old(store.elements) + els
    ensures store.categories == old(store.categories) && store.environments == old(store.environments)
  {
    ghost var e0 := |store.elements|;
    els := [];
    for i := 0 to |names|
      invariant store.Valid()
      invariant store.categories == old(store.categories)
      invariant store.environments == old(store.environments)
      invariant store.elements == old(store.elements) + els
      invariant els == NewElements(e0, category, names[..i])
    {
      var e := store.CreateElement(names[i], category);
      els := els + [e];
    }
    assert names[..|names|] == names;
  }

  /** One new environment per combination of elements, in order. */
  method CreateEnvironments(store: Store, combinations: seq<seq<Element>>)
    returns (result: seq<Environment>)
    requires store.Valid()
    requires forall k :: 0 <= k < |combinations| ==> store.HasElements(combinations[k])
    modifies store
    ensures store.Valid()
    ensures store.environments == old(store.environments) + result
    ensures |result| == |combinations|
    ensures forall k :: 0 <= k < |result| ==>
      result[k] == Environment(|old(store.environments)| + k, combinations[k])
    ensures store.categories == old(store.categories) && store.elements == old(store.elements)
  {
    result := [];
    for k := 0 to |combinations|
      invariant store.Valid()
      invariant store.categories == old(store.categories) && store.elements == old(store.elements)
      invariant store.environments == old(store.environments) + result
      invariant |result| == k
      invariant forall m :: 0 <= m < k ==>
        result[m] == Environment(|old(store.environments)| + m, combinations[m])
    {
      var env := store.CreateEnvironment(combinations[k]);
      result := result + [env];
    }
  }

  /** One item: its category, then one element of that category per name. */
  method CreateItem(store: Store, item: (string, seq<string>)) returns (els: seq<Element>)
    requires store.Valid()
    modifies store
    ensures store.Valid()
    ensures store.categories == old(store.categories) + [Category(|old(store.categories)|, item.0)]
    ensures els == NewElements(|old(store.elements)|, Category(|old(store.categories)|, item.0), item.1)
    ensures store.elements == old(store.elements) + els
    ensures store.environments == old(store.environments)
  {
    var category := store.CreateCategory(item.0);
    els := CreateCategoryElements(store, category, item.1);
  }

  /** For each item, its category followed by that category's elements. */
  method CreateElementLists(store: Store, items: seq<(string, seq<string>)>)
    returns (elementLists: seq<seq<Element>>)
    requires store.Valid()
    modifies store
    ensures store.Valid()
    ensures elementLists == FullSetLists(|old(store.elements)|, |old(store.categories)|, items)
    ensures store.categories ==
      old(store.categories) + NewCategories(|old(store.categories)|, Names(items))
    ensures store.elements == old(store.elements) + Concat(elementLists)
    ensures store.environments == old(store.environments)
  {
    ghost var e0, c0 := |store.elements|, |store.categories|;
    elementLists := [];
    for j := 0 to |items|
      invariant store.Valid()
      invariant elementLists == ElementListsUpTo(e0, c0, items, j)
      invariant |store.categories| == c0 + j && store.categories[..c0] == old(store.categories)
      invariant forall m :: 0 <= m < j ==> store.categories[c0 + m] == Category(c0 + m, items[m].0)
      invariant store.elements == old(store.elements) + Concat(elementLists)
      invariant store.environments == old(store.environments)
    {
      assert |store.elements| == e0 + |Concat(elementLists)| && |store.categories| == c0 + j;
      var els := CreateItem(store, items[j]);
      ElementListsStep(e0, c0, items, j, els);
      ConcatSnoc(elementLists, els);
      assert store.elements == old(store.elements) + (Concat(elementLists) + els);
      elementLists := elementLists + [els];
    }
    ItemCategories(store.categories, old(store.categories), items);
  }

  /** Categories made one per item, in item order, are the categories of the item names. */
  lemma ItemCategories(categories: seq<Category>, before: seq<Category>, items: seq<(string, seq<string>)>)
    requires |categories| == |before| + |items| && categories[..|before|] == before
    requires forall m :: 0 <= m < |items| ==>
      categories[|before| + m] == Category(|before| + m, items[m].0)
    ensures categories == before + NewCategories(|before|, Names(items))
  {
    var added := NewCategories(|before|, Names(items));
    assert forall m :: |before| <= m < |categories| ==> categories[m] == added[m - |before|];
  }

  /**
   * Given the category names with their element names (the items of a
   * dictionary, in its iteration order), makes every category with its
   * elements, then one environment per combination of one element of each
   * category, in the order `itertools.product` yields them.
   */
  method CreateFullSet(store: Store, items: seq<(string, seq<string>)>)
    returns (result: seq<Environment>)
    requires store.Valid()
    modifies store
    ensures store.Valid()
    ensures store.categories ==
      old(store.categories) + NewCategories(|old(store.categories)|, Names(items))
    ensures store.elements ==
      old(store.elements) + Concat(FullSetLists(|old(store.elements)|, |old(store.categories)|, items))
    ensures store.environments == old(store.environments) + result
    ensures var combinations := Product(FullSetLists(|old(store.elements)|, |old(store.categories)|, items));
      |result| == |combinations| &&
      forall k :: 0 <= k < |result| ==>
        result[k] == Environment(|old(store.environments)| + k, combinations[k])
  {
    var elementLists := CreateElementLists(store, items);
    var combinations := Product(elementLists);
    forall k | 0 <= k < |combinations|
      ensures store.HasElements(combinations[k])
    {
      forall i | 0 <= i < |combinations[k]|
        ensures store.HasElement(combinations[k][i])
      {
        CombinationElementsListed(elementLists, combinations[k], i);
        store.StoredElement(combinations[k][i]);
      }
    }
    result := CreateEnvironments(store, combinations);
  }

  /** Every element of a combination comes from the lists combined. */
  lemma CombinationElementsListed(lists: seq<seq<Element>>, t: seq<Element>, i: nat)
    requires t in Product(lists) && i < |t|
    ensures t[i] in Concat(lists)
  {
    ProductMembers(lists, t);
    ConcatContains(lists, i, t[i]);
  }

  lemma {:induction false} ConcatContains(lists: seq<seq<Element>>, j: nat, e: Element)
    requires j < |lists| && e in lists[j]
    ensures e in Concat(lists)
  {
    if j < |lists| - 1 {
      assert lists[..|lists| - 1][j] == lists[j];
      ConcatContains(lists[..|lists| - 1], j, e);
    }
  }

  // ---------------------------------------------------------------------
  // What a set of environments holds.

  /** The categories of a set are numbered apart, so each environment of a set draws its elements from distinct categories. */
  lemma SetEnvironmentCategoriesDistinct(env: Environment, names: seq<string>, c0: nat, categoryNames: seq<string>)
    requires MadeFrom(env, names, NewCategories(c0, categoryNames))
    ensures forall i, j :: 0 <= i < j < |env.elements| ==>
      env.elements[i].category != env.elements[j].category
  {
  }

  /** The number of element names of each item. */
  function NameCounts(items: seq<(string, seq<string>)>): seq<nat>
  {
    seq(|items|, j requires 0 <= j < |items| => |items[j].1|)
  }

  /** A full set has as many environments as the product of the numbers of element names. */
  lemma FullSetCount(e0: nat, c0: nat, items: seq<(string, seq<string>)>)
    ensures |Product(FullSetLists(e0, c0, items))| == ProductOf(NameCounts(items))
  {
    var lists := FullSetLists(e0, c0, items);
    FullSetListsShape(e0, c0, items);
    ProductSize(lists);
    assert Lengths(lists) == NameCounts(items);
  }

  /** A category without elements leaves the full set empty. */
  lemma FullSetEmptyCategory(e0: nat, c0: nat, items: seq<(string, seq<string>)>, j: nat)
    requires j < |items| && items[j].1 == []
    ensures Product(FullSetLists(e0, c0, items)) == []
  {
    FullSetListsShape(e0, c0, items);
    ProductWithEmptyList(FullSetLists(e0, c0, items), j);
  }

  /**
   * Every environment of a full set takes exactly one element from each
   * category in item order: its element j is one of the names of item j,
   * in the category made for item j.
   */
  lemma FullSetCombinationShape(e0: nat, c0: nat, items: seq<(string, seq<string>)>, t: seq<Element>)
    requires t in Product(FullSetLists(e0, c0, items))
    ensures |t| == |items|
    ensures forall j :: 0 <= j < |t| ==>
      t[j].category == Category(c0 + j, items[j].0) && t[j].name in items[j].1
  {
    var lists := FullSetLists(e0, c0, items);
    FullSetListsShape(e0, c0, items);
    ProductMembers(lists, t);
    forall j | 0 <= j < |t|
      ensures t[j].category == Category(c0 + j, items[j].0) && t[j].name in items[j].1
    {
      var i :| 0 <= i < |lists[j]| && lists[j][i] == t[j];
      assert t[j].name == items[j].1[i];
    }
  }

  /** Every choice of one element name per item is an environment of the full set. */
  lemma FullSetComplete(e0: nat, c0: nat, items: seq<(string, seq<string>)>, choice: seq<nat>)
    requires |choice| == |items|
    requires forall j :: 0 <= j < |items| ==> choice[j] < |items[j].1|
    ensures |FullSetLists(e0, c0, items)| == |items|
    ensures forall j :: 0 <= j < |items| ==> |FullSetLists(e0, c0, items)[j]| == |items[j].1|
    ensures var lists := FullSetLists(e0, c0, items);
      seq(|items|, j requires 0 <= j < |items| => lists[j][choice[j]]) in Product(lists)
  {
    var lists := FullSetLists(e0, c0, items);
    FullSetListsShape(e0, c0, items);
    var t := seq(|items|, j requires 0 <= j < |items| => lists[j][choice[j]]);
    assert IsCombination(t, lists);
    ProductMembers(lists, t);
  }

  /** No two environments of a full set hold the same elements. */
  lemma FullSetNoDuplicates(e0: nat, c0: nat, items: seq<(string, seq<string>)>)
    ensures NoDuplicates(Product(FullSetLists(e0, c0, items)))
  {
    FullSetListsShape(e0, c0, items);
    ProductNoDuplicates(FullSetLists(e0, c0, items));
  }
}
