/** The treatments section (components/TreatmentsSection.tsx): four
    treatments, one tab per category of the category map, and the cards of
    the treatments in the selected category. */
module Treatments {
  import opened Wrappers
  import opened Lists

  const Surgery: string := "surgery"
  const Cosmetic: string := "cosmetic"
  const Orthodontics: string := "orthodontics"
  const Fillings: string := "fillings"

  datatype Treatment = Treatment(id: string, nameKey: string, descKey: string, priceKey: string, category: string)

  const TreatmentList: seq<Treatment> := [
    Treatment("1", "treatments.implants", "treatments.implantsDesc", "treatments.implantsPrice", Surgery),
    Treatment("2", "treatments.whitening", "treatments.whiteningDesc", "treatments.whiteningPrice", Cosmetic),
    Treatment("3", "treatments.orthoLabel", "treatments.orthoDesc", "treatments.orthoPrice", Orthodontics),
    Treatment("4", "treatments.fillingsLabel", "treatments.fillingsDesc", "treatments.fillingsPrice", Fillings)
  ]

  /** An entry of `categoryMap`: a category and the key of its tab label. */
  datatype CategoryEntry = CategoryEntry(key: string, labelKey: string)

  const CategoryMap: seq<CategoryEntry> := [
    CategoryEntry(Surgery, "treatments.surgery"),
    CategoryEntry(Cosmetic, "treatments.cosmetic"),
    CategoryEntry(Orthodontics, "treatments.orthodontics"),
    CategoryEntry(Fillings, "treatments.fillings")
  ]

  /** `Object.keys(categoryMap)`: the tabs, in declared order. */
  function Categories(): (r: seq<string>)
    ensures |r| == |CategoryMap|
    ensures forall i :: 0 <= i < |r| ==> r[i] == CategoryMap[i].key
  {
    seq(|CategoryMap|, i requires 0 <= i < |CategoryMap| => CategoryMap[i].key)
  }

  /** `categoryMap[category]`: the label key of the entry with that key,
      None when the map has no such key. An object literal keeps the last of
      repeated keys, and this search keeps the first. The two agree because
      the map's keys are distinct (`TreatmentsFollowCategories`). */
  function LabelKey(entries: seq<CategoryEntry>, category: string): (r: Option<string>)
    ensures r.Some? <==> exists i :: 0 <= i < |entries| && entries[i].key == category
    ensures r.Some? ==> exists i :: 0 <= i < |entries| && entries[i].key == category && entries[i].labelKey == r.value
    decreases |entries|
  {
    if |entries| == 0 then None
    else if entries[0].key == category then Some(entries[0].labelKey)
    else
      var r := LabelKey(entries[1..], category);
      assert forall i :: 1 <= i < |entries| ==> entries[i] == entries[1..][i - 1];
      r
  }

  function InCategory(category: string): Treatment -> bool
  {
    (t: Treatment) => t.category == category
  }

  /** `filteredTreatments`: the treatments of the selected category, in the
      order of the list. */
  function FilterTreatments(category: string): (r: seq<Treatment>)
    ensures forall t :: t in r <==> t in TreatmentList && t.category == category
  {
    Filter(TreatmentList, InCategory(category))
  }

  /** When exactly one element satisfies the predicate, the filter keeps
      just that one. */
  lemma {:induction false} FilterSingle<T>(s: seq<T>, p: T -> bool, j: nat)
    requires j < |s| && p(s[j])
    requires forall i :: 0 <= i < |s| && i != j ==> !p(s[i])
    ensures Filter(s, p) == [s[j]]
    decreases |s|
  {
    if j == 0 {
      FilterNone(s[1..], p);
    } else {
      assert !p(s[0]);
      FilterSingle(s[1..], p, j - 1);
    }
  }

  /** The tabs are the four categories, in declared order. */
  lemma CategoriesInOrder()
    ensures Categories() == [Surgery, Cosmetic, Orthodontics, Fillings]
  {
  }

  /** Treatment `k` belongs to category `k`, and the categories are
      pairwise different. */
  lemma {:induction false} TreatmentsFollowCategories()
    ensures |TreatmentList| == |Categories()|
    ensures forall k :: 0 <= k < |TreatmentList| ==> TreatmentList[k].category == Categories()[k]
    ensures forall i, j :: 0 <= i < j < |Categories()| ==> Categories()[i] != Categories()[j]
  {
    CategoriesInOrder();
    assert Surgery[0] == 's' && Cosmetic[0] == 'c' && Orthodontics[0] == 'o' && Fillings[0] == 'f';
  }

  /** Every treatment's category is a key of the map, so its badge has a
      label; it is the label of the treatment's own tab. */
  lemma {:induction false} TreatmentCategoryHasLabel(k: nat)
    requires k < |TreatmentList|
    ensures LabelKey(CategoryMap, TreatmentList[k].category) == Some(CategoryMap[k].labelKey)
  {
    TreatmentsFollowCategories();
    assert CategoryMap[k].key == Categories()[k];
    assert forall i :: 0 <= i < k ==> CategoryMap[i].key != CategoryMap[k].key;
    LabelKeyFirst(CategoryMap, k);
  }

  /** The lookup finds the entry with the key that no earlier entry has. */
  lemma {:induction false} LabelKeyFirst(entries: seq<CategoryEntry>, k: nat)
    requires k < |entries|
    requires forall i :: 0 <= i < k ==> entries[i].key != entries[k].key
    ensures LabelKey(entries, entries[k].key) == Some(entries[k].labelKey)
    decreases k
  {
    if k > 0 {
      LabelKeyFirst(entries[1..], k - 1);
    }
  }

  /** The tab of category `k` shows exactly treatment `k`. */
  lemma {:induction false} TabShowsItsTreatment(k: nat)
    requires k < |Categories()|
    ensures FilterTreatments(Categories()[k]) == [TreatmentList[k]]
  {
    TreatmentsFollowCategories();
    FilterSingle(TreatmentList, InCategory(Categories()[k]), k);
  }

  /** A category that is not a key of the map shows no card. */
  lemma {:induction false} UnknownCategoryShowsNothing(category: string)
    requires LabelKey(CategoryMap, category).None?
    ensures FilterTreatments(category) == []
  {
    TreatmentsFollowCategories();
    assert forall i :: 0 <= i < |TreatmentList| ==> TreatmentList[i].category == CategoryMap[i].key;
    FilterNone(TreatmentList, InCategory(category));
  }

  class TreatmentsTabs {
    var selectedCategory: string

    /** The selected category is one of the tabs. */
    predicate Valid()
      reads this
    {
      selectedCategory in Categories()
    }

    constructor()
      ensures Valid() && selectedCategory == Surgery
    {
      CategoriesInOrder();
      selectedCategory := Surgery;
    }

    /** The cards on screen. */
    function Shown(): seq<Treatment>
      reads this
    {
      FilterTreatments(selectedCategory)
    }

    /** The tab button of category `k`. */
    method SelectTab(k: nat)
      requires k < |Categories()|
      modifies this
      ensures Valid() && selectedCategory == Categories()[k]
      ensures Shown() == [TreatmentList[k]]
    {
      TabShowsItsTreatment(k);
      selectedCategory := CategoryMap[k].key;
    }
  }
}
