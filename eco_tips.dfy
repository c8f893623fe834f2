/**
 * The tips panel: a fixed catalog of tips, a list of favourite tip ids, a
 * category filter and the featured tip drawn at random from the filtered
 * catalog.  Every operation replaces its list wholesale, so all of them are
 * functions.
 */
module EcoTips {
  import opened Wrappers
  import Seqs

  datatype ImpactLevel = Low | MediumImpact | High

  datatype Difficulty = Easy | Medium | Hard

  datatype Tip = Tip(
    id: string,
    category: string,
    title: string,
    impact: ImpactLevel,
    difficulty: Difficulty,
    co2Saved: int,   // kg per year
    moneySaved: int  // euros per year
  )

  /** `prev.filter(x => x !== id)`: every occurrence of `id` removed, the rest kept in order. */
  function RemoveAll(s: seq<string>, id: string): (r: seq<string>)
    ensures id !in r
    ensures forall x :: x != id ==> (x in r <==> x in s)
    ensures Seqs.NoDuplicates(s) ==> Seqs.NoDuplicates(r)
    ensures id !in s ==> r == s
  {
    if s == [] then []
    else if s[0] == id then RemoveAll(s[1..], id)
    else
      var rest := RemoveAll(s[1..], id);
      assert Seqs.NoDuplicates(s) ==> s[0] !in s[1..] && Seqs.NoDuplicates(s[1..]);
      [s[0]] + rest
  }

  /** `toggleFavorite(id)`: removes the id when it is a favourite, appends it otherwise. */
  function ToggleFavorite(favorites: seq<string>, id: string): (r: seq<string>)
    ensures id in r <==> id !in favorites
    ensures forall x :: x != id ==> (x in r <==> x in favorites)
    ensures Seqs.NoDuplicates(favorites) ==> Seqs.NoDuplicates(r)
    ensures id !in favorites ==> r == favorites + [id]
  {
    if id in favorites then RemoveAll(favorites, id) else favorites + [id]
  }

  /** Toggling the same id twice restores every id's membership; from a list without it, the very same list. */
  lemma ToggleTwice(favorites: seq<string>, id: string)
    ensures forall x :: x in ToggleFavorite(ToggleFavorite(favorites, id), id) <==> x in favorites
    ensures id !in favorites ==> ToggleFavorite(ToggleFavorite(favorites, id), id) == favorites
  {
    if id !in favorites {
      RemoveAppended(favorites, id);
    }
  }

  /** Removing an id that was only appended gives back the list it was appended to. */
  lemma {:induction false} RemoveAppended(s: seq<string>, id: string)
    requires id !in s
    ensures RemoveAll(s + [id], id) == s
  {
    if s == [] {
      assert [] + [id] == [id];
    } else {
      assert (s + [id])[1..] == s[1..] + [id];
      RemoveAppended(s[1..], id);
    }
  }

  /** The tips of one category, in catalog order. */
  function InCategory(tips: seq<Tip>, category: string): (r: seq<Tip>)
    ensures forall t :: t in r <==> t in tips && t.category == category
  {
    Seqs.Filter(tips, (t: Tip) => t.category == category)
  }

  /** `filteredTips`: the whole catalog for "all", the tips of the selected category otherwise. */
  function FilteredTips(tips: seq<Tip>, selected: string): (r: seq<Tip>)
    ensures selected == "all" ==> r == tips
    ensures selected != "all" ==> r == InCategory(tips, selected)
  {
    if selected == "all" then tips else InCategory(tips, selected)
  }

  /** Filtering a catalog made of two parts filters each part, keeping catalog order. */
  lemma InCategoryAppend(a: seq<Tip>, b: seq<Tip>, category: string)
    ensures InCategory(a + b, category) == InCategory(a, category) + InCategory(b, category)
  {
    Seqs.FilterAppend(a, b, (t: Tip) => t.category == category);
  }

  /** The pool `getRandomTip(category)` draws from: a category that is absent, empty or "all" keeps the whole catalog. */
  function TipPool(tips: seq<Tip>, category: Option<string>): (r: seq<Tip>)
    ensures category.Some? && category.value != "" && category.value != "all" ==> r == InCategory(tips, category.value)
    ensures !(category.Some? && category.value != "" && category.value != "all") ==> r == tips
  {
    if category.Some? && category.value != "" && category.value != "all" then InCategory(tips, category.value)
    else tips
  }

  /**
   * `getRandomTip(category)` with the drawn index as a parameter: the tip at that
   * index of the pool, or `undefined` when the index is past its end (always so
   * when the pool is empty).
   */
  function GetRandomTip(tips: seq<Tip>, category: Option<string>, index: nat): (r: Option<Tip>)
    ensures r.Some? <==> index < |TipPool(tips, category)|
    ensures r.Some? ==> r.value == TipPool(tips, category)[index] && r.value in tips
    ensures r.Some? && category.Some? && category.value != "" && category.value != "all" ==>
      r.value.category == category.value
  {
    var pool := TipPool(tips, category);
    if index < |pool| then Some(pool[index]) else None
  }

  /** With a category no tip has, no index yields a tip. */
  lemma NoTipForEmptyCategory(tips: seq<Tip>, category: string, index: nat)
    requires category != "" && category != "all"
    requires forall t :: t in tips ==> t.category != category
    ensures GetRandomTip(tips, Some(category), index) == None
  {
  }

  /** The favourites view: the catalog tips whose id is a favourite, in catalog order. */
  function FavoriteTips(tips: seq<Tip>, favorites: seq<string>): (r: seq<Tip>)
    ensures forall t :: t in r <==> t in tips && t.id in favorites
    ensures Seqs.NoDuplicates(tips) ==> Seqs.NoDuplicates(r)
  {
    Seqs.FilterNoDuplicates(tips, (t: Tip) => t.id in favorites);
    Seqs.Filter(tips, (t: Tip) => t.id in favorites)
  }

  /** The favourites view of a catalog made of two parts lists the first part's favourites first, keeping catalog order. */
  lemma FavoriteTipsAppend(a: seq<Tip>, b: seq<Tip>, favorites: seq<string>)
    ensures FavoriteTips(a + b, favorites) == FavoriteTips(a, favorites) + FavoriteTips(b, favorites)
  {
    Seqs.FilterAppend(a, b, (t: Tip) => t.id in favorites);
  }

  /** After toggling a catalog tip's id into favourites, that tip is in the favourites view; toggling it out removes it. */
  lemma ToggleShowsInFavorites(tips: seq<Tip>, favorites: seq<string>, t: Tip)
    requires t in tips
    ensures t in FavoriteTips(tips, ToggleFavorite(favorites, t.id)) <==> t !in FavoriteTips(tips, favorites)
  {
  }

  /** The eight catalog tips (their descriptions are display text and are left out). */
  const Catalog: seq<Tip> := [
    Tip("1", "plastic", "Utilisez une gourde réutilisable", High, Easy, 23, 120),
    Tip("2", "plastic", "Sacs réutilisables pour les courses", MediumImpact, Easy, 12, 30),
    Tip("3", "transport", "Covoiturage et transports en commun", High, Medium, 480, 800),
    Tip("4", "home", "Réduisez le chauffage de 1°C", MediumImpact, Easy, 230, 180),
    Tip("5", "food", "Réduisez le gaspillage alimentaire", High, Medium, 300, 400),
    Tip("6", "plastic", "Évitez les produits sur-emballés", MediumImpact, Medium, 45, 60),
    Tip("7", "home", "Débranchez vos appareils", MediumImpact, Easy, 67, 85),
    Tip("8", "general", "Réparez au lieu de jeter", High, Medium, 150, 250)
  ]

  /** Selecting "transport" shows the carpooling tip alone; selecting "all" shows all eight. */
  lemma TransportFilterScenario()
    ensures FilteredTips(Catalog, "transport") == [Catalog[2]]
    ensures |FilteredTips(Catalog, "all")| == 8
  {
    assert "transport" != "all";
  }
}
