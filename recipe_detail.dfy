/** The recipe detail page: the recipe whose id the route carries is looked up in the
    catalogue and kept in a nullable state cell, and a null cell selects the not-found view. */
module RecipeDetail {

  import opened Wrappers
  import opened ArrayOps
  import opened Catalog
  import RecipeCard
  import Routes

  /** Some recipe of the catalogue has this id. */
  predicate HasId(rs: seq<Recipe>, id: string)
  {
    exists r :: r in rs && r.id == id
  }

  /** `recipes.find(r => r.id === id)`: the first recipe with this id, if any. */
  function FindById(rs: seq<Recipe>, id: string): (found: Option<Recipe>)
    ensures found.None? <==> !HasId(rs, id)
    ensures found.Some? ==> found.value in rs && found.value.id == id
  {
    FindFirst(rs, (r: Recipe) => r.id == id)
  }

  /** The effect on a new id: the cell takes the recipe found, and keeps its previous
      content when nothing is found. */
  function AfterLookup(current: Option<Recipe>, rs: seq<Recipe>, id: string): Option<Recipe>
  {
    match FindById(rs, id)
    case Some(r) => Some(r)
    case None => current
  }

  /** When some recipe has the id, the cell becomes the first such recipe in catalogue
      order, whatever it held before. */
  lemma LookupShowsFirstMatch(current: Option<Recipe>, rs: seq<Recipe>, id: string, i: int)
    requires 0 <= i < |rs| && rs[i].id == id
    requires forall j :: 0 <= j < i ==> rs[j].id != id
    ensures AfterLookup(current, rs, id) == Some(rs[i])
    ensures AfterLookup(current, rs, id).value.id == id
  {
    FindFirstIsUnique(rs, (r: Recipe) => r.id == id, i);
  }

  /** When no recipe has the id, the cell is left as it was: a recipe shown before stays
      on screen, although its id is not the requested one. */
  lemma LookupMissKeepsPrevious(current: Option<Recipe>, rs: seq<Recipe>, id: string)
    requires !HasId(rs, id)
    ensures AfterLookup(current, rs, id) == current
  {
  }

  /** What the page renders. */
  datatype Screen = NotFound | Details(recipe: Recipe)

  /** `if (!recipe)`: the not-found view exactly when the cell is null, otherwise the
      recipe in the cell. */
  function ScreenOf(cell: Option<Recipe>): (s: Screen)
    ensures s == NotFound <==> cell == None
    ensures s != NotFound ==> cell == Some(s.recipe)
  {
    match cell
    case None => NotFound
    case Some(r) => Details(r)
  }

  /** The cell after the route has carried each id of `ids` in turn. */
  function VisitAll(cell: Option<Recipe>, rs: seq<Recipe>, ids: seq<string>): Option<Recipe>
    decreases |ids|
  {
    if ids == [] then cell else VisitAll(AfterLookup(cell, rs, ids[0]), rs, ids[1..])
  }

  /** Over a series of route ids, the cell is unchanged while no id matches; once one has
      matched it holds the recipe found for the last id that matched. */
  lemma {:induction false} VisitAllHolds(cell: Option<Recipe>, rs: seq<Recipe>, ids: seq<string>)
    ensures (forall k :: 0 <= k < |ids| ==> !HasId(rs, ids[k])) ==> VisitAll(cell, rs, ids) == cell
    ensures (exists k :: 0 <= k < |ids| && HasId(rs, ids[k])) ==>
              exists k :: 0 <= k < |ids| && HasId(rs, ids[k]) &&
                          VisitAll(cell, rs, ids) == FindById(rs, ids[k]) &&
                          forall j :: k < j < |ids| ==> !HasId(rs, ids[j])
    decreases |ids|
  {
    if ids != [] {
      var next := AfterLookup(cell, rs, ids[0]);
      var rest := ids[1..];
      VisitAllHolds(next, rs, rest);
      assert forall k :: 1 <= k < |ids| ==> ids[k] == rest[k - 1];
      if exists k :: 0 <= k < |rest| && HasId(rs, rest[k]) {
        var k :| 0 <= k < |rest| && HasId(rs, rest[k]) &&
                 VisitAll(next, rs, rest) == FindById(rs, rest[k]) &&
                 forall j :: k < j < |rest| ==> !HasId(rs, rest[j]);
        assert forall j :: k + 1 < j < |ids| ==> !HasId(rs, ids[j]);
        assert HasId(rs, ids[k + 1]) && VisitAll(cell, rs, ids) == FindById(rs, ids[k + 1]);
      } else if HasId(rs, ids[0]) {
        assert forall j :: 0 < j < |ids| ==> !HasId(rs, ids[j]);
        assert VisitAll(cell, rs, ids) == FindById(rs, ids[0]);
      }
    }
  }

  /** Starting from the initial null cell, the not-found view is shown exactly when none of
      the ids the route has carried belongs to a recipe. */
  lemma NotFoundExactlyWhenNothingMatched(rs: seq<Recipe>, ids: seq<string>)
    ensures ScreenOf(VisitAll(None, rs, ids)) == NotFound <==>
            forall k :: 0 <= k < |ids| ==> !HasId(rs, ids[k])
  {
    VisitAllHolds(None, rs, ids);
  }

  /** Following a card's link to a recipe of the catalogue shows that recipe, when the
      catalogue's ids are unique and the recipe's id is plain: the link is matched by the
      route, and the id the route yields is looked up. */
  lemma CardLinkOpensRecipe(current: Option<Recipe>, rs: seq<Recipe>, r: Recipe)
    requires r in rs && Routes.PlainId(r.id)
    requires forall a, b :: a in rs && b in rs && a.id == b.id ==> a == b
    ensures Routes.RouteId(RecipeCard.DetailLink(r.id)).Some?
    ensures ScreenOf(AfterLookup(current, rs, Routes.RouteId(RecipeCard.DetailLink(r.id)).value)) == Details(r)
  {
    Routes.DetailLinkRoundTrip(r.id);
  }

  /** The detail page's state cell. */
  class DetailPage {
    const recipes: seq<Recipe>
    var recipe: Option<Recipe>

    /** Mounting the page over the catalogue: `useState<Recipe | null>(null)`. */
    constructor (recipes: seq<Recipe>)
      ensures this.recipes == recipes
      ensures recipe == None
      ensures View() == NotFound
    {
      this.recipes := recipes;
      recipe := None;
    }

    /** The effect that runs when the route's id changes: set the cell only on a match. */
    method OnRouteId(id: string)
      modifies this
      ensures recipe == AfterLookup(old(recipe), recipes, id)
      ensures HasId(recipes, id) ==> recipe.Some? && recipe.value.id == id
      ensures !HasId(recipes, id) ==> recipe == old(recipe)
    {
      var found := FindById(recipes, id);
      if found.Some? {
        recipe := found;
      }
    }

    /** The view rendered from the current cell. */
    function View(): (s: Screen)
      reads this
      ensures s == NotFound <==> recipe == None
    {
      ScreenOf(recipe)
    }
  }
}
