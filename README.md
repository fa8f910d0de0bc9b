# Korean cookbook catalogue: selection logic

A model of the logic that decides which recipes a visitor of the recipe catalogue sees:

- **The recipe listing** (`src/pages/RecipesPage.tsx`). The page holds a search query, an
  optional selected tag and an optional selected difficulty. After every change an effect
  recomputes `filteredRecipes` from the whole catalogue in three `.filter` steps:
  a case-insensitive substring search over title, description, ingredients and tags
  (only for a non-empty query), an exact tag-membership filter and an exact difficulty
  filter. The handlers toggle the tag, reset all three inputs and normalise the
  difficulty select's value. The page is the class `RecipesPage.Listing`, with the three
  inputs and `filteredRecipes` as fields. Its invariant `Valid()` says the listing is
  `Selected(recipes, Inputs())`, the three steps in source order. Every handler keeps it.
  The lemmas show that the listing is the catalogue filtered once by the conjunction of
  the active filters. From that follow soundness, completeness (with multiplicities),
  order preservation and independence from the order of the steps.
- **The detail page** (`src/pages/RecipeDetail.tsx`). `recipes.find` is a first-match
  search. The effect writes the found recipe into a nullable cell only when the search
  succeeds, so an id that matches nothing leaves the previous recipe on screen. A null
  cell selects the not-found view. The page is the class `RecipeDetail.DetailPage`.
- **The recipe card** (`src/components/RecipeCard.tsx`). It maps the difficulty to a
  badge variant, falls back to `/placeholder.svg` for an empty image URL and builds the
  link `/recipe/<id>`. Module `Routes` ties the link to the detail page through the
  router's `/recipe/:id` route. Take a non-empty id that is not `.` or `..` and has no
  space, control character, `/`, `\`, `?`, `#` or `%`. For it, the route yields the card's
  id again, and looking that id up opens the card's recipe when the catalogue's ids are
  unique. The link of the empty id matches no detail route. Neither does the link of an id
  that has a `/` before its last character and none of the characters the URL parser or
  the router would rewrite.

Shared pieces: `Text` holds lower-casing and `includes`. `ArrayOps` holds
`Array.prototype.filter` as `Keep` and `Array.prototype.find` as `FindFirst`. `Catalog`
holds the recipe record and the difficulty enumeration. `Wrappers` holds `Option`, which
stands for `null`/`undefined`.

The tag and difficulty tests use JavaScript truthiness (`if (selectedTag)`), not a null
check. So a selected tag or difficulty equal to `""` filters nothing, exactly as `null`
does. The model follows the code here (`Truthy` in `RecipesPage`), not the simpler reading
"the tag filter is off when the tag is null".

## Model

| member | source | states |
|---|---|---|
| `Text.Lower` | src/pages/RecipesPage.tsx:36 | lower-casing keeps the length and maps each character on its own |
| `Text.LowerIdempotent` | src/pages/RecipesPage.tsx:36-41 | lower-casing a lower-cased text changes nothing, so the lowered query and lowered fields compare on equal terms |
| `Text.Includes` | src/pages/RecipesPage.tsx:38-41 | `s.includes(sub)` holds exactly when `sub` occurs in `s` at some position |
| `ArrayOps.Keep` | src/pages/RecipesPage.tsx:37-42 | `.filter` returns exactly the elements satisfying the predicate, each as often as in the input, as a subsequence of the input |
| `ArrayOps.KeepFusion` | src/pages/RecipesPage.tsx:32-57 | two successive filters equal one filter by the conjunction |
| `ArrayOps.KeepCommutes` | src/pages/RecipesPage.tsx:32-57 | two successive filters can be swapped |
| `ArrayOps.FindFirst` | src/pages/RecipeDetail.tsx:16 | `.find` returns nothing exactly when no element satisfies the predicate, otherwise an element that satisfies it with none satisfying it before |
| `ArrayOps.FindFirstIsUnique` | src/pages/RecipeDetail.tsx:16 | the first satisfying element is the one `.find` returns |
| `Catalog.Difficulty.Label` | src/components/RecipeCard.tsx:13 | every difficulty label is non-empty, so a chosen level always activates the filter |
| `Catalog.LabelInjective` | src/components/RecipeCard.tsx:13 | two levels have equal labels exactly when they are the same level |
| `RecipeCard.DifficultyBadge` | src/components/RecipeCard.tsx:30-32 | "Легко" gives `default`, "Средне" gives `secondary`, every other string gives `destructive` |
| `RecipeCard.DifficultyBadgeOfLevel` | src/components/RecipeCard.tsx:30-32 | on the three levels the badge is default/secondary/destructive, and destructive only for "Сложно" |
| `RecipeCard.DifficultyBadgeDistinguishesLevels` | src/components/RecipeCard.tsx:30-32 | two cards show the same difficulty badge exactly when their levels are equal |
| `RecipeCard.ImageSrc` | src/components/RecipeCard.tsx:22 | an empty image URL becomes "/placeholder.svg", any other URL is kept, and the source is never empty |
| `RecipeCard.DetailLink` | src/components/RecipeCard.tsx:51 | the link is "/recipe/" followed by the id |
| `Routes.RouteId` | src/App.tsx:13 | the `/recipe/:id` route yields an id only for one non-empty segment without `/` after the prefix |
| `Routes.DetailLinkRoundTrip` | src/components/RecipeCard.tsx:51 | the route gives back the id of a plain id's link |
| `Routes.RouteIdOnlyFromLink` | src/App.tsx:13 | a path yields an id only when it is that id's link |
| `Routes.UnroutableLinks` | src/App.tsx:13 | the link of the empty id, and that of an id with a `/` before its last character and no character the URL parser or router rewrites, match no detail route |
| `RecipeCard.DetailLinkInjective` | src/components/RecipeCard.tsx:51 | different ids give different links |
| `RecipesPage.ApplyStepsIsConjunction` | src/pages/RecipesPage.tsx:32-57 | running the filter steps in any order keeps exactly the recipes passing every step, in catalogue order |
| `RecipesPage.StepOrderIrrelevant` | src/pages/RecipesPage.tsx:32-57 | any two orders of the same filter steps give the same listing |
| `RecipesPage.SelectedIsConjunction` | src/pages/RecipesPage.tsx:32-59 | the effect's listing is the catalogue filtered once by the AND of the active filters |
| `RecipesPage.SelectedSound` | src/pages/RecipesPage.tsx:35-57 | every listed recipe is in the catalogue, matches a non-empty query in title, description, an ingredient or a tag, has a truthy selected tag exactly, and has a truthy selected difficulty |
| `RecipesPage.SelectedComplete` | src/pages/RecipesPage.tsx:32-59 | every catalogue recipe satisfying all active filters is listed, as many times as in the catalogue |
| `RecipesPage.SelectedKeepsOrder` | src/pages/RecipesPage.tsx:32-59 | the listing is an order-preserving subsequence of the catalogue |
| `RecipesPage.UnfilteredShowsAll` | src/pages/RecipesPage.tsx:32-57 | with an empty query and no truthy tag or difficulty the listing is the whole catalogue in order |
| `RecipesPage.DifficultySelectsLevel` | src/pages/RecipesPage.tsx:53-57 | choosing a level lists exactly the catalogue's recipes of that level |
| `RecipesPage.ToggleTag` | src/pages/RecipesPage.tsx:62-68 | clicking the selected tag clears the selection; clicking any other tag selects it |
| `RecipesPage.ToggleTagTwice` | src/pages/RecipesPage.tsx:62-68 | two clicks on one tag restore a selection that was none or that tag, and otherwise leave none |
| `RecipesPage.TagBadge` | src/pages/RecipesPage.tsx:120 | a tag's badge is highlighted exactly when it is the selected tag |
| `RecipesPage.ToggleTagHighlights` | src/pages/RecipesPage.tsx:62-68 | after a click the clicked tag is highlighted exactly when it was not before, and no other tag is |
| `RecipesPage.NormaliseDifficulty` | src/pages/RecipesPage.tsx:98 | the empty value is stored as null, any other value unchanged, so the filter is active exactly for a non-empty value |
| `RecipesPage.Reset` | src/pages/RecipesPage.tsx:70-74 | reset gives an empty query, no tag and no difficulty |
| `RecipesPage.ResetIdempotentAndShowsAll` | src/pages/RecipesPage.tsx:70-74 | resetting twice equals resetting once, and after a reset the whole catalogue is listed |
| `RecipesPage.Listing.constructor` | src/pages/RecipesPage.tsx:21-25 | the page starts with no filter and the whole catalogue listed |
| `RecipesPage.Listing.RunFilterEffect` | src/pages/RecipesPage.tsx:31-60 | the three-step effect writes the listing `Selected` gives for the current inputs |
| `RecipesPage.Listing.SetSearchQuery` | src/pages/RecipesPage.tsx:150 | typing changes only the query, and the listing follows it |
| `RecipesPage.Listing.HandleTagClick` | src/pages/RecipesPage.tsx:62-68 | a click changes only the tag, by `ToggleTag`, and the listing follows it |
| `RecipesPage.Listing.HandleReset` | src/pages/RecipesPage.tsx:70-74 | reset clears all three inputs and lists the whole catalogue |
| `RecipesPage.Listing.SelectDifficulty` | src/pages/RecipesPage.tsx:98 | the select changes only the difficulty, by `NormaliseDifficulty`, and the listing follows it |
| `RecipeDetail.FindById` | src/pages/RecipeDetail.tsx:16 | the lookup finds nothing exactly when no recipe has the id, and what it finds is a catalogue recipe with that id |
| `RecipeDetail.LookupShowsFirstMatch` | src/pages/RecipeDetail.tsx:16-18 | on a match the cell becomes the first recipe with the id, whatever it held |
| `RecipeDetail.LookupMissKeepsPrevious` | src/pages/RecipeDetail.tsx:17-19 | on a miss the cell keeps what it held, so a recipe shown before stays |
| `RecipeDetail.ScreenOf` | src/pages/RecipeDetail.tsx:22-35 | the not-found view is chosen exactly when the cell is null |
| `RecipeDetail.VisitAllHolds` | src/pages/RecipeDetail.tsx:15-20 | over a series of route ids the cell is unchanged until an id matches, and afterwards holds the recipe found for the last id that matched |
| `RecipeDetail.NotFoundExactlyWhenNothingMatched` | src/pages/RecipeDetail.tsx:13-22 | from the initial null cell, the not-found view shows exactly when no visited id belongs to a recipe |
| `RecipeDetail.CardLinkOpensRecipe` | src/pages/RecipeDetail.tsx:15-20 | with unique ids and a plain id, the card's link is routed, and looking up the routed id shows that card's recipe |
| `RecipeDetail.DetailPage.constructor` | src/pages/RecipeDetail.tsx:13 | the page reads the catalogue, and the cell starts null, so the not-found view is shown first |
| `RecipeDetail.DetailPage.OnRouteId` | src/pages/RecipeDetail.tsx:15-20 | the effect sets the cell to a recipe with the id on a match and leaves it unchanged on a miss |
| `RecipeDetail.DetailPage.View` | src/pages/RecipeDetail.tsx:22 | the page renders not-found exactly when the cell is null |

## Left out

- `Text.Lower`: models lower-casing only for Latin A–Z and the Cyrillic capitals U+0400–U+042F, which cover the catalogue's Russian text. Every other character maps to itself. JavaScript's full Unicode case mapping is not modelled, including the mappings that change a string's length.
- `RecipeDetail.CardLinkOpensRecipe` and `Routes.DetailLinkRoundTrip` hold only for plain ids (`PlainId`). A plain id is non-empty, is not `.` or `..`, and has no space, control character, `/`, `\`, `?`, `#` or `%`. The browser's URL parser and the router can change the links of other ids, and the model promises nothing about those links.
- `Routes.UnroutableLinks` applies `RouteId` to the link string as written. The step from link to pathname is not modelled: the split at `?` and `#`, the resolution of dot segments, and the deletion of tabs and newlines. So the lemma is stated only for ids that this step leaves unchanged.
- `Routes.RouteId` and `Routes.RouteIdOnlyFromLink` match the `/recipe/` prefix exactly and case-sensitively. They reject a trailing slash and do not percent-decode the segment. The router ignores case in the prefix, tolerates trailing slashes and decodes the segment. So a path such as `/Recipe/abc` or `/recipe/abc/` reaches the detail page in the app, while the model gives no id for it.
- The `@/data/recipes` module (`recipes`, `getAllTags`, `getRecipesByTag`) is not part of this model. The catalogue is a parameter of every operation. The effect that loads the tag list (src/pages/RecipesPage.tsx:27-29) is left out with it.
- `Catalog.Recipe` leaves out the fields `cookTime`, `servings` and `steps`, which no modelled logic reads. It keeps `image` and `prepTime`, which the listing passes to each card. Of these, only `image` feeds a modelled derivation (`ImageSrc`).
- React scheduling: each handler is followed at once by its effect. The listing effect's dependency check is not modelled, because re-running it gives the same listing.
- The route parameter is modelled as a string. The `undefined` case of `useParams` is not modelled, because the `/recipe/:id` route always binds it.
- Rendering: JSX markup, layout, the listing's empty-state branch (src/pages/RecipesPage.tsx:155-178), the header, the footer and the static texts. `Header`, `FeaturedRecipe` and the landing page `Index` are not modelled.
- Of the router in `App`, only the `/recipe/:id` route is modelled, as `Routes.RouteId`. The `/` and `*` routes, route precedence and navigation history are not modelled.
