/** The recipe listing: a search query, an optional tag and an optional difficulty select
    which recipes of the catalogue are listed, and the handlers that change them. */
module RecipesPage {

  import opened Wrappers
  import opened Text
  import opened ArrayOps
  import opened Catalog
  import RecipeCard

  /** The three pieces of state the filter reads. */
  datatype FilterInputs = FilterInputs(
    searchQuery: string,
    selectedTag: Option<string>,
    selectedDifficulty: Option<string>)

  /** The initial state, and the state after a reset: no query, no tag, no difficulty. */
  const Unfiltered: FilterInputs := FilterInputs("", None, None)

  /** JavaScript truthiness of a `string | null`: both `null` and `""` are falsy. */
  predicate Truthy(v: Option<string>)
  {
    v.Some? && v.value != ""
  }

  /** The search predicate for an already lower-cased query: it occurs in the lower-cased
      title or description, or in some lower-cased ingredient or tag. */
  predicate MatchesQuery(r: Recipe, query: string)
  {
    || Includes(Lower(r.title), query)
    || Includes(Lower(r.description), query)
    || (exists ingredient :: ingredient in r.ingredients && Includes(Lower(ingredient), query))
    || (exists tag :: tag in r.tags && Includes(Lower(tag), query))
  }

  /** `recipe.tags.includes(tag)`: exact, case-sensitive membership. */
  predicate HasTag(r: Recipe, tag: string)
  {
    tag in r.tags
  }

  /** `recipe.difficulty === level`. */
  predicate HasDifficulty(r: Recipe, level: string)
  {
    r.difficulty.Label() == level
  }

  /** The three `.filter` calls of the effect. */
  function SearchFilter(rs: seq<Recipe>, query: string): seq<Recipe>
  {
    Keep(rs, r => MatchesQuery(r, query))
  }

  function TagFilter(rs: seq<Recipe>, tag: string): seq<Recipe>
  {
    Keep(rs, r => HasTag(r, tag))
  }

  function DifficultyFilter(rs: seq<Recipe>, level: string): seq<Recipe>
  {
    Keep(rs, r => HasDifficulty(r, level))
  }

  /** The steps of the effect; each one filters only when its input is truthy. */
  datatype Step = SearchStep | TagStep | DifficultyStep

  function ApplyStep(rs: seq<Recipe>, inputs: FilterInputs, step: Step): seq<Recipe>
  {
    match step
    case SearchStep =>
      if inputs.searchQuery != "" then SearchFilter(rs, Lower(inputs.searchQuery)) else rs
    case TagStep =>
      if Truthy(inputs.selectedTag) then TagFilter(rs, inputs.selectedTag.value) else rs
    case DifficultyStep =>
      if Truthy(inputs.selectedDifficulty) then DifficultyFilter(rs, inputs.selectedDifficulty.value) else rs
  }

  /** The steps applied one after the other, in the given order. */
  function ApplySteps(rs: seq<Recipe>, inputs: FilterInputs, order: seq<Step>): seq<Recipe>
    decreases |order|
  {
    if order == [] then rs else ApplySteps(ApplyStep(rs, inputs, order[0]), inputs, order[1..])
  }

  /** The order in which the effect runs the steps. */
  const SourceOrder: seq<Step> := [SearchStep, TagStep, DifficultyStep]

  /** The listing the effect computes from the whole catalogue. */
  function Selected(rs: seq<Recipe>, inputs: FilterInputs): seq<Recipe>
  {
    ApplySteps(rs, inputs, SourceOrder)
  }

  /** The listing is the three steps in the order the effect runs them. */
  lemma SelectedUnfolds(rs: seq<Recipe>, inputs: FilterInputs)
    ensures Selected(rs, inputs) ==
            ApplyStep(ApplyStep(ApplyStep(rs, inputs, SearchStep), inputs, TagStep), inputs, DifficultyStep)
  {
    assert SourceOrder[1..] == [TagStep, DifficultyStep];
    assert SourceOrder[1..][1..] == [DifficultyStep];
    assert SourceOrder[1..][1..][1..] == [];
  }

  /** A recipe passes a step: the step is inactive, or its predicate holds. */
  predicate Passes(inputs: FilterInputs, step: Step, r: Recipe)
  {
    match step
    case SearchStep => inputs.searchQuery == "" || MatchesQuery(r, Lower(inputs.searchQuery))
    case TagStep => !Truthy(inputs.selectedTag) || HasTag(r, inputs.selectedTag.value)
    case DifficultyStep => !Truthy(inputs.selectedDifficulty) || HasDifficulty(r, inputs.selectedDifficulty.value)
  }

  /** A recipe passes every active filter (their conjunction). */
  predicate Admitted(inputs: FilterInputs, r: Recipe)
  {
    Passes(inputs, SearchStep, r) && Passes(inputs, TagStep, r) && Passes(inputs, DifficultyStep, r)
  }

  /** A recipe passes every step of `order`, checked step by step. */
  predicate PassesAll(inputs: FilterInputs, order: seq<Step>, r: Recipe)
    decreases |order|
  {
    order == [] || (Passes(inputs, order[0], r) && PassesAll(inputs, order[1..], r))
  }

  /** Passing every step in turn is passing each step that occurs in the order. */
  lemma {:induction false} PassesAllMeansEach(inputs: FilterInputs, order: seq<Step>, r: Recipe)
    ensures PassesAll(inputs, order, r) <==> forall s :: s in order ==> Passes(inputs, s, r)
    decreases |order|
  {
    if order != [] {
      PassesAllMeansEach(inputs, order[1..], r);
      assert order == [order[0]] + order[1..];
    }
  }

  /** One step is one filter by (any predicate equal to) its pass predicate. */
  lemma ApplyStepIsKeep(rs: seq<Recipe>, inputs: FilterInputs, step: Step, pass: Recipe -> bool)
    requires forall r :: pass(r) == Passes(inputs, step, r)
    ensures ApplyStep(rs, inputs, step) == Keep(rs, pass)
  {
    match step
    case SearchStep =>
      if inputs.searchQuery != "" {
        var q := Lower(inputs.searchQuery);
        KeepExtensional(rs, r => MatchesQuery(r, q), pass);
      } else {
        KeepAll(rs, pass);
      }
    case TagStep =>
      if Truthy(inputs.selectedTag) {
        KeepExtensional(rs, r => HasTag(r, inputs.selectedTag.value), pass);
      } else {
        KeepAll(rs, pass);
      }
    case DifficultyStep =>
      if Truthy(inputs.selectedDifficulty) {
        KeepExtensional(rs, r => HasDifficulty(r, inputs.selectedDifficulty.value), pass);
      } else {
        KeepAll(rs, pass);
      }
  }

  /** Whatever the order, running the steps keeps exactly the recipes that pass every
      step in the order, in catalogue order. */
  lemma {:induction false} ApplyStepsIsConjunction(rs: seq<Recipe>, inputs: FilterInputs, order: seq<Step>,
                                                   all: Recipe -> bool)
    requires forall r :: all(r) == PassesAll(inputs, order, r)
    ensures ApplySteps(rs, inputs, order) == Keep(rs, all)
    decreases |order|
  {
    if order == [] {
      KeepAll(rs, all);
    } else {
      var first := r => Passes(inputs, order[0], r);
      var rest := r => PassesAll(inputs, order[1..], r);
      ApplyStepIsKeep(rs, inputs, order[0], first);
      ApplyStepsIsConjunction(ApplyStep(rs, inputs, order[0]), inputs, order[1..], rest);
      forall r
        ensures all(r) == (first(r) && rest(r))
      {
        assert PassesAll(inputs, order, r) == (Passes(inputs, order[0], r) && PassesAll(inputs, order[1..], r));
      }
      KeepFusion(rs, first, rest, all);
    }
  }

  /** The filters commute: any two orders that run the same steps give the same listing. */
  lemma StepOrderIrrelevant(rs: seq<Recipe>, inputs: FilterInputs, order1: seq<Step>, order2: seq<Step>)
    requires forall s :: s in order1 <==> s in order2
    ensures ApplySteps(rs, inputs, order1) == ApplySteps(rs, inputs, order2)
  {
    var all := r => PassesAll(inputs, order1, r);
    forall r
      ensures all(r) == PassesAll(inputs, order2, r)
    {
      PassesAllMeansEach(inputs, order1, r);
      PassesAllMeansEach(inputs, order2, r);
    }
    ApplyStepsIsConjunction(rs, inputs, order1, all);
    ApplyStepsIsConjunction(rs, inputs, order2, all);
  }

  /** The listing is the catalogue filtered once by the conjunction of the active filters. */
  lemma SelectedIsConjunction(rs: seq<Recipe>, inputs: FilterInputs)
    ensures Selected(rs, inputs) == Keep(rs, r => Admitted(inputs, r))
  {
    ApplyStepsIsConjunction(rs, inputs, SourceOrder, r => Admitted(inputs, r));
  }

  /** Soundness: every listed recipe is in the catalogue and satisfies each active filter. */
  lemma SelectedSound(rs: seq<Recipe>, inputs: FilterInputs, r: Recipe)
    requires r in Selected(rs, inputs)
    ensures r in rs
    ensures inputs.searchQuery != "" ==> MatchesQuery(r, Lower(inputs.searchQuery))
    ensures Truthy(inputs.selectedTag) ==> inputs.selectedTag.value in r.tags
    ensures Truthy(inputs.selectedDifficulty) ==> r.difficulty.Label() == inputs.selectedDifficulty.value
  {
    SelectedIsConjunction(rs, inputs);
  }

  /** Completeness: every catalogue recipe that satisfies all active filters is listed, as
      many times as it occurs in the catalogue. */
  lemma SelectedComplete(rs: seq<Recipe>, inputs: FilterInputs, r: Recipe)
    requires r in rs
    requires inputs.searchQuery != "" ==> MatchesQuery(r, Lower(inputs.searchQuery))
    requires Truthy(inputs.selectedTag) ==> inputs.selectedTag.value in r.tags
    requires Truthy(inputs.selectedDifficulty) ==> r.difficulty.Label() == inputs.selectedDifficulty.value
    ensures r in Selected(rs, inputs)
    ensures multiset(Selected(rs, inputs))[r] == multiset(rs)[r]
  {
    SelectedIsConjunction(rs, inputs);
    assert Admitted(inputs, r);
  }

  /** Order: the listing is a subsequence of the catalogue. */
  lemma SelectedKeepsOrder(rs: seq<Recipe>, inputs: FilterInputs)
    ensures IsSubsequence(Selected(rs, inputs), rs)
  {
    SelectedIsConjunction(rs, inputs);
  }

  /** With no active filter the listing is the whole catalogue, in the same order. */
  lemma UnfilteredShowsAll(rs: seq<Recipe>, inputs: FilterInputs)
    requires inputs.searchQuery == ""
    requires !Truthy(inputs.selectedTag) && !Truthy(inputs.selectedDifficulty)
    ensures Selected(rs, inputs) == rs
  {
    SelectedIsConjunction(rs, inputs);
    KeepAll(rs, r => Admitted(inputs, r));
  }

  /** Choosing a level in the select lists exactly the catalogue's recipes of that level. */
  lemma DifficultySelectsLevel(rs: seq<Recipe>, level: Difficulty, r: Recipe)
    ensures r in Selected(rs, FilterInputs("", None, Some(level.Label()))) <==> r in rs && r.difficulty == level
  {
    SelectedIsConjunction(rs, FilterInputs("", None, Some(level.Label())));
    LabelInjective(r.difficulty, level);
  }

  /** `handleTagClick`: clicking the selected tag clears it; clicking any other tag
      selects that one. */
  function ToggleTag(selected: Option<string>, tag: string): (next: Option<string>)
    ensures next == None <==> selected == Some(tag)
    ensures next != None ==> next == Some(tag)
  {
    if selected == Some(tag) then None else Some(tag)
  }

  /** Two clicks on the same tag restore the selection when it was none or that tag, and
      otherwise leave no tag selected. */
  lemma ToggleTagTwice(selected: Option<string>, tag: string)
    ensures ToggleTag(ToggleTag(selected, tag), tag) ==
            if selected == None || selected == Some(tag) then selected else None
  {
  }

  /** The variant of a tag's badge in the filter panel: highlighted when it is the
      selected tag. */
  function TagBadge(selected: Option<string>, tag: string): (v: RecipeCard.BadgeVariant)
    ensures v == RecipeCard.Default <==> selected == Some(tag)
    ensures v != RecipeCard.Default ==> v == RecipeCard.Outline
  {
    if selected == Some(tag) then RecipeCard.Default else RecipeCard.Outline
  }

  /** After a click on `tag` at most that tag is highlighted, and it is exactly when it
      was not highlighted before. */
  lemma ToggleTagHighlights(selected: Option<string>, tag: string, other: string)
    ensures TagBadge(ToggleTag(selected, tag), tag) == RecipeCard.Default <==>
            TagBadge(selected, tag) != RecipeCard.Default
    ensures other != tag ==> TagBadge(ToggleTag(selected, tag), other) == RecipeCard.Outline
  {
  }

  /** The select's `onValueChange`: `value || null`. */
  function NormaliseDifficulty(value: string): (v: Option<string>)
    ensures v == None <==> value == ""
    ensures v.Some? ==> v.value == value
    ensures Truthy(v) <==> value != ""
  {
    if value != "" then Some(value) else None
  }

  /** `handleReset`, as a transition on the filter inputs. */
  function Reset(inputs: FilterInputs): (next: FilterInputs)
    ensures next.searchQuery == "" && next.selectedTag == None && next.selectedDifficulty == None
  {
    Unfiltered
  }

  /** Resetting twice is resetting once, and after a reset the whole catalogue is listed. */
  lemma ResetIdempotentAndShowsAll(rs: seq<Recipe>, inputs: FilterInputs)
    ensures Reset(Reset(inputs)) == Reset(inputs)
    ensures Selected(rs, Reset(inputs)) == rs
  {
    UnfilteredShowsAll(rs, Reset(inputs));
  }

  /** The listing page's state. */
  class Listing {
    const recipes: seq<Recipe>
    var searchQuery: string
    var selectedTag: Option<string>
    var selectedDifficulty: Option<string>
    var filteredRecipes: seq<Recipe>

    function Inputs(): FilterInputs
      reads this
    {
      FilterInputs(searchQuery, selectedTag, selectedDifficulty)
    }

    /** The listing shown is the one the effect computes from the current inputs. */
    ghost predicate Valid()
      reads this
    {
      filteredRecipes == Selected(recipes, Inputs())
    }

    /** Mounting the page: empty query, no tag, no difficulty, and the whole catalogue listed. */
    constructor (recipes: seq<Recipe>)
      ensures this.recipes == recipes
      ensures Inputs() == Unfiltered && filteredRecipes == recipes
      ensures Valid()
    {
      this.recipes := recipes;
      searchQuery := "";
      selectedTag := None;
      selectedDifficulty := None;
      filteredRecipes := recipes;
      new;
      UnfilteredShowsAll(recipes, Unfiltered);
    }

    /** The filter effect: from the whole catalogue, the search, tag and difficulty
        filters in turn, each only when its input is truthy. */
    method RunFilterEffect()
      modifies this`filteredRecipes
      ensures Valid()
    {
      var result := recipes;
      if searchQuery != "" {
        var query := Lower(searchQuery);
        result := SearchFilter(result, query);
      }
      assert result == ApplyStep(recipes, Inputs(), SearchStep);
      if Truthy(selectedTag) {
        result := TagFilter(result, selectedTag.value);
      }
      assert result == ApplyStep(ApplyStep(recipes, Inputs(), SearchStep), Inputs(), TagStep);
      if Truthy(selectedDifficulty) {
        result := DifficultyFilter(result, selectedDifficulty.value);
      }
      SelectedUnfolds(recipes, Inputs());
      filteredRecipes := result;
    }

    /** Typing in the search box, then the effect. */
    method SetSearchQuery(value: string)
      modifies this
      ensures Inputs() == old(Inputs()).(searchQuery := value)
      ensures Valid()
    {
      searchQuery := value;
      RunFilterEffect();
    }

    /** `handleTagClick`, then the effect. */
    method HandleTagClick(tag: string)
      modifies this
      ensures Inputs() == old(Inputs()).(selectedTag := ToggleTag(old(selectedTag), tag))
      ensures Valid()
    {
      selectedTag := ToggleTag(selectedTag, tag);
      RunFilterEffect();
    }

    /** `handleReset`, then the effect: the whole catalogue is listed again. */
    method HandleReset()
      modifies this
      ensures Inputs() == Reset(old(Inputs()))
      ensures filteredRecipes == recipes
      ensures Valid()
    {
      searchQuery := "";
      selectedTag := None;
      selectedDifficulty := None;
      RunFilterEffect();
      UnfilteredShowsAll(recipes, Inputs());
    }

    /** The difficulty select's change handler, then the effect. */
    method SelectDifficulty(value: string)
      modifies this
      ensures Inputs() == old(Inputs()).(selectedDifficulty := NormaliseDifficulty(value))
      ensures Valid()
    {
      selectedDifficulty := NormaliseDifficulty(value);
      RunFilterEffect();
    }
  }
}
