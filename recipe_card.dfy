/** The values a recipe card derives from its props: the difficulty badge's variant,
    the image source and the link to the detail page. The route that link targets is in
    module `Routes`. */
module RecipeCard {

  import opened Wrappers
  import opened Catalog

  /** The badge variants a card can show. */
  datatype BadgeVariant = Default | Secondary | Destructive | Outline

  /** The nested conditional on the difficulty string: "Легко" is `default`, "Средне" is
      `secondary`, and anything else falls through to `destructive`. */
  function DifficultyBadge(difficulty: string): (v: BadgeVariant)
    ensures v == Default <==> difficulty == Easy.Label()
    ensures v == Secondary <==> difficulty == Medium.Label()
    ensures v == Destructive <==> difficulty != Easy.Label() && difficulty != Medium.Label()
  {
    if difficulty == "Легко" then Default
    else if difficulty == "Средне" then Secondary
    else Destructive
  }

  /** The variant each level is meant to get, stated per level. */
  function LevelBadge(level: Difficulty): BadgeVariant
  {
    match level
    case Easy => Default
    case Medium => Secondary
    case Hard => Destructive
  }

  /** On the three levels the card's conditional gives each level its own variant; the
      fall-through branch is reached by "Сложно" alone. */
  lemma DifficultyBadgeOfLevel(level: Difficulty)
    ensures DifficultyBadge(level.Label()) == LevelBadge(level)
    ensures DifficultyBadge(level.Label()) == Destructive <==> level == Hard
  {
    LabelInjective(level, Easy);
    LabelInjective(level, Medium);
  }

  /** Two cards show the same difficulty badge exactly when their levels are equal. */
  lemma DifficultyBadgeDistinguishesLevels(a: Difficulty, b: Difficulty)
    ensures DifficultyBadge(a.Label()) == DifficultyBadge(b.Label()) <==> a == b
  {
    DifficultyBadgeOfLevel(a);
    DifficultyBadgeOfLevel(b);
  }

  const Placeholder: string := "/placeholder.svg"

  /** `image || "/placeholder.svg"`: the empty string is falsy, so it is replaced by the
      placeholder; any other URL is used as given. The card never renders an empty source. */
  function ImageSrc(image: string): (src: string)
    ensures src != ""
    ensures image != "" ==> src == image
    ensures image == "" ==> src == Placeholder
  {
    if image != "" then image else Placeholder
  }

  const DetailRoute: string := "/recipe/"

  /** The link target `/recipe/${id}`. */
  function DetailLink(id: string): (path: string)
    ensures |path| == |DetailRoute| + |id|
    ensures path[..|DetailRoute|] == DetailRoute
    ensures path[|DetailRoute|..] == id
  {
    DetailRoute + id
  }

  /** Different recipes get different links. */
  lemma DetailLinkInjective(a: string, b: string)
    ensures DetailLink(a) == DetailLink(b) <==> a == b
  {
    if DetailLink(a) == DetailLink(b) {
      assert a == DetailLink(a)[|DetailRoute|..];
    }
  }
}
