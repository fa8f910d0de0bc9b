/** The recipe record the pages read. Its module `@/data/recipes` is not part of this model:
    the collection itself is a parameter of every operation, and only the fields the
    pages use are kept. */
module Catalog {

  /** The three-valued difficulty enumeration (`"Легко" | "Средне" | "Сложно"`). */
  datatype Difficulty = Easy | Medium | Hard
  {
    /** The string the enumeration member is at run time; it is also the value of the
        difficulty select's item for that level. */
    function Label(): (s: string)
      ensures s != ""
    {
      match this
      case Easy => "Легко"
      case Medium => "Средне"
      case Hard => "Сложно"
    }
  }

  datatype Recipe = Recipe(
    id: string,
    title: string,
    description: string,
    image: string,
    prepTime: string,
    difficulty: Difficulty,
    tags: seq<string>,
    ingredients: seq<string>)

  /** Distinct levels have distinct labels, so comparing labels is comparing levels. */
  lemma LabelInjective(a: Difficulty, b: Difficulty)
    ensures a.Label() == b.Label() <==> a == b
  {
    if a != b {
      assert a.Label()[1] != b.Label()[1] || |a.Label()| != |b.Label()|;
    }
  }
}
