/** The detail route `/recipe/:id` of the application's router, and how the cards' links
    meet it. */
module Routes {

  import opened Wrappers
  import opened RecipeCard

  /** An id whose link the `/recipe/:id` route gives back unchanged: non-empty, not a dot
      segment that the URL parser would resolve away, free of spaces and control characters
      (which the URL parser strips or deletes), and free of the path separators, the query
      and fragment marks and the percent escape. */
  predicate PlainId(id: string)
  {
    id != "" && id != "." && id != ".." && forall c :: c in id ==> c > ' ' && c !in "/\\?#%"
  }

  /** The `/recipe/:id` route: the path is the prefix followed by one non-empty segment,
      which is the id. */
  function RouteId(path: string): (id: Option<string>)
    ensures id.Some? ==> id.value != "" && '/' !in id.value
  {
    if |DetailRoute| < |path| && path[..|DetailRoute|] == DetailRoute && '/' !in path[|DetailRoute|..]
    then Some(path[|DetailRoute|..])
    else None
  }

  /** The route gives back the id of a plain id's link. */
  lemma DetailLinkRoundTrip(id: string)
    requires PlainId(id)
    ensures RouteId(DetailLink(id)) == Some(id)
  {
    assert '/' in "/\\?#%";
  }

  /** A path yields an id only when it is that id's link. */
  lemma RouteIdOnlyFromLink(path: string, id: string)
    ensures RouteId(path) == Some(id) ==> DetailLink(id) == path
  {
    if RouteId(path) == Some(id) {
      assert path == path[..|DetailRoute|] + path[|DetailRoute|..];
    }
  }

  /** The link of the empty id does not match the detail route, and neither does the link
      of an id that holds a `/` before its last character and no character that the URL
      parser or the router would rewrite (spaces and control characters, dots, `\`, `?`,
      `#`, `%`). */
  lemma UnroutableLinks(id: string)
    requires id == "" ||
             ('/' in id && id[|id| - 1] != '/' && forall c :: c in id ==> c > ' ' && c !in ".\\?#%")
    ensures RouteId(DetailLink(id)) == None
  {
  }
}
