/** The categories page: the first `visibleCount` categories and the show-all button. */
module Categories {
  import opened Js

  const InitialVisibleCount := 8

  /** What the page renders: the categories shown, and whether the show-all button is there. */
  datatype View<T> = View(shown: seq<T>, showAllButton: bool)

  /** `categories.slice(0, visibleCount)` and `visibleCount < categories.length`. */
  function Render<T>(categories: seq<T>, visibleCount: int): (v: View<T>)
    ensures visibleCount >= 0 ==> v.shown == categories[..Min(visibleCount, |categories|)]
    ensures v.showAllButton <==> visibleCount < |categories|
  {
    View(Slice(categories, 0, visibleCount), visibleCount < |categories|)
  }

  /**
   * `handleShowMore`: the count becomes the number of categories, after which
   * every category shows, in order, and the show-all button is gone.
   */
  function HandleShowMore<T>(categories: seq<T>): (visibleCount: int)
    ensures Render(categories, visibleCount) == View(categories, false)
  {
    assert categories[..|categories|] == categories;
    |categories|
  }

  /** On first render the first min(8, n) categories show, with the button iff there are more than 8. */
  lemma FirstRender<T>(categories: seq<T>)
    ensures Render(categories, InitialVisibleCount).shown == categories[..Min(8, |categories|)]
    ensures Render(categories, InitialVisibleCount).showAllButton <==> |categories| > 8
  {
  }
}
