/** pages/BookViewerPage.tsx: the book named by the route is looked up on the shelf and
    laid out as the leaves of a flip book. */
module BookViewer {
  import opened Wrappers
  import opened Types
  import opened JsArray
  import opened Constants

  /** One leaf of the flip book, named by its `pageType` ("cover", "title", "image", "text",
      "blank", "back-cover"): the front cover, the title page, the picture and the text of
      one story page, the padding blank, and the back cover. */
  datatype Leaf =
    | Cover(imageUrl: string, title: string)
    | Title(title: string)
    | Image(page: Page)
    | Text(page: Page)
    | Blank
    | BackCover

  // ---------------------------------------------------------------------------
  // The layout

  /** The leaves of the story pages: each page becomes its picture, then its text. */
  function StoryLeaves(pages: seq<Page>): (leaves: seq<Leaf>)
    ensures |leaves| == 2 * |pages|
    ensures forall i :: 0 <= i < |pages| ==> leaves[2 * i] == Image(pages[i])
    ensures forall i :: 0 <= i < |pages| ==> leaves[2 * i + 1] == Text(pages[i])
  {
    if |pages| == 0 then []
    else [Image(pages[0]), Text(pages[0])] + StoryLeaves(pages[1..])
  }

  /** The story leaves grow by two as the `forEach` visits one more page. */
  lemma {:induction false} StoryLeavesSnoc(pages: seq<Page>, page: Page)
    ensures StoryLeaves(pages + [page]) == StoryLeaves(pages) + [Image(page), Text(page)]
  {
    if |pages| == 0 {
      assert pages + [page] == [page];
    } else {
      assert (pages + [page])[1..] == pages[1..] + [page];
      StoryLeavesSnoc(pages[1..], page);
    }
  }

  /** The layout `allPages` is built to: cover, title page, the story leaves, a blank when the
      count so far is odd, and the back cover. */
  function Layout(book: Storybook): (leaves: seq<Leaf>)
    ensures |leaves| >= 2 * |book.pages| + 3
    ensures leaves[0] == Cover(book.coverImageUrl, book.title) && leaves[1] == Title(book.title)
    ensures leaves[2..2 + 2 * |book.pages|] == StoryLeaves(book.pages)
    ensures leaves[|leaves| - 1] == BackCover
  {
    var front := [Cover(book.coverImageUrl, book.title), Title(book.title)] + StoryLeaves(book.pages);
    front + (if |front| % 2 != 0 then [Blank] else []) + [BackCover]
  }

  /** The shape of every layout: 2n + 3 leaves; the cover and the title page first; story
      page i at leaves 2 + 2i (picture) and 3 + 2i (text); the back cover last. The leaves
      before the back cover are always even in number, so the blank is never added. */
  lemma LayoutShape(book: Storybook)
    ensures var leaves := Layout(book);
      var n := |book.pages|;
      |leaves| == 2 * n + 3 &&
      leaves[0] == Cover(book.coverImageUrl, book.title) &&
      leaves[1] == Title(book.title) &&
      (forall i :: 0 <= i < n ==> leaves[2 + 2 * i] == Image(book.pages[i])) &&
      (forall i :: 0 <= i < n ==> leaves[3 + 2 * i] == Text(book.pages[i])) &&
      leaves[2 * n + 2] == BackCover &&
      Blank !in leaves
  {
    var leaves := Layout(book);
    var story := StoryLeaves(book.pages);
    assert leaves == [Cover(book.coverImageUrl, book.title), Title(book.title)] + story + [BackCover];
    forall k | 0 <= k < |leaves| ensures leaves[k] != Blank {
      if 2 <= k < 2 + |story| {
        var i := (k - 2) / 2;
        assert leaves[k] == story[k - 2];
        if k - 2 == 2 * i {
          assert story[2 * i] == Image(book.pages[i]);
        } else {
          assert k - 2 == 2 * i + 1;
          assert story[2 * i + 1] == Text(book.pages[i]);
        }
      }
    }
  }

  /** The `allPages` building of the page component: one `push` per leaf, in order. */
  method BuildLeaves(book: Storybook) returns (allPages: seq<Leaf>)
    ensures allPages == Layout(book)
  {
    allPages := [];
    allPages := allPages + [Cover(book.coverImageUrl, book.title)];
    allPages := allPages + [Title(book.title)];
    var index := 0;
    while index < |book.pages|
      invariant 0 <= index <= |book.pages|
      invariant allPages == [Cover(book.coverImageUrl, book.title), Title(book.title)]
        + StoryLeaves(book.pages[..index])
    {
      var page := book.pages[index];
      allPages := allPages + [Image(page)];
      allPages := allPages + [Text(page)];
      StoryLeavesSnoc(book.pages[..index], page);
      assert book.pages[..index + 1] == book.pages[..index] + [page];
      index := index + 1;
    }
    assert book.pages[..index] == book.pages;
    if |allPages| % 2 != 0 {
      allPages := allPages + [Blank];
    }
    allPages := allPages + [BackCover];
  }

  // ---------------------------------------------------------------------------
  // The lookup

  /** `books.find(b => b.id === id)`: the first book on the shelf with that id. */
  function FindBook(books: seq<Storybook>, id: string): (r: Option<Storybook>)
    ensures r.Some? ==> r.value.id == id
    ensures r.Some? ==> exists k :: 0 <= k < |books| && books[k] == r.value &&
                                 forall j :: 0 <= j < k ==> books[j].id != id
    ensures r.None? <==> forall k :: 0 <= k < |books| ==> books[k].id != id
  {
    match FirstIndex(books, (b: Storybook) => b.id == id)
    case Some(k) => Some(books[k])
    case None => None
  }

  /** When several books share the id, the one nearest the front of the shelf wins. */
  lemma FindBookFirst(books: seq<Storybook>, id: string, k: nat)
    requires k < |books| && books[k].id == id
    requires forall j :: 0 <= j < k ==> books[j].id != id
    ensures FindBook(books, id) == Some(books[k])
  {
  }

  /** What the page shows: "Book Not Found", or the flip book of the book found. */
  datatype ViewerState = NotFound | Showing(book: Storybook, leaves: seq<Leaf>)

  /** The page component for route id `routeId`. */
  method OpenBook(books: seq<Storybook>, routeId: string) returns (view: ViewerState)
    ensures FindBook(books, routeId).None? ==> view == NotFound
    ensures FindBook(books, routeId).Some? ==>
      view == Showing(FindBook(books, routeId).value, Layout(FindBook(books, routeId).value))
  {
    var book := FindBook(books, routeId);
    if book.None? {
      return NotFound;
    }
    var allPages := BuildLeaves(book.value);
    view := Showing(book.value, allPages);
  }

  /** On the sample shelf the route ids '1' and '3' find their books and an unknown id is
      not found. */
  lemma FixtureLookup()
    ensures FindBook(MockStorybooks, "1") == Some(Leo)
    ensures FindBook(MockStorybooks, "3") == Some(Submarine)
    ensures FindBook(MockStorybooks, "5") == None
  {
    FindBookFirst(MockStorybooks, "1", 0);
    FindBookFirst(MockStorybooks, "3", 2);
  }

  /** Books '3' and '4' have no pages and show only their cover, their title page and the
      back cover. */
  lemma FixtureEmptyBookLayout()
    ensures Layout(Submarine) ==
      [Cover(Submarine.coverImageUrl, Submarine.title), Title(Submarine.title), BackCover]
    ensures Layout(Mystery) ==
      [Cover(Mystery.coverImageUrl, Mystery.title), Title(Mystery.title), BackCover]
  {
    EmptyBookLayout(Submarine);
    EmptyBookLayout(Mystery);
  }

  /** A book without pages lays out as cover, title page and back cover. */
  lemma EmptyBookLayout(book: Storybook)
    requires book.pages == []
    ensures Layout(book) == [Cover(book.coverImageUrl, book.title), Title(book.title), BackCover]
  {
    LayoutShape(book);
  }

  /** Book '1', with its eight pages, shows 19 leaves. */
  lemma FixtureFullBookLayout()
    ensures |Layout(Leo)| == 19
  {
    var book := Leo;
    assert |book.pages| == 8;
    LayoutShape(book);
  }
}
