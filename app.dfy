/** App.tsx: the bookshelf state shared by the pages. It starts with the first two sample
    books, and a created book is put in front of the others. */
module App {
  import opened Wrappers
  import opened Types
  import opened JsArray
  import opened Constants
  import opened BookViewer

  /** `[newBook, ...prevBooks]`: the new book first, the previous shelf after it unchanged. */
  function Prepend(newBook: Storybook, prevBooks: seq<Storybook>): (books: seq<Storybook>)
    ensures |books| == |prevBooks| + 1
    ensures books[0] == newBook && books[1..] == prevBooks
  {
    [newBook] + prevBooks
  }

  /** Nothing is de-duplicated: the ids on the shelf gain exactly the new book's id in front,
      even when a book with that id is already there. */
  lemma PrependKeepsIds(newBook: Storybook, prevBooks: seq<Storybook>)
    ensures Ids(Prepend(newBook, prevBooks)) == [newBook.id] + Ids(prevBooks)
  {
    var books := [newBook] + prevBooks;
    var ids := Ids(books);
    var rest := Ids(prevBooks);
    forall k | 0 <= k < |ids| ensures ids[k] == ([newBook.id] + rest)[k] {
      if k > 0 {
        assert books[k] == prevBooks[k - 1];
        assert rest[k - 1] == prevBooks[k - 1].id;
      }
    }
    assert ids == [newBook.id] + rest;
  }

  /** After an addition the viewer finds the new book under its id, shadowing any older book
      with the same id, and finds every other id as before. */
  lemma PrependFind(newBook: Storybook, prevBooks: seq<Storybook>, id: string)
    ensures id == newBook.id ==> FindBook(Prepend(newBook, prevBooks), id) == Some(newBook)
    ensures id != newBook.id ==> FindBook(Prepend(newBook, prevBooks), id) == FindBook(prevBooks, id)
  {
    var p := (b: Storybook) => b.id == id;
    FirstIndexCons(newBook, prevBooks, p);
    match FirstIndex(prevBooks, p)
    case None =>
    case Some(j) =>
      assert ([newBook] + prevBooks)[j + 1] == prevBooks[j];
  }

  /** The shelf after adding `added` in order, one `addBookToShelf` call each. */
  function AddAll(shelf: seq<Storybook>, added: seq<Storybook>): seq<Storybook>
    decreases |added|
  {
    if |added| == 0 then shelf
    else AddAll(Prepend(added[0], shelf), added[1..])
  }

  /** Newest first: after a run of additions the last book added is in front, the first one
      just before the books that were there already, and those follow unchanged. */
  lemma {:induction false} AddAllNewestFirst(shelf: seq<Storybook>, added: seq<Storybook>)
    ensures |AddAll(shelf, added)| == |added| + |shelf|
    ensures forall i :: 0 <= i < |added| ==> AddAll(shelf, added)[i] == added[|added| - 1 - i]
    ensures AddAll(shelf, added)[|added|..] == shelf
    decreases |added|
  {
    if |added| > 0 {
      var rest := added[1..];
      var r := AddAll(Prepend(added[0], shelf), rest);
      AddAllNewestFirst(Prepend(added[0], shelf), rest);
      assert r == AddAll(shelf, added);
      forall i | 0 <= i < |added| ensures r[i] == added[|added| - 1 - i] {
        if i < |rest| {
          assert r[i] == rest[|rest| - 1 - i];
        } else {
          assert r[i] == r[|rest|..][0];
        }
      }
      assert r[|added|..] == r[|rest|..][1..];
    }
  }

  /** `useState(MOCK_STORYBOOKS.slice(0, 2))`. */
  const InitialBooks: seq<Storybook> := Take(MockStorybooks, 2)

  /** The shelf starts with books '1' and '2', in that order. */
  lemma InitialBooksAreFirstTwo()
    ensures InitialBooks == [Leo, Forest]
    ensures Ids(InitialBooks) == ["1", "2"]
  {
    assert MockStorybooks[..2] == [Leo, Forest];
  }

  /** The `books` state of the app component. */
  class Bookshelf {
    var books: seq<Storybook>

    constructor()
      ensures books == InitialBooks
    {
      books := InitialBooks;
    }

    /** `addBookToShelf`. */
    method AddBookToShelf(newBook: Storybook)
      modifies this
      ensures books == Prepend(newBook, old(books))
    {
      books := Prepend(newBook, books);
    }
  }
}
