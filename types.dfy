/** The records of types.ts: a story page, a storybook and the options of one
    generation request. */
module Types {

  /** A browser `File` as far as the core sees it: only its name and MIME type. */
  datatype ImageFile = ImageFile(name: string, mimeType: string)

  /** One page of a book. `pageNumber` is a JavaScript number; the model keeps any integer,
      since the real generator copies whatever the provider returned. */
  datatype Page = Page(pageNumber: int, text: string, imageUrl: string)

  datatype Storybook = Storybook(id: string, title: string, coverImageUrl: string, pages: seq<Page>)

  /** What the creation form submits. */
  datatype CreationOptions = CreationOptions(
    characterImage: ImageFile,
    storyPrompt: string,
    ageGroup: int,
    pageCount: int,
    style: string)

  /** The storybook invariant: pages are numbered 1, 2, 3, ... in reading order. */
  predicate NumberedFromOne(pages: seq<Page>) {
    forall i :: 0 <= i < |pages| ==> pages[i].pageNumber == i + 1
  }

  /** The ids of a list of books, in order. */
  function Ids(books: seq<Storybook>): seq<string> {
    seq(|books|, k requires 0 <= k < |books| => books[k].id)
  }
}
