# AI Storybook Creator: a Dafny model of its core

AI Storybook Creator is a React application. A user uploads a picture of a main character,
writes a story prompt and chooses an age group, a page count and an art style. A generator
then returns a storybook: a title, a cover picture and a sequence of illustrated pages. The
book is put on a bookshelf and read in a flip-book viewer. This project models the
deterministic logic behind that flow and proves what it promises. The logic covers:

- **Generation contract** (`services/geminiService.ts`, module `GeminiService`):
  - the rule that picks the mock or the real generator;
  - the mock generator, whose title is cut from the prompt with `split(' ')`, `slice(0, 5)`
    and `join(' ')`;
  - the loop that turns the provider's parsed `{title, pages}` answer into a storybook. It
    asks an image generator for one picture per page, plus a cover right after the first page.
- **Book viewer** (`pages/BookViewerPage.tsx`, module `BookViewer`):
  - lookup of the routed id on the shelf, with its "Book Not Found" branch;
  - the leaf list of the flip book: cover, title page, picture and text per page, a padding
    blank when the count is odd, and the back cover.
- **Bookshelf state** (`App.tsx`, module `App`): seeded with the first two sample books; a
  created book is put in front.
- **Creation form** (`pages/CreatePage.tsx`, module `CreatePage`):
  - form validity and the custom style;
  - the options record;
  - the submit handler, with its loading flag and its add-on-success rule;
  - the loader's message index, which cycles modulo 4;
  - the input handlers.
- **Fixtures** (`constants.ts`, module `Constants`): the six art styles and the four sample
  books.

Supporting modules:
- `Wrappers`: `Option` and `Result`.
- `Types`: the records of `types.ts`.
- `JsArray`: `slice(0, k)` and `find`/`findIndex`.
- `JsText`: `split` on one character, `join`, and the decimal rendering of a number inside a
  template string.

How each piece is modelled:
- Pure code (the mock, the strategy rule, `find`, the form predicates) becomes functions and
  lemmas.
- Code that builds state step by step becomes methods proved against specification
  functions:
  - the assembly loop, `AssembleLoop`, against `RealAssembly`;
  - the `allPages` pushes, `BuildLeaves`, against `Layout`.
- Components whose state the handlers update become classes: `Bookshelf` and `CreateForm`.

Inputs the code gets from its host become parameters:
- the environment variables: `Env`;
- the timestamp id: `id`;
- the `Math.random()` renderings: `draws`;
- the parsed text-generation answer: `storyReply`;
- the image generator: `respond`, a function from request to reply;
- the awaited generator in the form: `generate`;
- the number of loader interval firings: `ticks`.

The image requests made are recorded in a ghost sequence `calls`, so `|calls|` counts the
calls. The generator calls of the form are recorded in the ghost field `generatorCalls`.

Facts about the code that the model keeps:
- The viewer pushes each page's **picture before its text** (`pages/BookViewerPage.tsx:94-116`).
- The mock title splits on the single space character **without trimming**
  (`services/geminiService.ts:24`). So a prompt of only spaces gets a title of spaces: the
  whole prompt when it has fewer than five, otherwise four spaces. "A New Adventure" appears
  only for the empty prompt. For the prompt "A brave astronaut explores a new planet" the
  title is "A brave astronaut explores a".
- A failed cover request fails the whole generation, like a failed page picture
  (`services/geminiService.ts:106-116`).

## Model

| member | source | states |
|---|---|---|
| JsArray.Take | services/geminiService.ts:24 | `slice(0, k)` is the whole array when it is no longer than k, otherwise exactly k elements; always a prefix |
| JsArray.FirstIndex | pages/BookViewerPage.tsx:27 | the index found satisfies the predicate and no earlier one does; None exactly when no element satisfies it |
| JsArray.FirstIndexCons | pages/BookViewerPage.tsx:27 | searching behind a new first element finds it if it matches, otherwise finds the old result one position later |
| JsText.Split | services/geminiService.ts:24 | `split(sep)` yields one more piece than there are separators, and no piece contains the separator |
| JsText.JoinSplit | services/geminiService.ts:24 | joining the pieces of a split with the same separator gives back the string |
| JsText.JoinTakeSplit | services/geminiService.ts:24 | joining the first k pieces gives a prefix of the string: all of it with fewer than k separators, otherwise the part before the k-th separator, holding k-1 separators |
| JsText.NatToString | services/geminiService.ts:28 | the rendering of `${i + 1}` is non-empty, all decimal digits, with no leading zero |
| JsText.DecimalRoundTrip | services/geminiService.ts:28 | reading the rendered digits back as a decimal numeral gives the number |
| Constants.ArtStylesFacts | constants.ts:4-11 | six styles, none empty, none equal to the "Custom" sentinel |
| Constants.FixtureIdsDistinct | constants.ts:13-120 | the sample ids are '1', '2', '3', '4' in order and pairwise distinct |
| Constants.FixturePages | constants.ts:13-120 | books '1' and '2' have eight pages numbered 1..8 in order; books '3' and '4' have none |
| GeminiService.SelectStrategy | services/geminiService.ts:134-136 | the mock is chosen exactly when the mode is "development" or the key is undefined or empty |
| GeminiService.TitleWordsEmptyIff | services/geminiService.ts:24 | the joined first five words are empty exactly when the prompt is, so the fallback title fires only for the empty prompt |
| GeminiService.MockTitle | services/geminiService.ts:24 | the title is "A New Adventure" for the empty prompt; otherwise a prefix of the prompt: all of it with fewer than five spaces, else the part before the fifth space |
| GeminiService.GenerateMock | services/geminiService.ts:18-35 | the mock book has the given id and the mock title, max(0, pageCount) pages numbered from 1, each with the templated text and a fresh 800/600 placeholder, and a 600/800 cover |
| GeminiService.MockPageTextNumber | services/geminiService.ts:26-28 | page i's text is the template around the digits of i + 1, and those digits read back as i + 1 |
| GeminiService.CallPlan | services/geminiService.ts:89-117 | without failures the loop makes no calls for no pages, otherwise n + 1: page i's picture at its slot and the cover second |
| GeminiService.FirstFailure | services/geminiService.ts:89-117 | the call the loop stops at fails and every earlier one succeeds; None exactly when all succeed |
| GeminiService.CallsMade | services/geminiService.ts:89-117 | the number of calls made never exceeds the plan |
| GeminiService.AssembledPages | services/geminiService.ts:119-123 | one output page per parsed entry, in order, built from that entry |
| GeminiService.AssembleLoop | services/geminiService.ts:86-124 | the loop ends with the first failing call's error, or with exactly the assembled pages and cover; the calls made are the plan up to and including the first failure |
| GeminiService.AssembleStorybook | services/geminiService.ts:86-131 | the result is the reference assembly, and the calls made are the plan up to the first failure |
| GeminiService.AssemblyKeepsPages | services/geminiService.ts:89-123 | a successful assembly keeps id, title, page count, each entry's number and text in order, and makes each picture the data URL of the bytes returned for that entry's own prompt |
| GeminiService.AssemblyNumbering | services/geminiService.ts:119-123 | the book is numbered 1..n exactly when the parsed answer was, since nothing is re-sorted |
| GeminiService.AssemblySucceedsIff | services/geminiService.ts:89-117 | assembly succeeds exactly when every page picture and, if there are pages, the cover are generated |
| GeminiService.CoverRequestedOnce | services/geminiService.ts:91-117 | with pages there are n + 1 planned calls; the cover, in portrait, is the second, right after page 0, and its prompt is composed of the title, the style and page 0's image prompt; every other call is a landscape page picture sent with its own entry's image prompt |
| GeminiService.NoPagesNoCalls | services/geminiService.ts:86-89 | with no parsed pages no image is requested and the default cover stays |
| GeminiService.CallsMadeOnOutcome | services/geminiService.ts:89-117 | success makes every planned call; failure stops right after the failing call, whose message is the error |
| GeminiService.GenerateWithGemini | services/geminiService.ts:38-131 | no key: the mock and no image calls; a failed story request: its error and no image calls; otherwise the reference assembly |
| GeminiService.GenerateStorybook | services/geminiService.ts:134-136 | the result is the mock when the strategy is the mock, otherwise the real generator's result |
| BookViewer.StoryLeaves | pages/BookViewerPage.tsx:92-117 | 2n story leaves; page i gives its picture at 2i and its text at 2i + 1 |
| BookViewer.StoryLeavesSnoc | pages/BookViewerPage.tsx:92-117 | visiting one more page appends exactly its picture and its text |
| BookViewer.Layout | pages/BookViewerPage.tsx:57-142 | the layout `allPages` is built to: cover and title page first, then the story leaves in order, the back cover last |
| BookViewer.LayoutShape | pages/BookViewerPage.tsx:57-142 | 2n + 3 leaves: cover, title page, page i's picture at 2 + 2i and text at 3 + 2i, back cover last, no blank |
| BookViewer.BuildLeaves | pages/BookViewerPage.tsx:57-142 | the pushes build exactly the layout |
| BookViewer.FindBook | pages/BookViewerPage.tsx:27 | a found book has the routed id and no earlier book has it; nothing is found exactly when no book has the id |
| BookViewer.FindBookFirst | pages/BookViewerPage.tsx:27 | the first book with the id is the one found |
| BookViewer.OpenBook | pages/BookViewerPage.tsx:27-39 | an unknown id shows "not found" and builds no leaves; otherwise the found book shows its layout |
| BookViewer.EmptyBookLayout | pages/BookViewerPage.tsx:57-142 | a book without pages lays out as cover, title page, back cover |
| BookViewer.FixtureLookup | constants.ts:13-120 | on the sample shelf, '1' and '3' find their books and '5' is not found |
| BookViewer.FixtureEmptyBookLayout | constants.ts:108-119 | books '3' and '4' lay out as cover, title page, back cover |
| BookViewer.FixtureFullBookLayout | constants.ts:14-60 | book '1' lays out as 19 leaves |
| App.Prepend | App.tsx:18-20 | the shelf grows by one: the new book first, the old shelf after it unchanged |
| App.PrependKeepsIds | App.tsx:19 | the ids gain exactly the new id in front; nothing is de-duplicated |
| App.PrependFind | App.tsx:18-20 | after an addition the new book is found under its id, shadowing an older book with that id, and every other id is found as before |
| App.AddAllNewestFirst | App.tsx:18-20 | after a run of additions the books added are in front in reverse order of addition, the old shelf after them unchanged |
| App.InitialBooksAreFirstTwo | App.tsx:15 | the shelf starts with books '1' and '2', in that order |
| App.Bookshelf.constructor | App.tsx:15 | the state starts as the first two sample books |
| App.Bookshelf.AddBookToShelf | App.tsx:18-20 | the new state is the new book in front of the old one |
| CreatePage.FormValid | pages/CreatePage.tsx:41 | valid exactly when there is a picture, a non-empty prompt, and a non-empty custom style when "Custom" is chosen; a valid "Custom" form sends a non-empty style |
| CreatePage.FinalStyle | pages/CreatePage.tsx:59 | the typed style for "Custom", the chosen style otherwise: always one of the two; an offered art style is sent as that style; the "Custom" sentinel is sent only when typed |
| CreatePage.ValidFormSendsStyle | pages/CreatePage.tsx:41-66 | a valid form with an offered style sends a non-empty prompt and a non-empty style: the chosen art style, or the typed one for "Custom" |
| CreatePage.NextMessageIndex | pages/CreatePage.tsx:55-57 | the next index is below 4: one more, or back to 0 after the last message |
| CreatePage.AdvanceBy | pages/CreatePage.tsx:55-57 | after at least one firing the index points at one of the four messages |
| CreatePage.AdvanceByCycles | pages/CreatePage.tsx:48-57 | from index i, t firings give (i + t) mod 4, so every four firings bring back the same message |
| CreatePage.CreateForm.constructor | pages/CreatePage.tsx:21-29 | no picture, empty prompt, age 5, 10 pages, the first art style, empty custom style, not loading, index 0 |
| CreatePage.CreateForm.SubmitDisabled | pages/CreatePage.tsx:163 | disabled exactly when the form is invalid or loading; an enabled button on a form in its valid state sends options with a non-empty prompt and style |
| CreatePage.CreateForm.LoaderMessage | pages/CreatePage.tsx:13-16 | the loader shows one of the four messages |
| CreatePage.CreateForm.Options | pages/CreatePage.tsx:59-66 | the options carry the picture, prompt, age and page count unchanged, and the resolved style |
| CreatePage.CreateForm.HandleImageChange | pages/CreatePage.tsx:33-39 | a non-empty file list selects its first file and sets the preview; a missing or empty list changes nothing |
| CreatePage.CreateForm.SetStoryPrompt | pages/CreatePage.tsx:117-123 | only the prompt changes |
| CreatePage.CreateForm.SetAgeGroup | pages/CreatePage.tsx:126 | only the age changes, and it stays within 3..8 |
| CreatePage.CreateForm.SetPageCount | pages/CreatePage.tsx:130 | only the page count changes, and it stays within 5..15 |
| CreatePage.CreateForm.ChooseStyle | pages/CreatePage.tsx:140-147 | only the style changes, to one of the offered choices |
| CreatePage.CreateForm.SetCustomStyle | pages/CreatePage.tsx:149-157 | only the custom style changes |
| CreatePage.CreateForm.HandleSubmit | pages/CreatePage.tsx:43-79 | an invalid form changes nothing and calls nothing. A valid one calls the generator once, with the options and the loader on. The book goes in front of the shelf only on success. Then the loader is off, the index has advanced by `ticks` firings, and the button is enabled again |

## Left out

- Provider calls: the text-generation request is left out, including its prompt text, the
  character picture upload, `fileToGenerativePart` and `JSON.parse` of the answer. Their
  combined outcome is the parameter `storyReply`. The `console.warn` printed when the key is
  missing is not modelled.
- Malformed answers: the response schema marks no field as required. An answer without
  `pages`, or with a null entry, throws a JavaScript TypeError; the model represents that
  only as an `Err` in `storyReply`. An answer without `title`, or an entry without `text` or
  `pageNumber`, throws nothing: the `undefined` value is copied into the book, and a missing `imagePrompt` is sent
  as an undefined prompt. `StoryData`'s string and integer fields cannot hold `undefined`, so
  such answers are not modelled.
- The image generator is the pure function `respond`, so two identical requests get the same
  reply. A real provider may answer the same prompt differently.
- GeminiService.AssembleLoop: a response without an image makes the code throw when it reads
  `generatedImages[0]`. The model folds that case into `ImageFailure` with its own message,
  not the runtime's exception text.
- Image requests: the prompt text (`PromptOf`) and the aspect ratio (`AspectRatioOf`) of each
  request are modelled. The model name, `numberOfImages` and MIME type sent with each image
  call are not.
- GeminiService.GenerateMock: does not state that the placeholder URLs are distinct. They come
  from `Math.random()`, which the model takes as the parameter `draws`. The 8-second delay and
  the `new Date().toISOString()` id are not modelled either; the id is a parameter. For a
  `pageCount` of 2^32 or more, `Array.from` throws a RangeError inside the `setTimeout`
  callback, so the promise never settles. The model has no such case and gives `pageCount`
  pages instead. The form only sends counts from 5 to 15.
- Page numbers are integers. Fractional or non-numeric JavaScript numbers from the provider
  are not modelled.
- Asynchrony: the user may edit the form while `handleSubmit` awaits the generator, and the
  component may be unmounted. Neither interleaving is modelled. The submission works on the
  values it read at its start, as the code's closure does.
- CreatePage.CreateForm.HandleSubmit: the interval firings are a count `ticks`. `setInterval`,
  `clearInterval`, `alert`, `navigate` and `console.error` are not modelled, apart from the
  status they lead to. Like the code, the handler does not test `isLoading`; only the
  disabled button guards against a second submission while loading.
- CreatePage.NextMessageIndex: JavaScript `%` is modelled on non-negative operands only,
  because the index never becomes negative.
- CreatePage.CreateForm.HandleImageChange: `URL.createObjectURL` is the parameter `objectUrl`.
  Revoking old preview URLs is not modelled; the code does not do it either.
- BookViewer: the React keys of the leaves are not modelled, nor is their rendered markup. The
  flip-book widget's navigation (`flipNext`, `flipPrev`, `onFlip`) belongs to a third-party
  library and is left out.
- The Supabase client and user service, the login and profile modals, the header, footer,
  home and bookshelf pages, and the build configuration are not part of this model. They hold
  no logic beyond UI and backend calls.
