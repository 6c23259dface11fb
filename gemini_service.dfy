/** services/geminiService.ts: the storybook generation contract. `GenerateStorybook`
    picks a strategy from the environment; the mock builds placeholder pages from the
    prompt; the real strategy turns the provider's parsed `{title, pages}` answer into a
    storybook, asking an image generator for one picture per page and one cover. */
module GeminiService {
  import opened Wrappers
  import opened Types
  import opened JsArray
  import opened JsText

  // ---------------------------------------------------------------------------
  // Strategy selection

  /** The build-time environment: `process.env.NODE_ENV` and `process.env.API_KEY`
      (None when the variable is undefined). */
  datatype Env = Env(nodeEnv: string, apiKey: Option<string>)

  /** `process.env.API_KEY` is truthy: defined and not the empty string. */
  predicate HasApiKey(env: Env) {
    env.apiKey.Some? && env.apiKey.value != ""
  }

  datatype Strategy = Mock | Gemini

  /** The exported `generateStorybook`: the mock in development mode or without a key,
      the real generator otherwise. */
  function SelectStrategy(env: Env): (s: Strategy)
    ensures s == Mock <==> env.nodeEnv == "development" || env.apiKey == None || env.apiKey == Some("")
  {
    if env.nodeEnv == "development" || !HasApiKey(env) then Mock else Gemini
  }

  // ---------------------------------------------------------------------------
  // Mock strategy

  const DefaultTitle: string := "A New Adventure"

  /** `storyPrompt.split(' ').slice(0, 5).join(' ')`: nothing is trimmed. */
  function TitleWords(prompt: string): string {
    Join(Take(Split(prompt, ' '), 5), ' ')
  }

  /** The words part is empty exactly when the prompt is, so the `||` fallback fires only
      for the empty prompt; a prompt of spaces keeps its spaces. */
  lemma TitleWordsEmptyIff(prompt: string)
    ensures TitleWords(prompt) == "" <==> prompt == ""
  {
    JoinTakeSplit(prompt, ' ', 5);
  }

  /** The mock title: the prefix of the prompt before its fifth space (all of it when it has
      fewer than five), or "A New Adventure" for the empty prompt. */
  function MockTitle(prompt: string): (title: string)
    ensures prompt == "" ==> title == DefaultTitle
    ensures prompt != "" ==> title <= prompt
    ensures prompt != "" && CountChar(prompt, ' ') < 5 ==> title == prompt
    ensures CountChar(prompt, ' ') >= 5 ==>
      |title| < |prompt| && prompt[|title|] == ' ' && CountChar(title, ' ') == 4
  {
    TitleWordsEmptyIff(prompt);
    JoinTakeSplit(prompt, ' ', 5);
    var words := TitleWords(prompt);
    if words == "" then DefaultTitle else words
  }

  /** The mock text of page `n`. */
  function MockPageText(n: nat, prompt: string): string {
    "This is page " + NatToString(n) + " of the story about " + prompt + "."
  }

  /** A placeholder picture URL for a random seed and a "width/height" size. */
  function PicsumUrl(seed: string, size: string): string {
    "https://picsum.photos/seed/" + seed + "/" + size
  }

  /** The length `Array.from({length: n})` produces for an integer `n` below 2^32: negative
      lengths become 0. (From 2^32 on, JavaScript throws a RangeError instead; see the
      README.) */
  function ArrayLength(n: int): nat {
    if n < 0 then 0 else n
  }

  /** `generateStorybookMock` after its delay. `id` is the timestamp and `draws(k)` the
      rendering of the k-th `Math.random()` call: the cover takes draw 0 and page i draw i + 1. */
  function GenerateMock(options: CreationOptions, id: string, draws: nat -> string): (book: Storybook)
    ensures book.id == id && book.title == MockTitle(options.storyPrompt)
    ensures options.pageCount >= 0 ==> |book.pages| == options.pageCount
    ensures options.pageCount < 0 ==> book.pages == []
    ensures NumberedFromOne(book.pages)
    ensures forall i :: 0 <= i < |book.pages| ==>
      book.pages[i].text == MockPageText(i + 1, options.storyPrompt) &&
      book.pages[i].imageUrl == PicsumUrl(draws(i + 1), "800/600")
    ensures book.coverImageUrl == PicsumUrl(draws(0), "600/800")
  {
    Storybook(
      id,
      MockTitle(options.storyPrompt),
      PicsumUrl(draws(0), "600/800"),
      seq(ArrayLength(options.pageCount), i requires 0 <= i =>
        Page(i + 1, MockPageText(i + 1, options.storyPrompt), PicsumUrl(draws(i + 1), "800/600"))))
  }

  /** Page i of a mock book says "This is page i+1 of the story about <prompt>.", and the
      number in it reads back as i + 1. */
  lemma MockPageTextNumber(options: CreationOptions, id: string, draws: nat -> string, i: nat)
    requires i < |GenerateMock(options, id, draws).pages|
    ensures var text := GenerateMock(options, id, draws).pages[i].text;
      var digits := NatToString(i + 1);
      text == "This is page " + digits + " of the story about " + options.storyPrompt + "." &&
      DecimalValue(digits) == i + 1
  {
    DecimalRoundTrip(i + 1);
  }

  // ---------------------------------------------------------------------------
  // Real strategy: the image generator as an oracle

  /** The generator's answer: the base64 bytes of the first image, or a failure (a rejected
      call, or a response without an image). */
  datatype ImageReply = Image(bytes: string) | ImageFailure(message: string)

  // ---------------------------------------------------------------------------
  // Real strategy: assembling the parsed answer

  /** One entry of the parsed `pages` array. */
  datatype PageData = PageData(pageNumber: int, text: string, imagePrompt: string)

  /** The parsed text-generation answer `{title, pages}`. */
  datatype StoryData = StoryData(title: string, pages: seq<PageData>)

  const DefaultCover: string := "https://picsum.photos/seed/default/600/800"
  const DataUrlPrefix: string := "data:image/jpeg;base64,"

  function DataUrl(bytes: string): string {
    DataUrlPrefix + bytes
  }

  /** One `generateImages` request: the landscape picture of a page, or the portrait cover
      composed from the title, the style and the first page. */
  datatype ImageRequest =
    | PagePicture(pageData: PageData)
    | CoverPicture(title: string, style: string, first: PageData)

  const Landscape: string := "4:3"
  const Portrait: string := "3:4"

  /** The parts of the cover prompt around the title, the style and the subject. */
  const CoverLead: string := "A beautiful book cover for a story titled \""
  const CoverStyle: string := "\". Style: "
  const CoverSubject: string := ". Main subject: "

  /** The prompt text sent with a request. */
  function PromptOf(request: ImageRequest): string {
    match request
    case PagePicture(pageData) => pageData.imagePrompt
    case CoverPicture(title, style, first) =>
      CoverLead + title + CoverStyle + style + CoverSubject + first.imagePrompt
  }

  /** The aspect ratio sent with a request. */
  function AspectRatioOf(request: ImageRequest): string {
    if request.PagePicture? then Landscape else Portrait
  }

  /** Where page i's request stands in the order of calls: page 0 first, then the cover,
      then pages 1, 2, ... It is also the number of calls made before page i. */
  function PageSlot(i: nat): nat {
    if i == 0 then 0 else i + 1
  }

  /** The j-th image request of the loop when none fails: page 0's picture, the cover, then
      the pictures of pages 1, 2, ... */
  function PlannedCall(data: StoryData, style: string, j: nat): ImageRequest
    requires 0 < |data.pages| && j <= |data.pages|
  {
    if j == 0 then PagePicture(data.pages[0])
    else if j == 1 then CoverPicture(data.title, style, data.pages[0])
    else PagePicture(data.pages[j - 1])
  }

  /** The image requests the assembly loop issues, in order, when none fails. */
  function CallPlan(data: StoryData, style: string): (plan: seq<ImageRequest>)
    ensures |plan| == if |data.pages| == 0 then 0 else |data.pages| + 1
    ensures |data.pages| > 0 ==> plan[1] == CoverPicture(data.title, style, data.pages[0])
    ensures forall i :: 0 <= i < |data.pages| ==> plan[PageSlot(i)] == PagePicture(data.pages[i])
  {
    if |data.pages| == 0 then []
    else seq(|data.pages| + 1, j requires 0 <= j <= |data.pages| => PlannedCall(data, style, j))
  }

  /** The position of the first request in `plan` whose call fails, if any. */
  function FirstFailure(plan: seq<ImageRequest>, respond: ImageRequest -> ImageReply): (r: Option<nat>)
    ensures r.Some? ==> r.value < |plan| && respond(plan[r.value]).ImageFailure?
    ensures r.Some? ==> forall j :: 0 <= j < r.value ==> respond(plan[j]).Image?
    ensures r.None? <==> forall j :: 0 <= j < |plan| ==> respond(plan[j]).Image?
  {
    if |plan| == 0 then None
    else if respond(plan[0]).ImageFailure? then Some(0)
    else match FirstFailure(plan[1..], respond)
      case None => None
      case Some(j) => Some(j + 1)
  }

  /** The bytes of a successful reply (a failure has none). */
  function BytesOf(reply: ImageReply): string {
    if reply.Image? then reply.bytes else ""
  }

  function MessageOf(reply: ImageReply): string {
    if reply.ImageFailure? then reply.message else ""
  }

  /** How many calls the loop makes: up to and including the first failing one, or all. */
  function CallsMade(plan: seq<ImageRequest>, respond: ImageRequest -> ImageReply): (n: nat)
    ensures n <= |plan|
  {
    match FirstFailure(plan, respond)
    case Some(j) => j + 1
    case None => |plan|
  }

  /** The output page for one parsed entry: its number and text, and its own picture. */
  function AssembledPage(pageData: PageData, respond: ImageRequest -> ImageReply): Page {
    Page(pageData.pageNumber, pageData.text, DataUrl(BytesOf(respond(PagePicture(pageData)))))
  }

  /** The output pages when every call succeeds, in the parsed order. */
  function AssembledPages(data: StoryData, respond: ImageRequest -> ImageReply): (pages: seq<Page>)
    ensures |pages| == |data.pages|
    ensures forall i :: 0 <= i < |data.pages| ==> pages[i] == AssembledPage(data.pages[i], respond)
  {
    seq(|data.pages|, i requires 0 <= i < |data.pages| => AssembledPage(data.pages[i], respond))
  }

  /** The cover when every call succeeds: the default without pages, else the cover picture. */
  function AssembledCover(data: StoryData, style: string, respond: ImageRequest -> ImageReply): string {
    if |data.pages| == 0 then DefaultCover
    else DataUrl(BytesOf(respond(CoverPicture(data.title, style, data.pages[0]))))
  }

  /** What the assembly produces: the message of the first failing call, or the storybook. */
  function RealAssembly(data: StoryData, style: string, id: string, respond: ImageRequest -> ImageReply): Result<Storybook> {
    match FirstFailure(CallPlan(data, style), respond)
    case Some(j) => Err(MessageOf(respond(CallPlan(data, style)[j])))
    case None => Ok(Storybook(id, data.title, AssembledCover(data, style, respond), AssembledPages(data, respond)))
  }

  /** The first `k` planned calls all succeed. */
  predicate SucceedsUpTo(plan: seq<ImageRequest>, respond: ImageRequest -> ImageReply, k: nat) {
    forall j :: 0 <= j < k && j < |plan| ==> respond(plan[j]).Image?
  }

  /** Extending a prefix by one element. */
  lemma PrefixExtend<T>(s: seq<T>, k: nat)
    requires k < |s|
    ensures s[..k + 1] == s[..k] + [s[k]]
  {
  }

  /** The least failing call determines the outcome and how many calls were made. */
  lemma FailsAt(plan: seq<ImageRequest>, respond: ImageRequest -> ImageReply, j: nat)
    requires j < |plan| && respond(plan[j]).ImageFailure?
    requires SucceedsUpTo(plan, respond, j)
    ensures FirstFailure(plan, respond) == Some(j)
    ensures CallsMade(plan, respond) == j + 1
  {
  }

  /** Page i's picture fails after every earlier call succeeded: the loop stops there. */
  lemma PageFails(data: StoryData, style: string, respond: ImageRequest -> ImageReply, i: nat)
    requires i < |data.pages|
    requires SucceedsUpTo(CallPlan(data, style), respond, PageSlot(i))
    requires respond(PagePicture(data.pages[i])).ImageFailure?
    ensures FirstFailure(CallPlan(data, style), respond) == Some(PageSlot(i))
    ensures CallsMade(CallPlan(data, style), respond) == PageSlot(i) + 1
    ensures CallPlan(data, style)[..PageSlot(i) + 1] ==
      CallPlan(data, style)[..PageSlot(i)] + [PagePicture(data.pages[i])]
  {
    var plan := CallPlan(data, style);
    FailsAt(plan, respond, PageSlot(i));
    PrefixExtend(plan, PageSlot(i));
  }

  /** The cover fails after the first page's picture succeeded: the loop stops there. */
  lemma CoverFails(data: StoryData, style: string, respond: ImageRequest -> ImageReply)
    requires |data.pages| > 0
    requires respond(PagePicture(data.pages[0])).Image?
    requires respond(CoverPicture(data.title, style, data.pages[0])).ImageFailure?
    ensures FirstFailure(CallPlan(data, style), respond) == Some(1)
    ensures CallsMade(CallPlan(data, style), respond) == 2
    ensures CallPlan(data, style)[..2] ==
      [PagePicture(data.pages[0]), CoverPicture(data.title, style, data.pages[0])]
  {
    var plan := CallPlan(data, style);
    assert plan[PageSlot(0)] == PagePicture(data.pages[0]);
    FailsAt(plan, respond, 1);
  }

  /** One successful step of the loop extends the calls made by page i's request and, for the
      first page, the cover request. */
  lemma StepSucceeds(data: StoryData, style: string, respond: ImageRequest -> ImageReply, i: nat)
    requires i < |data.pages|
    requires SucceedsUpTo(CallPlan(data, style), respond, PageSlot(i))
    requires respond(PagePicture(data.pages[i])).Image?
    requires i == 0 ==> respond(CoverPicture(data.title, style, data.pages[0])).Image?
    ensures SucceedsUpTo(CallPlan(data, style), respond, PageSlot(i + 1))
    ensures CallPlan(data, style)[..PageSlot(i + 1)] ==
      CallPlan(data, style)[..PageSlot(i)] + [PagePicture(data.pages[i])]
      + (if i == 0 then [CoverPicture(data.title, style, data.pages[0])] else [])
  {
    var plan := CallPlan(data, style);
    if i == 0 {
      PrefixExtend(plan, 0);
      PrefixExtend(plan, 1);
    } else {
      PrefixExtend(plan, i + 1);
    }
  }

  /** When the loop ends without failure, every planned call was made and succeeded. */
  lemma AllStepsDone(data: StoryData, style: string, respond: ImageRequest -> ImageReply)
    requires SucceedsUpTo(CallPlan(data, style), respond, PageSlot(|data.pages|))
    ensures FirstFailure(CallPlan(data, style), respond) == None
    ensures CallPlan(data, style)[..PageSlot(|data.pages|)] == CallPlan(data, style)
    ensures CallsMade(CallPlan(data, style), respond) == |CallPlan(data, style)|
  {
    var plan := CallPlan(data, style);
    assert plan[..|plan|] == plan;
  }

  /** What the loop leaves behind when no call fails: the pages and the cover URL. */
  datatype Assembled = Assembled(pages: seq<Page>, coverImageUrl: string)

  /** The `for` loop of `generateStorybookWithGemini` (its `pages` array and `coverImageUrl`
      variable). `generateImages` is the oracle `respond`; the ghost `calls` lists the requests
      made, in order, so `|calls|` counts them. A failing call ends the loop with its error. */
  method AssembleLoop(data: StoryData, style: string, respond: ImageRequest -> ImageReply)
    returns (r: Result<Assembled>, ghost calls: seq<ImageRequest>)
    ensures var plan := CallPlan(data, style);
      match FirstFailure(plan, respond)
      case Some(j) => r == Err(MessageOf(respond(plan[j])))
      case None => r == Ok(Assembled(AssembledPages(data, respond), AssembledCover(data, style, respond)))
    ensures calls == CallPlan(data, style)[..CallsMade(CallPlan(data, style), respond)]
  {
    ghost var plan := CallPlan(data, style);
    calls := [];
    var pages: seq<Page> := [];
    var coverImageUrl := DefaultCover;
    var i := 0;
    while i < |data.pages|
      invariant 0 <= i <= |data.pages|
      invariant calls == plan[..PageSlot(i)]
      invariant SucceedsUpTo(plan, respond, PageSlot(i))
      invariant |pages| == i
      invariant forall k :: 0 <= k < i ==> pages[k] == AssembledPage(data.pages[k], respond)
      invariant i > 0 ==> coverImageUrl == AssembledCover(data, style, respond)
      invariant i == 0 ==> coverImageUrl == DefaultCover
    {
      var pageData := data.pages[i];
      var imageReply := respond(PagePicture(pageData));
      calls := calls + [PagePicture(pageData)];
      if imageReply.ImageFailure? {
        PageFails(data, style, respond, i);
        return Err(imageReply.message), calls;
      }
      var imageUrl := DataUrl(imageReply.bytes);
      if i == 0 {
        var coverReply := respond(CoverPicture(data.title, style, pageData));
        calls := calls + [CoverPicture(data.title, style, pageData)];
        if coverReply.ImageFailure? {
          CoverFails(data, style, respond);
          return Err(coverReply.message), calls;
        }
        coverImageUrl := DataUrl(coverReply.bytes);
      }
      StepSucceeds(data, style, respond, i);
      pages := pages + [Page(pageData.pageNumber, pageData.text, imageUrl)];
      i := i + 1;
    }
    AllStepsDone(data, style, respond);
    assert pages == AssembledPages(data, respond);
    r := Ok(Assembled(pages, coverImageUrl));
  }

  /** The assembly part of `generateStorybookWithGemini`: the loop, then the returned record. */
  method AssembleStorybook(data: StoryData, style: string, id: string, respond: ImageRequest -> ImageReply)
    returns (r: Result<Storybook>, ghost calls: seq<ImageRequest>)
    ensures r == RealAssembly(data, style, id, respond)
    ensures calls == CallPlan(data, style)[..CallsMade(CallPlan(data, style), respond)]
  {
    var assembled;
    assembled, calls := AssembleLoop(data, style, respond);
    if assembled.Err? {
      return Err(assembled.error), calls;
    }
    r := Ok(Storybook(id, data.title, assembled.value.coverImageUrl, assembled.value.pages));
  }

  /** A successful assembly keeps the parsed pages: same count, same order, each entry's number
      and text unchanged, and each picture the bytes returned for that entry's own prompt. */
  lemma AssemblyKeepsPages(data: StoryData, style: string, id: string, respond: ImageRequest -> ImageReply)
    requires RealAssembly(data, style, id, respond).Ok?
    ensures var book := RealAssembly(data, style, id, respond).value;
      book.id == id && book.title == data.title && |book.pages| == |data.pages| &&
      forall i :: 0 <= i < |data.pages| ==>
        book.pages[i].pageNumber == data.pages[i].pageNumber &&
        book.pages[i].text == data.pages[i].text &&
        respond(PagePicture(data.pages[i])).Image? &&
        book.pages[i].imageUrl == DataUrlPrefix + respond(PagePicture(data.pages[i])).bytes
  {
    var plan := CallPlan(data, style);
    forall i | 0 <= i < |data.pages|
      ensures respond(PagePicture(data.pages[i])).Image?
    {
      assert plan[PageSlot(i)] == PagePicture(data.pages[i]);
    }
  }

  /** Nothing is re-sorted: the book is numbered 1..n exactly when the parsed answer was. */
  lemma AssemblyNumbering(data: StoryData, style: string, id: string, respond: ImageRequest -> ImageReply)
    requires RealAssembly(data, style, id, respond).Ok?
    ensures NumberedFromOne(RealAssembly(data, style, id, respond).value.pages) <==>
      forall i :: 0 <= i < |data.pages| ==> data.pages[i].pageNumber == i + 1
  {
    AssemblyKeepsPages(data, style, id, respond);
  }

  /** The assembly succeeds exactly when every page picture and, if there are pages, the cover
      are generated. */
  lemma AssemblySucceedsIff(data: StoryData, style: string, id: string, respond: ImageRequest -> ImageReply)
    ensures RealAssembly(data, style, id, respond).Ok? <==>
      (forall i :: 0 <= i < |data.pages| ==> respond(PagePicture(data.pages[i])).Image?) &&
      (|data.pages| > 0 ==> respond(CoverPicture(data.title, style, data.pages[0])).Image?)
  {
    var plan := CallPlan(data, style);
    if (forall i :: 0 <= i < |data.pages| ==> respond(PagePicture(data.pages[i])).Image?) &&
       (|data.pages| > 0 ==> respond(CoverPicture(data.title, style, data.pages[0])).Image?) {
      forall j | 0 <= j < |plan| ensures respond(plan[j]).Image? {
        if j >= 2 {
          assert plan[PageSlot(j - 1)] == PagePicture(data.pages[j - 1]);
        } else if j == 0 {
          assert plan[PageSlot(0)] == PagePicture(data.pages[0]);
        }
      }
    }
    if RealAssembly(data, style, id, respond).Ok? {
      forall i | 0 <= i < |data.pages| ensures respond(PagePicture(data.pages[i])).Image? {
        assert plan[PageSlot(i)] == PagePicture(data.pages[i]);
      }
    }
  }

  /** The cover is asked for once, right after the first page's picture and in portrait; every
      other call is one page's landscape picture. With n > 0 pages a successful run makes
      n + 1 calls. */
  lemma CoverRequestedOnce(data: StoryData, style: string)
    requires |data.pages| > 0
    ensures |CallPlan(data, style)| == |data.pages| + 1
    ensures CallPlan(data, style)[0] == PagePicture(data.pages[0])
    ensures CallPlan(data, style)[1] == CoverPicture(data.title, style, data.pages[0])
    ensures AspectRatioOf(CallPlan(data, style)[1]) == Portrait
    ensures PromptOf(CallPlan(data, style)[1]) ==
      CoverLead + data.title + CoverStyle + style + CoverSubject + data.pages[0].imagePrompt
    ensures forall i :: 0 <= i < |data.pages| ==>
      PromptOf(CallPlan(data, style)[PageSlot(i)]) == data.pages[i].imagePrompt
    ensures forall j :: 0 <= j < |CallPlan(data, style)| && j != 1 ==>
      AspectRatioOf(CallPlan(data, style)[j]) == Landscape
  {
    var plan := CallPlan(data, style);
    forall j | 0 <= j < |plan| && j != 1 ensures AspectRatioOf(plan[j]) == Landscape {
      if j == 0 {
        assert plan[PageSlot(0)] == PagePicture(data.pages[0]);
      } else {
        assert plan[PageSlot(j - 1)] == PagePicture(data.pages[j - 1]);
      }
    }
  }

  /** With no parsed pages no picture is requested and the default cover stays. */
  lemma NoPagesNoCalls(data: StoryData, style: string, id: string, respond: ImageRequest -> ImageReply)
    requires data.pages == []
    ensures CallPlan(data, style) == []
    ensures RealAssembly(data, style, id, respond) == Ok(Storybook(id, data.title, DefaultCover, []))
  {
  }

  /** A successful assembly makes every planned call; a failed one stops at the failing call. */
  lemma CallsMadeOnOutcome(data: StoryData, style: string, id: string, respond: ImageRequest -> ImageReply)
    ensures var plan := CallPlan(data, style);
      var n := CallsMade(plan, respond);
      (RealAssembly(data, style, id, respond).Ok? ==> n == |plan|) &&
      (RealAssembly(data, style, id, respond).Err? ==>
        0 < n <= |plan| && respond(plan[n - 1]).ImageFailure? &&
        RealAssembly(data, style, id, respond).error == respond(plan[n - 1]).message)
  {
  }

  // ---------------------------------------------------------------------------
  // The two entry points

  /** `generateStorybookWithGemini`. `storyReply` stands for the text-generation call together
      with `JSON.parse` of its answer; `respond` is the image generator; the ghost `calls` lists
      the image requests made. Without a key it falls back to the mock. */
  method GenerateWithGemini(env: Env, options: CreationOptions, storyReply: Result<StoryData>,
                            id: string, draws: nat -> string, respond: ImageRequest -> ImageReply)
    returns (r: Result<Storybook>, ghost calls: seq<ImageRequest>)
    ensures !HasApiKey(env) ==> r == Ok(GenerateMock(options, id, draws))
    ensures HasApiKey(env) && storyReply.Err? ==> r == Err(storyReply.error)
    ensures HasApiKey(env) && storyReply.Ok? ==> r == RealAssembly(storyReply.value, options.style, id, respond)
    ensures !(HasApiKey(env) && storyReply.Ok?) ==> calls == []
    ensures HasApiKey(env) && storyReply.Ok? ==>
      var plan := CallPlan(storyReply.value, options.style);
      calls == plan[..CallsMade(plan, respond)]
  {
    calls := [];
    if !HasApiKey(env) {
      return Ok(GenerateMock(options, id, draws)), calls;
    }
    if storyReply.Err? {
      return Err(storyReply.error), calls;
    }
    r, calls := AssembleStorybook(storyReply.value, options.style, id, respond);
  }

  /** The exported `generateStorybook`: the strategy chosen from the environment. */
  method GenerateStorybook(env: Env, options: CreationOptions, storyReply: Result<StoryData>,
                           id: string, draws: nat -> string, respond: ImageRequest -> ImageReply)
    returns (r: Result<Storybook>, ghost calls: seq<ImageRequest>)
    ensures SelectStrategy(env) == Mock ==> r == Ok(GenerateMock(options, id, draws))
    ensures SelectStrategy(env) == Gemini && storyReply.Err? ==> r == Err(storyReply.error)
    ensures SelectStrategy(env) == Gemini && storyReply.Ok? ==>
      r == RealAssembly(storyReply.value, options.style, id, respond)
    ensures !(SelectStrategy(env) == Gemini && storyReply.Ok?) ==> calls == []
    ensures SelectStrategy(env) == Gemini && storyReply.Ok? ==>
      var plan := CallPlan(storyReply.value, options.style);
      calls == plan[..CallsMade(plan, respond)]
  {
    if SelectStrategy(env) == Mock {
      r, calls := Ok(GenerateMock(options, id, draws)), [];
    } else {
      r, calls := GenerateWithGemini(env, options, storyReply, id, draws, respond);
    }
  }
}
