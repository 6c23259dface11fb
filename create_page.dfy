/** pages/CreatePage.tsx: the creation form. Its state is a set of fields the handlers
    update; submitting a valid form asks the generator for a book and puts it on the shelf. */
module CreatePage {
  import opened Wrappers
  import opened Types
  import opened Constants
  import opened App

  // ---------------------------------------------------------------------------
  // The form rules, on values

  /** `isFormValid`: a character picture is chosen, the prompt is not empty, and a custom
      style, when chosen, is not empty. */
  predicate FormValid(characterImage: Option<ImageFile>, storyPrompt: string, style: string, customStyle: string): (valid: bool)
    ensures valid ==> characterImage.Some? && storyPrompt != ""
    ensures valid && style == CustomStyle ==> FinalStyle(style, customStyle) != ""
    ensures !valid ==> characterImage.None? || storyPrompt == "" || (style == CustomStyle && customStyle == "")
  {
    characterImage.Some? && storyPrompt != "" && (style != CustomStyle || customStyle != "")
  }

  /** `finalStyle`: the typed style when "Custom" is chosen, the chosen style otherwise. An
      offered choice other than "Custom" is sent as that art style, and the "Custom" sentinel
      itself is sent only when the user typed it. */
  function FinalStyle(style: string, customStyle: string): (r: string)
    ensures r == style || r == customStyle
    ensures OfferedStyle(style) && style != CustomStyle ==> r in ArtStyles
    ensures r == CustomStyle ==> style == CustomStyle && customStyle == CustomStyle
  {
    if style == CustomStyle then customStyle else style
  }

  /** The choices the style buttons offer: the six art styles and "Custom". */
  predicate OfferedStyle(style: string) {
    style in ArtStyles || style == CustomStyle
  }

  /** A valid form with an offered style never sends an empty prompt or an empty style, and
      the style sent is the chosen art style or the typed one. */
  lemma ValidFormSendsStyle(characterImage: Option<ImageFile>, storyPrompt: string, style: string, customStyle: string)
    requires OfferedStyle(style)
    requires FormValid(characterImage, storyPrompt, style, customStyle)
    ensures storyPrompt != ""
    ensures FinalStyle(style, customStyle) != ""
    ensures style in ArtStyles ==> FinalStyle(style, customStyle) == style
    ensures style !in ArtStyles ==> FinalStyle(style, customStyle) == customStyle
  {
    ArtStylesFacts();
  }

  /** The four messages of the loader, in the order they are cycled through. */
  const LoadingMessages: seq<string> := [
    "Warming up the magic ink...",
    "Dreaming up a wonderful story...",
    "Painting vibrant illustrations...",
    "Binding the pages together..."
  ]

  /** The interval callback's `(prev + 1) % loadingMessages.length` on a non-negative index. */
  function NextMessageIndex(prev: nat): (next: nat)
    ensures next < |LoadingMessages|
    ensures prev + 1 < |LoadingMessages| ==> next == prev + 1
    ensures prev + 1 == |LoadingMessages| ==> next == 0
  {
    (prev + 1) % |LoadingMessages|
  }

  /** The index after `ticks` firings of the interval. */
  function AdvanceBy(index: nat, ticks: nat): (r: nat)
    ensures ticks > 0 ==> r < |LoadingMessages|
    decreases ticks
  {
    if ticks == 0 then index else AdvanceBy(NextMessageIndex(index), ticks - 1)
  }

  /** From a shown index, `ticks` firings move the loader `ticks` messages on, cyclically; so
      every four firings bring back the same message. */
  lemma {:induction false} AdvanceByCycles(index: nat, ticks: nat)
    requires index < |LoadingMessages|
    ensures AdvanceBy(index, ticks) == (index + ticks) % |LoadingMessages|
    ensures AdvanceBy(index, ticks + |LoadingMessages|) == AdvanceBy(index, ticks)
    decreases ticks
  {
    if ticks > 0 {
      AdvanceByCycles(NextMessageIndex(index), ticks - 1);
    }
    AdvanceByTail(index, ticks);
  }

  /** Helper for the cycle: the total after `ticks + 4` firings. */
  lemma {:induction false} AdvanceByTail(index: nat, ticks: nat)
    requires index < |LoadingMessages|
    ensures AdvanceBy(index, ticks + |LoadingMessages|) == (index + ticks) % |LoadingMessages|
    decreases ticks
  {
    var n := |LoadingMessages|;
    if ticks == 0 {
      assert AdvanceBy(index, 4) == AdvanceBy(NextMessageIndex(index), 3);
      assert NextMessageIndex(index) == (index + 1) % n;
      AdvanceByFour(index);
    } else {
      AdvanceByTail(NextMessageIndex(index), ticks - 1);
    }
  }

  /** Helper: four firings return to the starting message. */
  lemma AdvanceByFour(index: nat)
    requires index < |LoadingMessages|
    ensures AdvanceBy(index, 4) == index
  {
    var i1 := NextMessageIndex(index);
    var i2 := NextMessageIndex(i1);
    var i3 := NextMessageIndex(i2);
    assert AdvanceBy(index, 4) == AdvanceBy(i3, 1);
  }

  /** What the page does with one submit event. */
  datatype SubmitStatus =
    | Ignored    // the form was not valid: nothing happens
    | Created    // the book was added and the app sent to the bookshelf
    | Failed     // the generator threw: the alert is shown

  /** One call of the generator: the options sent and whether the loader was on at the time. */
  datatype GeneratorCall = GeneratorCall(options: CreationOptions, loading: bool)

  // ---------------------------------------------------------------------------
  // The component state

  class CreateForm {
    var characterImage: Option<ImageFile>
    var previewUrl: Option<string>
    var storyPrompt: string
    var ageGroup: int
    var pageCount: int
    var style: string
    var customStyle: string
    var isLoading: bool
    var loadingMessageIndex: nat
    /** The generator calls made so far, in order. */
    ghost var generatorCalls: seq<GeneratorCall>

    /** What the inputs guarantee: the sliders stay in their ranges, the style is one the
        buttons offer, and the loader index points at a message. */
    ghost predicate Valid()
      reads this
    {
      3 <= ageGroup <= 8 && 5 <= pageCount <= 15 && OfferedStyle(style) &&
      loadingMessageIndex < |LoadingMessages|
    }

    /** The initial `useState` values. */
    constructor()
      ensures Valid()
      ensures characterImage == None && previewUrl == None && storyPrompt == ""
      ensures ageGroup == 5 && pageCount == 10 && style == ArtStyles[0] && customStyle == ""
      ensures !isLoading && loadingMessageIndex == 0 && generatorCalls == []
    {
      characterImage := None;
      previewUrl := None;
      storyPrompt := "";
      ageGroup := 5;
      pageCount := 10;
      style := ArtStyles[0];
      customStyle := "";
      isLoading := false;
      loadingMessageIndex := 0;
      generatorCalls := [];
    }

    predicate IsFormValid()
      reads this
    {
      FormValid(characterImage, storyPrompt, style, customStyle)
    }

    /** `disabled={!isFormValid || isLoading}` on the submit button: it is disabled while a
        book is being generated, and an enabled button always has a complete form behind it,
        whose options carry a non-empty prompt and a non-empty style. */
    function SubmitDisabled(): (disabled: bool)
      reads this
      ensures isLoading ==> disabled
      ensures !IsFormValid() ==> disabled
      ensures !disabled ==> IsFormValid() && !isLoading
      ensures Valid() && !disabled ==> Options().storyPrompt != "" && Options().style != ""
    {
      !IsFormValid() || isLoading
    }

    /** The message the loader shows, `messages[activeIndex]`. */
    function LoaderMessage(): (message: string)
      reads this
      requires Valid()
      ensures message in LoadingMessages
    {
      LoadingMessages[loadingMessageIndex]
    }

    /** The `options` record `handleSubmit` builds. */
    function Options(): (options: CreationOptions)
      reads this
      requires IsFormValid()
      ensures options.characterImage == characterImage.value && options.storyPrompt == storyPrompt
      ensures options.ageGroup == ageGroup && options.pageCount == pageCount
      ensures options.style == FinalStyle(style, customStyle)
    {
      CreationOptions(characterImage.value, storyPrompt, ageGroup, pageCount, FinalStyle(style, customStyle))
    }

    /** `handleImageChange`: `files` is the input's file list (None when absent) and `objectUrl`
        the URL `URL.createObjectURL` returns for its first file. An empty or missing list
        leaves the form as it was. */
    method HandleImageChange(files: Option<seq<ImageFile>>, objectUrl: string)
      requires Valid()
      modifies this
      ensures Valid()
      ensures files.Some? && |files.value| > 0 ==>
        characterImage == Some(files.value[0]) && previewUrl == Some(objectUrl)
      ensures !(files.Some? && |files.value| > 0) ==>
        characterImage == old(characterImage) && previewUrl == old(previewUrl)
      ensures storyPrompt == old(storyPrompt) && ageGroup == old(ageGroup) && pageCount == old(pageCount)
      ensures style == old(style) && customStyle == old(customStyle)
      ensures isLoading == old(isLoading) && loadingMessageIndex == old(loadingMessageIndex)
      ensures generatorCalls == old(generatorCalls)
    {
      if files.Some? && |files.value| > 0 {
        var file := files.value[0];
        characterImage := Some(file);
        previewUrl := Some(objectUrl);
      }
    }

    /** The prompt textarea's `onChange`. */
    method SetStoryPrompt(text: string)
      requires Valid()
      modifies this
      ensures Valid()
      ensures storyPrompt == text
      ensures characterImage == old(characterImage) && previewUrl == old(previewUrl)
      ensures ageGroup == old(ageGroup) && pageCount == old(pageCount)
      ensures style == old(style) && customStyle == old(customStyle)
      ensures isLoading == old(isLoading) && loadingMessageIndex == old(loadingMessageIndex)
      ensures generatorCalls == old(generatorCalls)
    {
      storyPrompt := text;
    }

    /** The age slider: its value is always between its `min` 3 and `max` 8. */
    method SetAgeGroup(value: int)
      requires Valid()
      requires 3 <= value <= 8
      modifies this
      ensures Valid()
      ensures ageGroup == value
      ensures characterImage == old(characterImage) && previewUrl == old(previewUrl)
      ensures storyPrompt == old(storyPrompt) && pageCount == old(pageCount)
      ensures style == old(style) && customStyle == old(customStyle)
      ensures isLoading == old(isLoading) && loadingMessageIndex == old(loadingMessageIndex)
      ensures generatorCalls == old(generatorCalls)
    {
      ageGroup := value;
    }

    /** The page slider: its value is always between its `min` 5 and `max` 15. */
    method SetPageCount(value: int)
      requires Valid()
      requires 5 <= value <= 15
      modifies this
      ensures Valid()
      ensures pageCount == value
      ensures characterImage == old(characterImage) && previewUrl == old(previewUrl)
      ensures storyPrompt == old(storyPrompt) && ageGroup == old(ageGroup)
      ensures style == old(style) && customStyle == old(customStyle)
      ensures isLoading == old(isLoading) && loadingMessageIndex == old(loadingMessageIndex)
      ensures generatorCalls == old(generatorCalls)
    {
      pageCount := value;
    }

    /** A style button: one of the six art styles, or "Custom". */
    method ChooseStyle(choice: string)
      requires Valid()
      requires OfferedStyle(choice)
      modifies this
      ensures Valid()
      ensures style == choice
      ensures characterImage == old(characterImage) && previewUrl == old(previewUrl)
      ensures storyPrompt == old(storyPrompt) && ageGroup == old(ageGroup) && pageCount == old(pageCount)
      ensures customStyle == old(customStyle)
      ensures isLoading == old(isLoading) && loadingMessageIndex == old(loadingMessageIndex)
      ensures generatorCalls == old(generatorCalls)
    {
      style := choice;
    }

    /** The custom style input's `onChange`. */
    method SetCustomStyle(text: string)
      requires Valid()
      modifies this
      ensures Valid()
      ensures customStyle == text
      ensures characterImage == old(characterImage) && previewUrl == old(previewUrl)
      ensures storyPrompt == old(storyPrompt) && ageGroup == old(ageGroup) && pageCount == old(pageCount)
      ensures style == old(style)
      ensures isLoading == old(isLoading) && loadingMessageIndex == old(loadingMessageIndex)
      ensures generatorCalls == old(generatorCalls)
    {
      customStyle := text;
    }

    /** `handleSubmit`. `generate` stands for the awaited `generateStorybook` (an `Err` is a
        thrown error), `ticks` for the number of interval firings before it settles, and
        `shelf` for the app state behind `addBookToShelf`. An invalid form changes nothing;
        otherwise the loader is switched on, the generator is called once with the options,
        the book goes in front of the shelf only on success, and the loader is switched off
        again whatever happened. */
    method HandleSubmit(shelf: Bookshelf, generate: CreationOptions -> Result<Storybook>, ticks: nat)
      returns (status: SubmitStatus)
      requires Valid()
      modifies this, shelf
      ensures Valid()
      ensures !old(IsFormValid()) ==>
        status == Ignored && shelf.books == old(shelf.books) &&
        isLoading == old(isLoading) && loadingMessageIndex == old(loadingMessageIndex) &&
        generatorCalls == old(generatorCalls)
      ensures old(IsFormValid()) ==>
        var outcome := generate(old(Options()));
        generatorCalls == old(generatorCalls) + [GeneratorCall(old(Options()), true)] &&
        (outcome.Ok? ==> status == Created && shelf.books == Prepend(outcome.value, old(shelf.books))) &&
        (outcome.Err? ==> status == Failed && shelf.books == old(shelf.books)) &&
        !isLoading && loadingMessageIndex == AdvanceBy(old(loadingMessageIndex), ticks) &&
        !SubmitDisabled()
      ensures characterImage == old(characterImage) && previewUrl == old(previewUrl)
      ensures storyPrompt == old(storyPrompt) && ageGroup == old(ageGroup) && pageCount == old(pageCount)
      ensures style == old(style) && customStyle == old(customStyle)
    {
      if !IsFormValid() {
        return Ignored;
      }
      isLoading := true;
      var finalStyle := FinalStyle(style, customStyle);
      var options := CreationOptions(characterImage.value, storyPrompt, ageGroup, pageCount, finalStyle);
      generatorCalls := generatorCalls + [GeneratorCall(options, isLoading)];
      var outcome := generate(options);
      loadingMessageIndex := AdvanceBy(loadingMessageIndex, ticks);
      if outcome.Ok? {
        shelf.AddBookToShelf(outcome.value);
        status := Created;
      } else {
        status := Failed;
      }
      isLoading := false;
    }
  }
}
