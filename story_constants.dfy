/** The option lists of the story form and its default options. */
module StoryConstants {
  import opened Text
  import opened StoryModel
  import StoryComposer

  const GenreOptions: seq<string> :=
    ["Fantasy", "Science Fiction", "Mystery", "Romance", "Thriller", "Historical Fiction"]
  const ToneOptions: seq<string> :=
    ["Hopeful", "Dark", "Whimsical", "Epic", "Suspenseful", "Heartwarming"]
  const AudienceOptions: seq<string> := ["Kids", "Teens", "Young Adults", "Adults"]
  const PointOfViewOptions: seq<string> := ["First Person", "Third Person Limited", "Third Person Omniscient"]

  datatype LengthOption = LengthOption(labelText: string, value: StoryLength)

  const LengthOptions: seq<LengthOption> := [
    LengthOption("Short (~3 paragraphs)", Short),
    LengthOption("Medium (~5 paragraphs)", Medium),
    LengthOption("Long (~7 paragraphs)", Long)
  ]

  const DefaultStoryOptions: StoryOptions := StoryOptions(
    "The Last Lantern Keeper",
    "An apprentice discovers that the city lights hide messages from forgotten travelers.",
    GenreOptions[0],
    ToneOptions[0],
    AudienceOptions[2],
    Medium,
    PointOfViewOptions[1],
    true,
    true)

  predicate NoDuplicates<T(==)>(s: seq<T>) {
    forall i, j :: 0 <= i < j < |s| ==> s[i] != s[j]
  }

  /** The length choices are short, medium and long, in that order. */
  lemma LengthOptionValues()
    ensures |LengthOptions| == 3
    ensures LengthOptions[0].value == Short && LengthOptions[1].value == Medium && LengthOptions[2].value == Long
  {
  }

  /** Every default the form starts from is one of the offered choices. */
  lemma DefaultsAreOffered()
    ensures DefaultStoryOptions.genre in GenreOptions
    ensures DefaultStoryOptions.tone in ToneOptions
    ensures DefaultStoryOptions.audience in AudienceOptions
    ensures DefaultStoryOptions.pointOfView in PointOfViewOptions
    ensures exists i :: 0 <= i < |LengthOptions| && LengthOptions[i].value == DefaultStoryOptions.length
  {
    assert LengthOptions[1].value == DefaultStoryOptions.length;
  }

  /** The defaults ask for a medium draft with a twist and dialogue. */
  lemma DefaultFlags()
    ensures DefaultStoryOptions.length == Medium
    ensures DefaultStoryOptions.includeTwist && DefaultStoryOptions.includeDialogue
  {
  }

  /** A string ends with, and so contains, what was appended to it. */
  lemma AppendedIsContained(w: string, p: string)
    ensures Contains(w + p, p)
  {
    assert (w + p)[|w|..|w| + |p|] == p;
    assert OccursAt(w + p, p, |w|);
  }

  lemma SmallNumerals()
    ensures NatToString(3) == "3" && NatToString(5) == "5" && NatToString(7) == "7"
  {
    assert DigitChar(3) == '3' && DigitChar(5) == '5' && DigitChar(7) == '7';
  }

  /** The caption of a length choice with the count of its paragraphs. */
  function CountCaption(l: StoryLength): string {
    "(~" + NatToString(StoryComposer.ParagraphCount(l)) + " paragraphs)"
  }

  lemma CaptionTexts()
    ensures CountCaption(Short) == "(~3 paragraphs)"
    ensures CountCaption(Medium) == "(~5 paragraphs)"
    ensures CountCaption(Long) == "(~7 paragraphs)"
  {
    SmallNumerals();
  }

  /** The paragraph count printed in a length label agrees with the composer's table. */
  lemma LabelMatchesParagraphCount(i: nat)
    requires i < |LengthOptions|
    ensures Contains(LengthOptions[i].labelText, CountCaption(LengthOptions[i].value))
  {
    CaptionTexts();
    var o := LengthOptions[i];
    if i == 0 {
      assert o.labelText == "Short " + CountCaption(o.value);
      AppendedIsContained("Short ", CountCaption(o.value));
    } else if i == 1 {
      assert o.labelText == "Medium " + CountCaption(o.value);
      AppendedIsContained("Medium ", CountCaption(o.value));
    } else {
      assert o.labelText == "Long " + CountCaption(o.value);
      AppendedIsContained("Long ", CountCaption(o.value));
    }
  }

  /** No option list offers the same choice twice. */
  lemma OptionListsHaveNoDuplicates()
    ensures NoDuplicates(GenreOptions)
    ensures NoDuplicates(ToneOptions)
    ensures NoDuplicates(AudienceOptions)
    ensures NoDuplicates(PointOfViewOptions)
    ensures NoDuplicates(LengthOptions)
  {
  }
}
