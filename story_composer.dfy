/**
  The offline story composer: a deterministic template filler used when the remote
  generator fails. An additive character-code hash of the title, premise, genre and tone
  picks the conflict phrase; the length decides how many of seven paragraphs are kept.
*/
module StoryComposer {
  import opened Wrappers
  import opened Text
  import opened StoryModel

  /** `lengthParagraphs`: how many paragraphs a draft of each length keeps. */
  function ParagraphCount(l: StoryLength): nat {
    match l
    case Short => 3
    case Medium => 5
    case Long => 7
  }

  const ConflictSeeds: seq<string> := [
    "a promise made years ago starts to break",
    "a map rewrites itself whenever moonlight appears",
    "an ally withholds the one truth that matters",
    "the city clock begins to run backward"
  ]

  /** The `reduce` of `pickByHash`: the sum of the character codes, accumulated left to right. */
  function CharCodeSum(s: string): nat {
    if s == [] then 0 else CharCodeSum(s[..|s| - 1]) + s[|s| - 1] as int
  }

  /** The hash of a concatenation is the sum of the hashes of the pieces. */
  lemma {:induction false} CharCodeSumConcat(a: string, b: string)
    ensures CharCodeSum(a + b) == CharCodeSum(a) + CharCodeSum(b)
    decreases |b|
  {
    if b == [] {
      assert a + b == a;
    } else {
      var init := b[..|b| - 1];
      CharCodeSumConcat(a, init);
      assert (a + b)[..|a + b| - 1] == a + init;
    }
  }

  /** `pickByHash`: the value at the hash modulo the list length; `undefined` for an empty list. */
  function PickByHash(input: string, values: seq<string>): (r: Option<string>)
    ensures r.None? <==> values == []
    ensures r.Some? ==> r.value in values
    ensures r.Some? ==> r.value == values[CharCodeSum(input) % |values|]
  {
    if values == [] then None else Some(values[CharCodeSum(input) % |values|])
  }

  /** The text the conflict is hashed from. */
  function Seed(o: StoryOptions): string {
    o.title + "|" + o.premise + "|" + o.genre + "|" + o.tone
  }

  /** The conflict phrase of a draft: always one of the four seeds. */
  function Conflict(o: StoryOptions): (c: string)
    ensures c in ConflictSeeds
  {
    PickByHash(Seed(o), ConflictSeeds).value
  }

  /** The opening up to the premise. */
  function OpeningLead(o: StoryOptions): string {
    o.title + " was spoken about in whispers across the " + ToLower(o.genre) + " lanes of the old quarter. "
  }

  const ConflictLead: string := " Everyone believed the mystery was harmless, until "

  function Opening(o: StoryOptions): string {
    OpeningLead(o) + o.premise + ConflictLead + Conflict(o) + "."
  }

  function NarrationLine(o: StoryOptions): string {
    "The narration moved in a " + ToLower(o.tone) + " rhythm, and every decision carried weight for "
    + ToLower(o.audience) + " readers."
  }

  function DialogueParagraph(o: StoryOptions): string {
    if o.includeDialogue then DialogueLine else SilenceLine
  }

  function ViewLine(o: StoryOptions): string {
    "Told through " + ToLower(o.pointOfView) + ", each scene revealed how fear and courage can share the same heartbeat."
  }

  function TwistParagraphText(o: StoryOptions): string {
    if o.includeTwist then TwistLine else NoTwistLine
  }

  const DialogueLine: string :=
    "\"If the lanterns go dark tonight, we lose more than light,\" the mentor warned, but the protagonist stepped forward anyway."
  const SilenceLine: string := "No one spoke aloud, yet the silence was clearer than any warning bell."
  const TwistLine: string :=
    "Then came the twist: the messages were not from the past but from futures that would vanish if ignored."
  const NoTwistLine: string := "Instead of a dramatic reversal, the story leaned into slow realization and emotional payoff."
  /** The source text holds the three characters U+00E2 U+20AC U+201D where an em dash was meant. */
  const DawnLine: string :=
    "By dawn, the protagonist lit the final lantern and learned that hope is not found\U{E2}\U{20AC}\U{201D}it is built, choice by choice."
  const CityLine: string :=
    "The city changed quietly afterward: fewer secrets, kinder streets, and one keeper who now taught others to read the light."

  /** The opening followed by the six body lines, before the length cut. */
  function Paragraphs(o: StoryOptions): seq<string> {
    [Opening(o), NarrationLine(o), DialogueParagraph(o), ViewLine(o), TwistParagraphText(o), DawnLine, CityLine]
  }

  /** The paragraphs a draft of the chosen length keeps: the first 3, 5 or 7. */
  function Kept(o: StoryOptions): (r: seq<string>)
    ensures |r| == ParagraphCount(o.length)
  {
    Paragraphs(o)[..ParagraphCount(o.length)]
  }

  /** `composeStory`. */
  function ComposeStory(o: StoryOptions): string {
    Join(Kept(o), "\n\n")
  }

  /** `generateStory`: the composed draft (the 550 ms pause is not modelled). */
  method GenerateStory(o: StoryOptions) returns (draft: string)
    ensures draft == ComposeStory(o)
  {
    draft := ComposeStory(o);
  }

  // ----- facts about joins used below -----

  /** A join starts with its first part. */
  lemma JoinStartsWithFirst(ps: seq<string>, sep: string)
    requires |ps| >= 1
    ensures ps[0] <= Join(ps, sep)
  {
  }

  /** Joining fewer leading parts gives a prefix of joining more of them. */
  lemma {:induction false} JoinPrefixGrows(ps: seq<string>, sep: string, j: nat, k: nat)
    requires 1 <= j <= k <= |ps|
    ensures Join(ps[..j], sep) <= Join(ps[..k], sep)
    decreases j
  {
    if j > 1 {
      JoinPrefixGrows(ps[1..], sep, j - 1, k - 1);
      assert ps[..j][1..] == ps[1..][..j - 1];
      assert ps[..k][1..] == ps[1..][..k - 1];
    } else {
      assert ps[..j] == [ps[0]];
      assert ps[..k][0] == ps[0];
    }
  }

  /** Where the i-th part of a join starts: after each earlier part and a separator. */
  function PartOffset(ps: seq<string>, sep: string, i: nat): nat
    requires i <= |ps|
  {
    if i == 0 then 0 else |ps[0]| + |sep| + PartOffset(ps[1..], sep, i - 1)
  }

  /** An occurrence in a string is an occurrence, shifted, in anything that ends with it. */
  lemma OccursAfter(x: string, s: string, p: string, i: int)
    requires OccursAt(s, p, i)
    ensures OccursAt(x + s, p, |x| + i)
  {
    assert (x + s)[|x| + i..|x| + i + |p|] == s[i..i + |p|];
  }

  /** The i-th part of a join sits at its offset, and a separator follows every part but the last. */
  lemma {:induction false} JoinPartAt(ps: seq<string>, sep: string, i: nat)
    requires i < |ps|
    ensures OccursAt(Join(ps, sep), ps[i], PartOffset(ps, sep, i))
    ensures i + 1 < |ps| ==> OccursAt(Join(ps, sep), sep, PartOffset(ps, sep, i) + |ps[i]|)
    decreases i
  {
    var s := Join(ps, sep);
    if |ps| == 1 {
      assert s[..|ps[0]|] == ps[0];
    } else {
      var rest := Join(ps[1..], sep);
      assert s == ps[0] + sep + rest;
      if i == 0 {
        assert s[..|ps[0]|] == ps[0];
        assert s[|ps[0]|..|ps[0]| + |sep|] == sep;
      } else {
        JoinPartAt(ps[1..], sep, i - 1);
        assert ps[1..][i - 1] == ps[i];
        OccursAfter(ps[0] + sep, rest, ps[i], PartOffset(ps[1..], sep, i - 1));
        if i + 1 < |ps| {
          OccursAfter(ps[0] + sep, rest, sep, PartOffset(ps[1..], sep, i - 1) + |ps[i]|);
        }
      }
    }
  }

  /** A join is as long as its parts and the separators between them. */
  lemma {:induction false} JoinLength(ps: seq<string>, sep: string)
    requires |ps| >= 1
    ensures |Join(ps, sep)| == PartOffset(ps, sep, |ps| - 1) + |ps[|ps| - 1]|
    decreases |ps|
  {
    if |ps| > 1 {
      JoinLength(ps[1..], sep);
      assert ps[1..][|ps| - 2] == ps[|ps| - 1];
    }
  }

  /** The layout of a join around its i-th part. */
  lemma JoinLayout(ps: seq<string>, sep: string, i: nat)
    requires i < |ps|
    ensures var s := Join(ps, sep);
      && OccursAt(s, ps[i], PartOffset(ps, sep, i))
      && (i + 1 < |ps| ==> OccursAt(s, sep, PartOffset(ps, sep, i) + |ps[i]|))
      && |s| == PartOffset(ps, sep, |ps| - 1) + |ps[|ps| - 1]|
  {
    JoinPartAt(ps, sep, i);
    JoinLength(ps, sep);
  }

  lemma ContainsTrans(a: string, b: string, c: string)
    requires Contains(a, b) && Contains(b, c)
    ensures Contains(a, c)
  {
    var i :| 0 <= i <= |a| - |b| && OccursAt(a, b, i);
    var j :| 0 <= j <= |b| - |c| && OccursAt(b, c, j);
    forall k | 0 <= k < |c| ensures a[i + j + k] == c[k] {
      assert b[j + k] == c[k];
      assert a[i + (j + k)] == b[j + k];
    }
    assert a[i + j..i + j + |c|] == c;
    assert OccursAt(a, c, i + j);
  }

  /** Every part of a join occurs in it. */
  lemma {:induction false} JoinContainsPart(ps: seq<string>, sep: string, i: nat)
    requires i < |ps|
    ensures Contains(Join(ps, sep), ps[i])
    decreases i
  {
    var s := Join(ps, sep);
    if |ps| == 1 {
      assert OccursAt(s, ps[i], 0);
    } else if i == 0 {
      assert OccursAt(s, ps[0], 0);
    } else {
      var rest := Join(ps[1..], sep);
      JoinContainsPart(ps[1..], sep, i - 1);
      var n := |ps[0] + sep|;
      assert s == (ps[0] + sep) + rest;
      assert OccursAt(s, rest, n);
      ContainsTrans(s, rest, ps[i]);
    }
  }

  /** Each of the first `k` parts occurs in the join of those `k` parts. */
  lemma JoinKeepsPart(ps: seq<string>, sep: string, k: nat, i: nat)
    requires i < k <= |ps|
    ensures Contains(Join(ps[..k], sep), ps[i])
  {
    JoinContainsPart(ps[..k], sep, i);
    assert ps[..k][i] == ps[i];
  }

  /** The join of the first `k` parts starts with the first part. */
  lemma JoinKeepsFirst(ps: seq<string>, sep: string, k: nat)
    requires 1 <= k <= |ps|
    ensures ps[0] <= Join(ps[..k], sep)
  {
    JoinStartsWithFirst(ps[..k], sep);
    assert ps[..k][0] == ps[0];
  }

  /** What a prefix contains, the whole string contains. */
  lemma PrefixContains(s: string, p: string, x: string)
    requires p <= s && Contains(p, x)
    ensures Contains(s, x)
  {
    assert OccursAt(s, p, 0) by { assert s[..|p|] == p; }
    ContainsTrans(s, p, x);
  }

  // ----- properties of the composer -----

  /** Where each kept paragraph sits in the draft: the i-th of the first `k` starts after the
      earlier ones and a blank line after each of them, every paragraph but the last is followed
      by a blank line, and the draft ends with the last kept paragraph. */
  lemma ParagraphLayout(o: StoryOptions, i: nat)
    requires i < ParagraphCount(o.length)
    ensures var k := ParagraphCount(o.length); var kept := Kept(o);
      && OccursAt(ComposeStory(o), kept[i], PartOffset(kept, "\n\n", i))
      && (i + 1 < k ==> OccursAt(ComposeStory(o), "\n\n", PartOffset(kept, "\n\n", i) + |kept[i]|))
      && |ComposeStory(o)| == PartOffset(kept, "\n\n", k - 1) + |kept[k - 1]|
  {
    JoinLayout(Kept(o), "\n\n", i);
  }

  /** The paragraphs do not depend on the length; only the cut does. */
  lemma ParagraphsIgnoreLength(o: StoryOptions, l: StoryLength)
    ensures Paragraphs(o.(length := l)) == Paragraphs(o)
  {
    var o' := o.(length := l);
    assert Seed(o') == Seed(o);
  }

  /** A longer draft extends the shorter one of the same options. */
  lemma LongerDraftExtendsShorter(o: StoryOptions)
    ensures ComposeStory(o.(length := Short)) <= ComposeStory(o.(length := Medium))
    ensures ComposeStory(o.(length := Medium)) <= ComposeStory(o.(length := Long))
  {
    ParagraphsIgnoreLength(o, Short);
    ParagraphsIgnoreLength(o, Medium);
    ParagraphsIgnoreLength(o, Long);
    JoinPrefixGrows(Paragraphs(o), "\n\n", 3, 5);
    JoinPrefixGrows(Paragraphs(o), "\n\n", 5, 7);
  }

  lemma OccursInMiddle(x: string, y: string, z: string)
    ensures OccursAt(x + y + z, y, |x|)
  {
    assert (x + y + z)[|x|..|x| + |y|] == y;
  }

  /** The opening starts with the title and carries the premise and the chosen conflict. */
  lemma OpeningShape(o: StoryOptions)
    ensures o.title <= Opening(o)
    ensures Contains(Opening(o), o.premise)
    ensures Contains(Opening(o), Conflict(o))
  {
    var lead := OpeningLead(o);
    assert o.title <= lead;
    OccursInMiddle(lead, o.premise, ConflictLead + Conflict(o) + ".");
    assert Opening(o) == lead + o.premise + (ConflictLead + Conflict(o) + ".");
    OccursInMiddle(lead + o.premise + ConflictLead, Conflict(o), ".");
  }

  /** Every draft starts with the opening, so with the title, and carries the premise and the conflict. */
  lemma DraftStartsWithOpening(o: StoryOptions)
    ensures Opening(o) <= ComposeStory(o)
    ensures o.title <= ComposeStory(o)
    ensures Contains(ComposeStory(o), o.premise) && Contains(ComposeStory(o), Conflict(o))
  {
    OpeningShape(o);
    JoinKeepsFirst(Paragraphs(o), "\n\n", ParagraphCount(o.length));
    PrefixContains(ComposeStory(o), Opening(o), o.premise);
    PrefixContains(ComposeStory(o), Opening(o), Conflict(o));
  }

  /** The third paragraph is the dialogue line exactly when dialogue is asked for, otherwise the
      silence line, and every length keeps it. */
  lemma ThirdParagraph(o: StoryOptions)
    ensures Paragraphs(o)[2] == DialogueParagraph(o)
    ensures DialogueParagraph(o) == if o.includeDialogue then DialogueLine else SilenceLine
    ensures 2 < ParagraphCount(o.length)
    ensures Contains(ComposeStory(o), Paragraphs(o)[2])
  {
    JoinKeepsPart(Paragraphs(o), "\n\n", ParagraphCount(o.length), 2);
  }

  /** The twist paragraph (or its alternative) is kept only by medium and long drafts. */
  lemma TwistParagraph(o: StoryOptions)
    ensures Paragraphs(o)[4] == TwistParagraphText(o)
    ensures TwistParagraphText(o) == if o.includeTwist then TwistLine else NoTwistLine
    ensures 4 < ParagraphCount(o.length) <==> o.length != Short
    ensures o.length != Short ==> Contains(ComposeStory(o), Paragraphs(o)[4])
  {
    if o.length != Short {
      JoinKeepsPart(Paragraphs(o), "\n\n", ParagraphCount(o.length), 4);
    }
  }

  /** For a short draft the twist flag has no effect on the output. */
  lemma ShortIgnoresTwist(o: StoryOptions, twist: bool)
    requires o.length == Short
    ensures ComposeStory(o) == ComposeStory(o.(includeTwist := twist))
  {
    FirstThreeIgnoreTwist(o, twist);
  }

  /** The twist flag only reaches the fifth paragraph. */
  lemma FirstThreeIgnoreTwist(o: StoryOptions, twist: bool)
    ensures Paragraphs(o)[..3] == Paragraphs(o.(includeTwist := twist))[..3]
  {
    var o' := o.(includeTwist := twist);
    ConflictDependsOnSeedFields(o, o');
    var ps, qs := Paragraphs(o), Paragraphs(o');
    SamePrefix3(ps, qs);
  }

  lemma SamePrefix3(ps: seq<string>, qs: seq<string>)
    requires |ps| >= 3 && |qs| >= 3
    requires ps[0] == qs[0] && ps[1] == qs[1] && ps[2] == qs[2]
    ensures ps[..3] == qs[..3]
  {
    assert ps[..3] == [ps[0], ps[1], ps[2]];
    assert qs[..3] == [qs[0], qs[1], qs[2]];
  }

  /** The conflict depends only on title, premise, genre and tone. */
  lemma ConflictDependsOnSeedFields(o: StoryOptions, o': StoryOptions)
    requires o.title == o'.title && o.premise == o'.premise && o.genre == o'.genre && o.tone == o'.tone
    ensures Conflict(o) == Conflict(o')
    ensures Opening(o) == Opening(o')
  {
  }

  /** The hash is a plain sum, so it does not see the order of the seed fields: swapping title
      and premise picks the same conflict. */
  lemma {:induction false} ConflictIgnoresFieldOrder(o: StoryOptions)
    ensures Conflict(o) == Conflict(o.(title := o.premise, premise := o.title))
  {
    var o' := o.(title := o.premise, premise := o.title);
    var rest := "|" + o.genre + "|" + o.tone;
    assert Seed(o) == o.title + "|" + o.premise + rest;
    assert Seed(o') == o.premise + "|" + o.title + rest;
    CharCodeSumConcat(o.title + "|" + o.premise, rest);
    CharCodeSumConcat(o.premise + "|" + o.title, rest);
    CharCodeSumConcat(o.title + "|", o.premise);
    CharCodeSumConcat(o.premise + "|", o.title);
    CharCodeSumConcat(o.title, "|");
    CharCodeSumConcat(o.premise, "|");
    assert CharCodeSum(Seed(o)) == CharCodeSum(Seed(o'));
  }
}
