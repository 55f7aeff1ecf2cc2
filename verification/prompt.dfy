/** The prompt builder of `generate_text`: a caption, a theme, optional
    character names and a content type become the text handed to the
    language model, through one of two fixed templates. */
module Prompt {
  import opened Text

  datatype ContentKind = Story | Poem

  // The fixed pieces of the two templates.
  const StoryLead := ". This inspired a story about "
  const StoryCast := " involving "
  const StoryTail := ". It begins like this:\n"
  const PoemLead := ". A poem themed around '"
  const PoemQuote := "'"
  const PoemCast := ", mentioning "
  const PoemTail := ":\n"

  /** One of the 32 spellings of `story` with any mix of capitals. */
  predicate SpellsStory(contentType: string) {
    && |contentType| == 5
    && forall i :: 0 <= i < 5 ==> contentType[i] == "story"[i] || contentType[i] == "STORY"[i]
  }

  /** The content type selects the story template when it lowercases to
      `story`, which happens for exactly the 32 spellings of `story`; every
      other value, recognised or not, selects the poem. */
  function KindOf(contentType: string): (kind: ContentKind)
    ensures kind == Story <==> SpellsStory(contentType)
  {
    if Lower(contentType) == "story" then Story else Poem
  }

  /** Branch selection ignores case. */
  lemma KindOfIgnoresCase(a: string, b: string)
    requires Lower(a) == Lower(b)
    ensures KindOf(a) == KindOf(b)
  {
  }

  lemma KindOfExamples()
    ensures KindOf("Story") == Story
    ensures KindOf("STORY") == Story
    ensures KindOf("sToRy") == Story
    ensures KindOf("Poem") == Poem
    ensures KindOf("") == Poem
    ensures KindOf("Stories") == Poem
    ensures KindOf(" story") == Poem
  {
  }

  /** The template body built in the order the source appends it: the
      head, then the character clause only when `characters` is non-empty,
      then the tail. */
  function BuildPrompt(caption: string, theme: string, characters: string, kind: ContentKind): (p: string)
    ensures |p| == |caption| + |theme| + |characters| + ClauseLength(kind, characters) + FrameLength(kind)
    ensures p[..|caption|] == caption
    ensures p[|p| - 1] == '\n'
  {
    match kind
    case Story =>
      var head := caption + StoryLead + Lower(theme);
      var withCast := if |characters| > 0 then head + StoryCast + characters else head;
      withCast + StoryTail
    case Poem =>
      var head := caption + PoemLead + theme + PoemQuote;
      var withCast := if |characters| > 0 then head + PoemCast + characters else head;
      withCast + PoemTail
  }

  /** Length of the text around the caption, theme and characters. */
  function FrameLength(kind: ContentKind): nat {
    match kind
    case Story => |StoryLead| + |StoryTail|
    case Poem => |PoemLead| + |PoemQuote| + |PoemTail|
  }

  /** Length of the connective words of the character clause. */
  function ClauseLength(kind: ContentKind, characters: string): nat {
    if |characters| == 0 then 0
    else match kind
      case Story => |StoryCast|
      case Poem => |PoemCast|
  }

  /** `generate_text`'s prompt for a raw content type: it starts with the
      caption, ends with a newline, and the character right after the
      caption's `. ` is the `T` of "This" exactly for the story spellings. */
  function MakePrompt(caption: string, theme: string, characters: string, contentType: string): (p: string)
    ensures |p| > |caption| + 2
    ensures p[..|caption|] == caption
    ensures p[|p| - 1] == '\n'
    ensures p[|caption| + 2] == 'T' <==> SpellsStory(contentType)
  {
    KindAfterCaption(caption, theme, characters, KindOf(contentType));
    BuildPrompt(caption, theme, characters, KindOf(contentType))
  }

  /** The character clause, as it stands between the theme and the tail. */
  function Clause(connective: string, characters: string): string {
    if |characters| > 0 then connective + characters else ""
  }

  /** The story template in closed form. */
  lemma StoryTemplate(caption: string, theme: string, characters: string)
    ensures BuildPrompt(caption, theme, characters, Story)
         == caption + ". This inspired a story about " + Lower(theme)
            + Clause(" involving ", characters) + ". It begins like this:\n"
  {
  }

  /** The poem template in closed form; the theme is kept verbatim. */
  lemma PoemTemplate(caption: string, theme: string, characters: string)
    ensures BuildPrompt(caption, theme, characters, Poem)
         == caption + ". A poem themed around '" + theme + "'"
            + Clause(", mentioning ", characters) + ":\n"
  {
  }

  /** The template is recognisable right after the caption: `T` of "This"
      for a story, `A` of "A poem" for a poem. */
  lemma KindAfterCaption(caption: string, theme: string, characters: string, kind: ContentKind)
    ensures var p := BuildPrompt(caption, theme, characters, kind);
            |p| > |caption| + 2 && (p[|caption| + 2] == 'T' <==> kind == Story)
  {
  }

  /** Middles framed by the same prefix and suffix are equal. */
  lemma FrameCancel(a: string, m1: string, m2: string, b: string)
    requires a + m1 + b == a + m2 + b
    ensures m1 == m2
  {
    assert |m1| == |m2|;
    assert m1 == (a + m1 + b)[|a|..|a| + |m1|];
    assert m2 == (a + m2 + b)[|a|..|a| + |m2|];
  }

  /** The character clause is present iff `characters` is non-empty: the
      prompt equals the one built with no characters exactly when
      `characters` is empty. */
  lemma ClauseIffCharacters(caption: string, theme: string, characters: string, kind: ContentKind)
    ensures BuildPrompt(caption, theme, characters, kind) == BuildPrompt(caption, theme, "", kind)
            <==> characters == ""
  {
  }

  /** Different character names give different prompts. */
  lemma PromptDeterminesCharacters(caption: string, theme: string, c1: string, c2: string, kind: ContentKind)
    requires BuildPrompt(caption, theme, c1, kind) == BuildPrompt(caption, theme, c2, kind)
    ensures c1 == c2
  {
    if |c1| > 0 && |c2| > 0 {
      match kind
      case Story =>
        var a := caption + StoryLead + Lower(theme) + StoryCast;
        assert a + c1 + StoryTail == a + c2 + StoryTail;
        FrameCancel(a, c1, c2, StoryTail);
      case Poem =>
        var a := caption + PoemLead + theme + PoemQuote + PoemCast;
        assert a + c1 + PoemTail == a + c2 + PoemTail;
        FrameCancel(a, c1, c2, PoemTail);
    }
  }

  /** The theme as the template writes it. */
  function ThemeAt(theme: string, kind: ContentKind): string {
    match kind
    case Story => Lower(theme)
    case Poem => theme
  }

  function LeadOf(kind: ContentKind): string {
    match kind
    case Story => StoryLead
    case Poem => PoemLead
  }

  /** Where the theme sits in a prompt: right after the caption and the
      template's lead, lowercased for a story and verbatim for a poem. */
  lemma ThemeSlot(caption: string, theme: string, characters: string, kind: ContentKind)
    ensures var p := BuildPrompt(caption, theme, characters, kind);
            var start := |caption| + |LeadOf(kind)|;
            start + |theme| <= |p| && p[start..start + |theme|] == ThemeAt(theme, kind)
  {
    var a := caption + LeadOf(kind);
    var m := ThemeAt(theme, kind);
    var b := BodyAfterTheme(characters, kind);
    PromptAroundTheme(caption, theme, characters, kind);
    MiddleSlice(a, m, b);
  }

  /** What follows the theme: the closing quote of a poem, the character
      clause and the tail. */
  function BodyAfterTheme(characters: string, kind: ContentKind): string {
    match kind
    case Story => Clause(StoryCast, characters) + StoryTail
    case Poem => PoemQuote + Clause(PoemCast, characters) + PoemTail
  }

  lemma PromptAroundTheme(caption: string, theme: string, characters: string, kind: ContentKind)
    ensures BuildPrompt(caption, theme, characters, kind)
         == caption + LeadOf(kind) + ThemeAt(theme, kind) + BodyAfterTheme(characters, kind)
  {
    match kind
    case Story => StoryAroundTheme(caption, theme, characters);
    case Poem => PoemAroundTheme(caption, theme, characters);
  }

  lemma StoryAroundTheme(caption: string, theme: string, characters: string)
    ensures BuildPrompt(caption, theme, characters, Story)
         == caption + StoryLead + Lower(theme) + (Clause(StoryCast, characters) + StoryTail)
  {
  }

  lemma PoemAroundTheme(caption: string, theme: string, characters: string)
    ensures BuildPrompt(caption, theme, characters, Poem)
         == caption + PoemLead + theme + (PoemQuote + Clause(PoemCast, characters) + PoemTail)
  {
  }

  lemma MiddleSlice(a: string, m: string, b: string)
    ensures (a + m + b)[|a|..|a| + |m|] == m
  {
  }

  /** A story prompt sees the theme only through its lowercase: two themes
      give the same story prompt iff they lowercase alike. */
  lemma StoryThemeLowercased(caption: string, t1: string, t2: string, characters: string)
    ensures BuildPrompt(caption, t1, characters, Story) == BuildPrompt(caption, t2, characters, Story)
            <==> Lower(t1) == Lower(t2)
  {
    if BuildPrompt(caption, t1, characters, Story) == BuildPrompt(caption, t2, characters, Story) {
      ThemeSlot(caption, t1, characters, Story);
      ThemeSlot(caption, t2, characters, Story);
    }
  }

  /** A poem prompt keeps the theme verbatim: two themes give the same
      poem prompt iff they are the same. */
  lemma PoemThemeVerbatim(caption: string, t1: string, t2: string, characters: string)
    ensures BuildPrompt(caption, t1, characters, Poem) == BuildPrompt(caption, t2, characters, Poem)
            <==> t1 == t2
  {
    if BuildPrompt(caption, t1, characters, Poem) == BuildPrompt(caption, t2, characters, Poem) {
      ThemeSlot(caption, t1, characters, Poem);
      ThemeSlot(caption, t2, characters, Poem);
    }
  }

  /** Worked example of the story template: no characters, theme
      lowercased. */
  lemma StoryExample()
    ensures MakePrompt("a dog in a park", "Friendship", "", "Story")
         == "a dog in a park. This inspired a story about friendship. It begins like this:\n"
  {
    StoryExampleTemplate();
    StoryExampleHead();
    StoryExampleTheme();
    StoryExampleTail();
  }

  /** Worked example of the poem template: characters mentioned, theme
      verbatim. */
  lemma PoemExample()
    ensures MakePrompt("a dog in a park", "Dreams", "Alice and Bob", "Poem")
         == "a dog in a park. A poem themed around 'Dreams', mentioning Alice and Bob:\n"
  {
    assert BuildPrompt("a dog in a park", "Dreams", "Alice and Bob", Poem)
        == "a dog in a park" + PoemLead + "Dreams" + PoemQuote + PoemCast + "Alice and Bob" + PoemTail;
    PoemExampleHead();
    PoemExampleCast();
    PoemExampleTail();
  }

  // The steps of the two worked examples, one concatenation of literals
  // per lemma: proved together, the equations between long literals
  // exceed the verifier's resource limit.

  lemma StoryExampleTemplate()
    ensures BuildPrompt("a dog in a park", "Friendship", "", Story)
         == "a dog in a park" + StoryLead + "friendship" + StoryTail
  {
  }

  lemma StoryExampleHead()
    ensures "a dog in a park" + StoryLead == "a dog in a park. This inspired a story about "
  {
  }

  lemma StoryExampleTheme()
    ensures "a dog in a park. This inspired a story about " + "friendship"
         == "a dog in a park. This inspired a story about friendship"
  {
  }

  lemma StoryExampleTail()
    ensures "a dog in a park. This inspired a story about friendship" + StoryTail
         == "a dog in a park. This inspired a story about friendship. It begins like this:\n"
  {
  }

  lemma PoemExampleHead()
    ensures "a dog in a park" + PoemLead + "Dreams" + PoemQuote
         == "a dog in a park. A poem themed around 'Dreams'"
  {
  }

  lemma PoemExampleCast()
    ensures "a dog in a park. A poem themed around 'Dreams'" + PoemCast + "Alice and Bob"
         == "a dog in a park. A poem themed around 'Dreams', mentioning Alice and Bob"
  {
  }

  lemma PoemExampleTail()
    ensures "a dog in a park. A poem themed around 'Dreams', mentioning Alice and Bob" + PoemTail
         == "a dog in a park. A poem themed around 'Dreams', mentioning Alice and Bob:\n"
  {
  }
}
