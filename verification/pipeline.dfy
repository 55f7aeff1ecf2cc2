/** `generate_output`: the language guard, then caption, prompt, sample,
    trim, then the two exports. The captioner, the language model and the
    speech synthesiser are function parameters; the record of external
    calls says which of them a run reaches and in what order. */
module Pipeline {
  import opened Wrappers
  import opened Text
  import opened Languages
  import opened Prompt
  import opened Generation

  const UnsupportedMessage := "Unsupported language"

  /** An external call made by one run, in the order it is made. */
  datatype Call =
    | CaptionImage
    | SampleText(prompt: string)
    | WriteTextFile(contents: string)
    | Synthesize(text: string, langCode: string)

  /** The exported `.txt` file, by its contents (its temporary path is not
      modelled). */
  datatype TextFile = TextFile(contents: string)

  /** The synthesised narration: the text and code handed to the
      synthesiser and the audio it returned. */
  datatype Narration<Audio> = Narration(text: string, langCode: string, audio: Audio)

  /** The triple handed back to the form; `None` is Python's `None`. */
  datatype Response<Audio> = Response(text: string, textFile: Option<TextFile>, narration: Option<Narration<Audio>>)

  /** How a run ends: the form gets a triple back, or an exception escapes
      `generate_output` (the synthesiser refused its input). */
  datatype Outcome<Audio> = Returned(response: Response<Audio>) | Raised

  datatype Run<Audio> = Run(outcome: Outcome<Audio>, calls: seq<Call>)

  /** The synthesiser is `speak(text, code)`: `Some(audio)` when it produces
      speech, `None` when it raises, as gTTS does for an empty text. The text
      file is written before the synthesiser is called, so a refused
      narration still leaves the file behind. */
  function GenerateOutput<Image, Audio>(
    image: Image, theme: string, characters: string, language: string, contentType: string,
    caption: Image -> string, sample: string -> string, speak: (string, string) -> Option<Audio>): (run: Run<Audio>)
    ensures run.outcome == Returned(Response(UnsupportedMessage, None, None)) <==> language !in Names
    ensures language !in Names ==> run.calls == []
    ensures language in Names ==>
      var prompt := MakePrompt(caption(image), theme, characters, contentType);
      var code := CodeMap[language];
      && IsLanguageCode(code)
      && |run.calls| == 4
      && run.calls[0] == CaptionImage
      && run.calls[1] == SampleText(prompt)
      && run.calls[2].WriteTextFile?
      && run.calls[3] == Synthesize(run.calls[2].contents, code)
      && var text := run.calls[2].contents;
         && NoEdgeSpace(text)
         && (exists lead :: Padded(SliceFrom(sample(prompt), |prompt|), lead, text))
         && (speak(text, code).None? ==> run.outcome == Raised)
         && (speak(text, code).Some? ==>
               run.outcome == Returned(Response(text, Some(TextFile(text)),
                                                Some(Narration(text, code, speak(text, code).value)))))
  {
    match CodeOf(language)
    case None =>
      Run(Returned(Response(UnsupportedMessage, None, None)), [])
    case Some(code) =>
      var captionText := caption(image);
      var prompt := MakePrompt(captionText, theme, characters, contentType);
      var text := GenerateText(captionText, theme, characters, language, contentType, sample);
      var calls := [CaptionImage, SampleText(prompt), WriteTextFile(text), Synthesize(text, code)];
      match speak(text, code)
      case None => Run(Raised, calls)
      case Some(audio) => Run(Returned(Response(text, Some(TextFile(text)), Some(Narration(text, code, audio)))), calls)
  }

  /** An unsupported language short-circuits before any model work: the
      run is the same whatever the image, the other inputs and the three
      external functions are. */
  lemma UnsupportedIgnoresEverythingElse<Image, Audio>(
    language: string,
    image1: Image, theme1: string, characters1: string, contentType1: string,
    caption1: Image -> string, sample1: string -> string, speak1: (string, string) -> Option<Audio>,
    image2: Image, theme2: string, characters2: string, contentType2: string,
    caption2: Image -> string, sample2: string -> string, speak2: (string, string) -> Option<Audio>)
    requires language !in Names
    ensures GenerateOutput(image1, theme1, characters1, language, contentType1, caption1, sample1, speak1)
         == GenerateOutput(image2, theme2, characters2, language, contentType2, caption2, sample2, speak2)
  {
  }

  /** Between two supported languages only the synthesiser's code differs:
      the same text is written to the file, and the codes are equal exactly
      when the languages are. */
  lemma LanguageOnlySelectsCode<Image, Audio>(
    image: Image, theme: string, characters: string, l1: string, l2: string, contentType: string,
    caption: Image -> string, sample: string -> string, speak: (string, string) -> Option<Audio>)
    requires l1 in Names && l2 in Names
    ensures var c1 := GenerateOutput(image, theme, characters, l1, contentType, caption, sample, speak).calls;
            var c2 := GenerateOutput(image, theme, characters, l2, contentType, caption, sample, speak).calls;
            && c1[..3] == c2[..3]
            && (c1[3].langCode == c2[3].langCode <==> l1 == l2)
  {
    GenerateTextIgnoresLanguage(caption(image), theme, characters, l1, l2, contentType, sample);
    if CodeOf(l1) == CodeOf(l2) {
      CodeOfInjective(l1, l2);
    }
  }

  /** A model that returns no more than the prompt's length leaves an empty
      text: the empty file is still written, and a synthesiser that refuses
      empty text makes the run raise instead of returning. */
  lemma EmptyTextRaises<Image, Audio>(
    image: Image, theme: string, characters: string, language: string, contentType: string,
    caption: Image -> string, sample: string -> string, speak: (string, string) -> Option<Audio>)
    requires language in Names
    requires var prompt := MakePrompt(caption(image), theme, characters, contentType);
             |sample(prompt)| <= |prompt|
    requires speak("", CodeMap[language]).None?
    ensures var run := GenerateOutput(image, theme, characters, language, contentType, caption, sample, speak);
            && run.outcome == Raised
            && run.calls[2] == WriteTextFile("")
            && run.calls[3] == Synthesize("", CodeMap[language])
  {
  }

  /** The end-to-end scenario: a poem in English with no characters asks
      the model with the poem prompt and narrates in `en` whatever text is
      written to the file. */
  lemma EnglishPoemScenario<Image, Audio>(
    image: Image, caption: Image -> string, sample: string -> string, speak: (string, string) -> Option<Audio>)
    ensures var run := GenerateOutput(image, "Mystery", "", "English", "Poem", caption, sample, speak);
            && run.calls[1] == SampleText(caption(image) + ". A poem themed around 'Mystery':\n")
            && run.calls[3] == Synthesize(run.calls[2].contents, "en")
            && (run.outcome.Returned? ==> run.outcome.response.textFile == Some(TextFile(run.calls[2].contents)))
  {
  }
}
