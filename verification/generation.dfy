/** The text half of `generate_text`: the prompt goes to the language model
    and the decoded output loses its echoed prompt. The model itself
    (tokenizer, sampling, decoding) is the function `sample`, a black box
    from prompt to decoded output. */
module Generation {
  import opened Text
  import opened Prompt

  /** `output[len(prompt):].strip()`: as many characters as the prompt has
      are cut from the front of the output, whatever they are, and the
      remainder is stripped. */
  function RemoveEcho(output: string, prompt: string): (text: string)
    ensures NoEdgeSpace(text)
    ensures |output| <= |prompt| ==> text == []
    ensures exists lead :: Padded(SliceFrom(output, |prompt|), lead, text)
  {
    Strip(SliceFrom(output, |prompt|))
  }

  /** The cut only counts characters: the first `|prompt|` characters of
      the output are dropped even when they are not the prompt. */
  lemma RemoveEchoIgnoresPrefix(prompt: string, head: string, continuation: string)
    requires |head| == |prompt|
    ensures RemoveEcho(head + continuation, prompt) == Strip(continuation)
  {
  }

  /** When the model echoes the prompt, what is left is its stripped
      continuation. */
  lemma RemoveEchoOfEcho(prompt: string, continuation: string)
    ensures RemoveEcho(prompt + continuation, prompt) == Strip(continuation)
  {
  }

  /** The result depends on the prompt only through its length. */
  lemma RemoveEchoPromptLength(output: string, p1: string, p2: string)
    requires |p1| == |p2|
    ensures RemoveEcho(output, p1) == RemoveEcho(output, p2)
  {
  }

  /** The returned text can itself begin with the prompt: an output that
      repeats the prompt twice keeps the second copy. */
  lemma RemoveEchoCanKeepPrompt(prompt: string)
    requires |prompt| > 0 && !IsSpace(prompt[0])
    ensures var text := RemoveEcho(prompt + prompt + "x", prompt);
            |text| > |prompt| && text[..|prompt|] == prompt
  {
  }

  /** `generate_text`: build the prompt, sample, remove the echo. The
      `language` argument is accepted and never used. */
  function GenerateText(caption: string, theme: string, characters: string, language: string,
                        contentType: string, sample: string -> string): (text: string)
    ensures NoEdgeSpace(text)
    ensures var prompt := MakePrompt(caption, theme, characters, contentType);
            |sample(prompt)| <= |prompt| ==> text == []
    ensures var prompt := MakePrompt(caption, theme, characters, contentType);
            exists lead :: Padded(SliceFrom(sample(prompt), |prompt|), lead, text)
  {
    var prompt := MakePrompt(caption, theme, characters, contentType);
    RemoveEcho(sample(prompt), prompt)
  }

  /** The converse of the contract above: any string with no whitespace at
      its edges around which the sampled output past the prompt's length is
      padded is the generated text, so the two clauses determine it. */
  lemma GenerateTextDetermined(caption: string, theme: string, characters: string, language: string,
                               contentType: string, sample: string -> string, text: string, lead: nat)
    requires var prompt := MakePrompt(caption, theme, characters, contentType);
             Padded(SliceFrom(sample(prompt), |prompt|), lead, text) && NoEdgeSpace(text)
    ensures GenerateText(caption, theme, characters, language, contentType, sample) == text
  {
    var prompt := MakePrompt(caption, theme, characters, contentType);
    PaddedCoreIsStrip(SliceFrom(sample(prompt), |prompt|), lead, text);
  }

  /** The language has no influence on the generated text. */
  lemma GenerateTextIgnoresLanguage(caption: string, theme: string, characters: string,
                                    l1: string, l2: string, contentType: string, sample: string -> string)
    ensures GenerateText(caption, theme, characters, l1, contentType, sample)
         == GenerateText(caption, theme, characters, l2, contentType, sample)
  {
  }

  /** A model that echoes its prompt and continues yields the stripped
      continuation. */
  lemma GenerateTextOfEcho(caption: string, theme: string, characters: string, language: string,
                           contentType: string, sample: string -> string, continuation: string)
    requires sample(MakePrompt(caption, theme, characters, contentType))
          == MakePrompt(caption, theme, characters, contentType) + continuation
    ensures GenerateText(caption, theme, characters, language, contentType, sample) == Strip(continuation)
  {
  }
}
