# Story & poem generator: a verified model of its text pipeline

The application turns an uploaded image into a short story or poem with an
audio narration. Three pretrained or remote components do the real work: an
image captioner, a causal language model and a text-to-speech service. The
only logic of the program's own is a small pure text pipeline in `app.py`,
and this project models that pipeline in Dafny and proves its properties:

- **Language table and guard** (`Languages`, `Pipeline`): `LANG_CODE_MAP`
  maps eight language names to two-letter codes. `generate_output` answers a
  name outside the table with `("Unsupported language", None, None)` before
  any model work.
- **Prompt builder** (`Prompt`): the caption, theme, optional characters and
  content type become one of two fixed templates. A content type whose
  lowercase is `story` selects the story template, which lowercases the
  theme. Any other value selects the poem template, which keeps the theme
  verbatim. The character clause is added only when the characters string
  is non-empty.
- **Echo removal** (`Generation`): the model's decoded output is cut by the
  prompt's length (`output[len(prompt):]`) and then stripped of whitespace.
  The cut does not check that the output actually starts with the prompt,
  and the model keeps that behaviour.
- **Orchestration** (`Pipeline.GenerateOutput`): guard, then caption →
  prompt → sample → trim, then the text file and the narration. The
  captioner, the language model and the synthesiser are function
  parameters. The synthesiser returns nothing when it raises, as gTTS does
  for an empty text; the run then ends with an exception instead of a
  triple. The run also returns the list of external calls it makes, so
  "no model work" can be stated as "no calls".

Python's string operations are modelled in `Text`:

- `str.strip()` removes exactly Python's whitespace characters. These are
  the ones `str.isspace()` accepts: U+0009–U+000D, U+001C–U+0020, U+0085,
  U+00A0, U+1680, U+2000–U+200A, U+2028, U+2029, U+202F, U+205F and U+3000.
- `s[n:]` returns `""` when `n` is past the end.
- `str.lower()` is modelled for ASCII letters only.
- Dafny's `char` is a Unicode scalar value, so `|s|` counts code points, as
  Python's `len` does.

Lowering only ASCII does not change which template is chosen. No character
outside ASCII lowercases to one of the letters of `story`; the only non-ASCII
letter that lowercases to an ASCII letter is the Kelvin sign, which becomes
`k`. So `content_type.lower() == "story"` holds exactly when the ASCII-only
lowercase equals `story`. `Prompt.KindOf` states this directly: the story
template is chosen exactly for the 32 spellings of `story` with any mix of
capitals.

The code does not guarantee that the returned text never begins with the
prompt, although that is a natural reading of the trimming step. If the
model's output repeats the prompt twice, the cut removes only the first
copy. `Generation.RemoveEchoCanKeepPrompt` proves this. The model follows
the code.

## Model

| member | source | states |
|---|---|---|
| `Text.Lower` | app.py:42 | the lowercase has the input's length, maps each ASCII capital to its small letter, leaves every other character alone, and contains no ASCII capital |
| `Text.LowerIdempotent` | app.py:42 | lowercasing a second time changes nothing |
| `Text.Strip` | app.py:66 | the stripped text has no whitespace at either end, and the input is that text with only whitespace before and after it |
| `Text.StripPadded` | app.py:66 | reference characterisation: whitespace around a text with no whitespace at its edges is removed exactly, so the stripped text is the unique such core of its input |
| `Text.PaddedCoreIsStrip` | app.py:66 | conversely, a text with no whitespace at its edges around which the input is whitespace-padded is the input's strip, so the two clauses of `Text.Strip` determine it |
| `Text.StripIdempotent` | app.py:66 | stripping a second time changes nothing |
| `Text.StripAllSpace` | app.py:66 | an all-whitespace string strips to `""` |
| `Text.SliceFrom` | app.py:66 | `s[n:]` has length `max(0, len(s) - n)` and holds the characters of `s` from index `n`, so an index past the end gives `""` |
| `Text.SliceFromConcat` | app.py:66 | slicing `p + c` at `len(p)` gives back `c` |
| `Languages.CodeOf` | app.py:21-30 | a name has a code exactly when it is one of the eight listed languages, and every code is two lowercase ASCII letters |
| `Languages.CodeMapKeys` | app.py:21-30 | the table's keys are exactly the eight names and there are 8 of them |
| `Languages.CodeOfInjective` | app.py:21-30 | no two languages share a code |
| `Languages.CodeOfEntries` | app.py:21-30 | each name has its listed code (English→en, Hindi→hi, Tamil→ta, Telugu→te, Malayalam→ml, Kannada→kn, Marathi→mr, Bengali→bn), and names outside the table, including a lowercase `english`, have none |
| `Prompt.KindOf` | app.py:41 | the story template is chosen exactly for the five-letter spellings of `story` with any mix of capitals, the poem template for every other content type |
| `Prompt.KindOfIgnoresCase` | app.py:41 | content types that lowercase alike choose the same template |
| `Prompt.KindOfExamples` | app.py:41-46 | `Story`, `STORY`, `sToRy` choose the story; `Poem`, `""`, `Stories`, ` story` choose the poem |
| `Prompt.BuildPrompt` | app.py:41-50 | every prompt starts with the caption and ends with `\n`, and its length is the caption, theme and characters plus the template's fixed text plus the connective only when characters are given |
| `Prompt.MakePrompt` | app.py:40-50 | the prompt for a content type starts with the caption and ends with `\n`, and the third character after the caption is `T` exactly when the content type spells `story` in any mix of capitals |
| `Prompt.StoryTemplate` | app.py:41-45 | a story prompt is caption + `. This inspired a story about ` + lowercased theme + (` involving ` + characters, when non-empty) + `. It begins like this:\n` |
| `Prompt.PoemTemplate` | app.py:46-50 | a poem prompt is caption + `. A poem themed around '` + theme + `'` + (`, mentioning ` + characters, when non-empty) + `:\n` |
| `Prompt.KindAfterCaption` | app.py:42-47 | the template can be read off the prompt: the third character after the caption is `T` exactly for a story |
| `Prompt.ClauseIffCharacters` | app.py:43-49 | the prompt equals the one built without characters exactly when the characters string is empty |
| `Prompt.PromptDeterminesCharacters` | app.py:43-49 | different character strings give different prompts |
| `Prompt.ThemeSlot` | app.py:42-47 | the theme sits right after the caption and the template's opening words: lowercased in a story, verbatim in a poem |
| `Prompt.StoryThemeLowercased` | app.py:42 | two themes give the same story prompt exactly when they lowercase alike |
| `Prompt.PoemThemeVerbatim` | app.py:47 | two themes give the same poem prompt exactly when they are equal |
| `Prompt.StoryExample` | app.py:41-45 | caption `a dog in a park`, theme `Friendship`, no characters, `Story` gives `a dog in a park. This inspired a story about friendship. It begins like this:\n` |
| `Prompt.PoemExample` | app.py:46-50 | caption `a dog in a park`, theme `Dreams`, characters `Alice and Bob`, `Poem` gives `a dog in a park. A poem themed around 'Dreams', mentioning Alice and Bob:\n` |
| `Generation.RemoveEcho` | app.py:66 | the returned text has no whitespace at either end, is `""` when the output is no longer than the prompt, and is the output after the prompt's length with only whitespace around it |
| `Generation.RemoveEchoIgnoresPrefix` | app.py:66 | the first `len(prompt)` characters are dropped whatever they are; what is returned is the stripped rest |
| `Generation.RemoveEchoOfEcho` | app.py:66 | when the output is the prompt followed by a continuation, the result is the stripped continuation |
| `Generation.RemoveEchoPromptLength` | app.py:66 | the result depends on the prompt only through its length |
| `Generation.RemoveEchoCanKeepPrompt` | app.py:66 | an output that repeats the prompt twice returns text that still begins with the prompt |
| `Generation.GenerateText` | app.py:40-66 | the generated text has no whitespace at either end, is `""` when the model returns no more than the prompt's length, and is the model's output after the prompt's length with only whitespace around it |
| `Generation.GenerateTextDetermined` | app.py:40-66 | conversely, any text with no whitespace at its edges around which the model's output after the prompt's length is whitespace-padded is the generated text |
| `Generation.GenerateTextIgnoresLanguage` | app.py:40-66 | the `language` argument has no influence on the generated text |
| `Generation.GenerateTextOfEcho` | app.py:52-66 | a model that echoes the prompt and continues yields the stripped continuation |
| `Pipeline.GenerateOutput` | app.py:69-87 | an unsupported language returns exactly `("Unsupported language", None, None)` and makes no external call, and only an unsupported language returns that. Otherwise the calls are caption, sample with the caption's prompt, write, synthesise with the table's two-letter code, in that order. The written text has no whitespace at its edges and is the model's output after the prompt's length with only whitespace around it. The same text is synthesised. When the synthesiser raises, the run raises. Otherwise it returns that text, the text file holding it and the narration of it |
| `Pipeline.UnsupportedIgnoresEverythingElse` | app.py:70-71 | for an unsupported language the run is the same whatever the image, other inputs, captioner, model and synthesiser are |
| `Pipeline.LanguageOnlySelectsCode` | app.py:74-83 | two supported languages make the same caption, sample and write calls (so the same text), and the codes handed to the synthesiser are equal exactly when the languages are |
| `Pipeline.EmptyTextRaises` | app.py:66-85 | when the model returns no more than the prompt's length and the synthesiser refuses empty text, an empty text file is still written, the synthesiser is called with `""`, and the run raises |
| `Pipeline.EnglishPoemScenario` | app.py:69-87 | `Mystery`, no characters, `English`, `Poem`: the model is asked with caption + `. A poem themed around 'Mystery':\n`, the written text is synthesised with code `en`, and a returned text file holds the written text |

## Left out

- Text.Lower: folds ASCII capitals only. Python's `str.lower` also lowercases other scripts and can change a string's length (`İ` becomes two characters), so a story prompt with a non-ASCII theme differs from the model. Template selection is not affected (see above).
- Image captioning (app.py:12-14, 33-37) is left out. It is an opaque pretrained model and appears only as the function parameter `caption`.
- Tokenisation, sampling and decoding (app.py:16-18, 52-65) are left out. The model, its fixed sampling settings (max length 250, temperature 0.9, top-k 50, top-p 0.95) and the pad-token fallback are one function parameter, `sample`, from prompt to decoded output. Sampling is random, so one value of `sample` stands for one possible run.
- Speech synthesis (app.py:83-85) is a network call and appears only as the function parameter `speak`.
- Pipeline.GenerateOutput: the synthesiser's refusal of an empty text, and any other exception it raises, is represented only by `speak` returning `None`. The model does not fix which inputs gTTS refuses, so `Pipeline.EmptyTextRaises` takes the refusal of `""` as a hypothesis. Exceptions from the captioner, the model or the file write are not modelled.
- Temporary files (app.py:77-79, 84-85) are left out. Only the text file's contents are modelled; its path and the audio file's path are not, and no file I/O is modelled.
- Device selection and model loading (app.py:9-18) are environment set-up, so they are left out.
- The Gradio form (app.py:89-117) is presentation code, so it is left out. As written it refers at app.py:111 to an input `language` that the form never defines.
- Faults the code does not handle are left out. `content_type` of `None` (a radio left unselected) or `theme` of `None` would raise in `.lower()`. The model takes strings only.
