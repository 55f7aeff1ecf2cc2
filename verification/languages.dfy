/** An optional value: Python's `None` or a present value. */
module Wrappers {

  datatype Option<+T> = None | Some(value: T)
}

/** The fixed table from a human-readable language name to the two-letter
    code the speech synthesiser expects. */
module Languages {
  import opened Wrappers

  /** `LANG_CODE_MAP`. */
  const CodeMap: map<string, string> := map[
    "English" := "en",
    "Hindi" := "hi",
    "Tamil" := "ta",
    "Telugu" := "te",
    "Malayalam" := "ml",
    "Kannada" := "kn",
    "Marathi" := "mr",
    "Bengali" := "bn"
  ]

  /** The language names the table accepts, as the form offers them. */
  const Names: set<string> :=
    {"English", "Hindi", "Tamil", "Telugu", "Malayalam", "Kannada", "Marathi", "Bengali"}

  predicate IsLowerAsciiLetter(c: char) {
    'a' <= c <= 'z'
  }

  /** A two-letter lowercase code. */
  predicate IsLanguageCode(code: string) {
    |code| == 2 && IsLowerAsciiLetter(code[0]) && IsLowerAsciiLetter(code[1])
  }

  /** The membership test followed by the lookup: `None` for a name outside
      the table, its code otherwise. */
  function CodeOf(language: string): (r: Option<string>)
    ensures r.Some? <==> language in Names
    ensures r.Some? ==> IsLanguageCode(r.value)
  {
    if language in CodeMap then Some(CodeMap[language]) else None
  }

  /** The table has exactly the eight listed names as keys. */
  lemma CodeMapKeys()
    ensures CodeMap.Keys == Names
    ensures |CodeMap| == 8
  {
  }

  /** No two languages share a code, so the code handed to the synthesiser
      identifies the requested language. */
  lemma CodeOfInjective(a: string, b: string)
    requires CodeOf(a).Some? && CodeOf(a) == CodeOf(b)
    ensures a == b
  {
  }

  /** The individual entries of the table. */
  lemma CodeOfEntries()
    ensures CodeOf("English") == Some("en")
    ensures CodeOf("Hindi") == Some("hi")
    ensures CodeOf("Tamil") == Some("ta")
    ensures CodeOf("Telugu") == Some("te")
    ensures CodeOf("Malayalam") == Some("ml")
    ensures CodeOf("Kannada") == Some("kn")
    ensures CodeOf("Marathi") == Some("mr")
    ensures CodeOf("Bengali") == Some("bn")
    ensures CodeOf("english") == None
    ensures CodeOf("") == None
  {
  }
}
