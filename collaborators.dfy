/** The external services the dialog consumes, passed in as fixed functions for one
    turn: language detection (`langdetect.detect`), machine translation
    (`GoogleTranslator(source, target).translate`), sentiment polarity
    (`TextBlob(text).sentiment.polarity`) and question generation (the text the
    HuggingFace pipeline continues the prompt with, already stripped). `None`
    stands for a call that raised. */
module Collaborators {
  import opened Wrappers

  datatype Services = Services(
    detect: string -> Option<string>,
    translate: (string, string, string) -> Option<string>,
    polarity: string -> real,
    generate: string -> Option<string>)
}
