/** Recognition of the bot's text commands. Matching is done on the text
    after Go's strings.ToLower, so it ignores letter case. */
module Commands {

  datatype Command = Status | EnableAutoPing | DisableAutoPing | Unrecognised

  const STATUS_COMMAND := "/status"
  const ENABLE_COMMAND := "/enable_autoping"
  const DISABLE_COMMAND := "/disable_autoping"

  /** The lower-case mapping of one rune, exact for every rune whose lower
      case is ASCII: 'A'..'Z', U+0130 (capital I with dot above, lowered to
      'i') and U+212A (Kelvin sign, lowered to 'k'). Any other rune is kept
      as it is; its lower case is not ASCII either, so no command text can
      match it either way. */
  function LowerRune(c: char): char {
    if 'A' <= c <= 'Z' then (c as int + 32) as char
    else if c == '\U{0130}' then 'i'
    else if c == '\U{212A}' then 'k'
    else c
  }

  /** Lowering leaves no ASCII capital behind, changes no ASCII character
      other than by its case, and is idempotent (ToLowerIdempotent). */
  function ToLower(s: string): (r: string)
    ensures |r| == |s|
    ensures forall i :: 0 <= i < |r| ==> !('A' <= r[i] <= 'Z')
    ensures forall i :: 0 <= i < |s| && s[i] < 128 as char ==> r[i] < 128 as char && UpperAscii(r[i]) == UpperAscii(s[i])
  {
    seq(|s|, i requires 0 <= i < |s| => LowerRune(s[i]))
  }

  lemma ToLowerIdempotent(s: string)
    ensures ToLower(ToLower(s)) == ToLower(s)
  {
    var r := ToLower(s);
    forall i | 0 <= i < |r|
      ensures ToLower(r)[i] == r[i]
    {
      assert r[i] == LowerRune(s[i]);
    }
  }

  function ParseCommand(text: string): Command {
    var lowered := ToLower(text);
    if lowered == STATUS_COMMAND then Status
    else if lowered == ENABLE_COMMAND then EnableAutoPing
    else if lowered == DISABLE_COMMAND then DisableAutoPing
    else Unrecognised
  }

  function Spelling(c: Command): string
    requires c != Unrecognised
  {
    match c
    case Status => STATUS_COMMAND
    case EnableAutoPing => ENABLE_COMMAND
    case DisableAutoPing => DISABLE_COMMAND
  }

  /** ASCII upper case of one character: the reference for "any letter of a
      command may be typed in either case". */
  function UpperAscii(c: char): char {
    if 'a' <= c <= 'z' then (c as int - 32) as char else c
  }

  predicate IsAscii(s: string) {
    forall i :: 0 <= i < |s| ==> s[i] < 128 as char
  }

  /** `text` spells `word` with some of its letters in upper case. */
  predicate CaseVariant(text: string, word: string) {
    |text| == |word| && forall i :: 0 <= i < |text| ==> text[i] == word[i] || text[i] == UpperAscii(word[i])
  }

  lemma SpellingIsLowerCase(c: Command)
    requires c != Unrecognised
    ensures IsAscii(Spelling(c))
    ensures forall i :: 0 <= i < |Spelling(c)| ==> LowerRune(Spelling(c)[i]) == Spelling(c)[i]
  {
  }

  /** Every case variant of a command's spelling is recognised as that command. */
  lemma CaseVariantRecognised(text: string, c: Command)
    requires c != Unrecognised && CaseVariant(text, Spelling(c))
    ensures ParseCommand(text) == c
  {
    var word := Spelling(c);
    SpellingIsLowerCase(c);
    assert ToLower(text) == word by {
      forall i | 0 <= i < |text|
        ensures ToLower(text)[i] == word[i]
      {
        assert LowerRune(word[i]) == word[i];
      }
    }
  }

  /** Conversely, an ASCII text is recognised as a command only when it is a
      case variant of that command's spelling. */
  lemma RecognisedAsciiIsCaseVariant(text: string)
    requires IsAscii(text) && ParseCommand(text) != Unrecognised
    ensures CaseVariant(text, Spelling(ParseCommand(text)))
  {
    var word := Spelling(ParseCommand(text));
    SpellingIsLowerCase(ParseCommand(text));
    assert ToLower(text) == word;
    forall i | 0 <= i < |text|
      ensures text[i] == word[i] || text[i] == UpperAscii(word[i])
    {
      assert LowerRune(text[i]) == word[i];
    }
  }
}
