/**
 * The password generator behind the "Generate Password" button: it pools the
 * character sets the user ticked, draws a password of the chosen length from
 * that pool, and shows the password's strength and a colour for it.
 */
module Generator {
  import opened StrengthAnalyzer

  datatype Option<T> = None | Some(value: T)

  /** Python's `string.ascii_uppercase`, `string.ascii_lowercase`, `string.digits`, `string.punctuation`. */
  const ASCII_UPPERCASE: string := "ABCDEFGHIJKLMNOPQRSTUVWXYZ"
  const ASCII_LOWERCASE: string := "abcdefghijklmnopqrstuvwxyz"
  const DIGITS: string := "0123456789"
  const PUNCTUATION: string := "!\"#$%&'()*+,-./:;<=>?@[\\]^_`{|}~"

  /** The error shown when no character set is ticked. */
  const NO_CHARACTER_TYPE: string := "Select at least one character type"

  /** The colours of the strength label, indexed by score. */
  const STRENGTH_COLOURS: seq<string> := ["red", "orange", "yellow", "light green", "green"]

  /** Which of the four character sets are ticked. */
  datatype Selection = Selection(uppercase: bool, lowercase: bool, digits: bool, symbols: bool)
  {
    predicate AnySelected()
    {
      uppercase || lowercase || digits || symbols
    }
  }

  /** The initial ticks: every set is selected. */
  const ALL_SELECTED: Selection := Selection(true, true, true, true)

  /** The initial password length. */
  const DEFAULT_LENGTH: int := 12

  /** The three alphanumeric sets are the ASCII ranges they look like. */
  lemma AlphanumericSets()
    ensures forall c :: c in ASCII_UPPERCASE <==> InClass(Uppercase, c)
    ensures forall c :: c in ASCII_LOWERCASE <==> InClass(Lowercase, c)
    ensures forall c :: c in DIGITS <==> InClass(Digit, c)
  {
  }

  /** Printable ASCII that is neither a letter, a digit nor a space. */
  predicate IsAsciiPunctuation(c: char)
  {
    '!' <= c <= '/' || ':' <= c <= '@' || '[' <= c <= '`' || '{' <= c <= '~'
  }

  /** `string.punctuation` is exactly the printable ASCII that is neither a letter, a digit nor a space. */
  lemma PunctuationSet()
    ensures forall c :: c in PUNCTUATION <==> IsAsciiPunctuation(c)
  {
  }

  /**
   * The pool the generator draws from: the ticked sets concatenated in the
   * order uppercase, lowercase, digits, symbols.
   */
  function CharPool(sel: Selection): (pool: string)
    ensures pool == [] <==> !sel.AnySelected()
    ensures |pool| == (if sel.uppercase then 26 else 0) + (if sel.lowercase then 26 else 0)
                      + (if sel.digits then 10 else 0) + (if sel.symbols then 32 else 0)
    ensures forall c :: c in pool <==>
              (sel.uppercase && InClass(Uppercase, c)) || (sel.lowercase && InClass(Lowercase, c))
              || (sel.digits && InClass(Digit, c)) || (sel.symbols && IsAsciiPunctuation(c))
  {
    AlphanumericSets();
    PunctuationSet();
    (if sel.uppercase then ASCII_UPPERCASE else "")
      + (if sel.lowercase then ASCII_LOWERCASE else "")
      + (if sel.digits then DIGITS else "")
      + (if sel.symbols then PUNCTUATION else "")
  }

  /**
   * `''.join(random.choice(pool) for _ in range(length))`, with each random
   * choice an arbitrary character of the pool.
   */
  method DrawPassword(pool: string, length: int) returns (password: string)
    requires pool != []
    ensures |password| == if length < 0 then 0 else length
    ensures forall i :: 0 <= i < |password| ==> password[i] in pool
  {
    // `range(length)` is empty for a negative length.
    var count := if length < 0 then 0 else length;
    password := "";
    var drawn := 0;
    while drawn < count
      invariant 0 <= drawn <= count
      invariant |password| == drawn
      invariant forall i :: 0 <= i < |password| ==> password[i] in pool
    {
      assert pool[0] in pool;
      var c :| c in pool;
      password := password + [c];
      drawn := drawn + 1;
    }
  }

  /** How many character sets are ticked. */
  function SelectedCount(sel: Selection): nat
  {
    (if sel.uppercase then 1 else 0) + (if sel.lowercase then 1 else 0)
      + (if sel.digits then 1 else 0) + (if sel.symbols then 1 else 0)
  }

  /** Every special character of the analyser is punctuation. */
  lemma SpecialIsPunctuation()
    ensures forall c :: c in SPECIAL_CHARACTERS ==> c in PUNCTUATION
  {
  }

  /**
   * A password drawn from the pool of `sel` scores at most its length points
   * plus the number of ticked sets: a class the user did not tick cannot occur.
   */
  lemma ScoreBoundedBySelection(sel: Selection, p: string)
    requires forall i :: 0 <= i < |p| ==> p[i] in CharPool(sel)
    ensures Score(p) <= LengthPoints(|p|) + SelectedCount(sel)
  {
    SpecialIsPunctuation();
    PunctuationSet();
    if p != [] {
      ScoreComposition(p);
      assert Present(Uppercase, p) ==> sel.uppercase;
      assert Present(Lowercase, p) ==> sel.lowercase;
      assert Present(Digit, p) ==> sel.digits;
      assert Present(Special, p) ==> sel.symbols;
    }
  }

  /**
   * The lookup as written can fail only when at least three sets are ticked
   * and the length is at least 12, or all four are ticked and the length is
   * at least 8.
   */
  lemma ColourFailureNeedsVariety(sel: Selection, p: string)
    requires forall i :: 0 <= i < |p| ==> p[i] in CharPool(sel)
    requires ColourAsWritten(Score(p)).None?
    ensures (SelectedCount(sel) >= 3 && |p| >= 12) || (SelectedCount(sel) == 4 && |p| >= 8)
  {
    ScoreBoundedBySelection(sel, p);
  }

  /**
   * `strength_colors[strength]` as written: Python list indexing, which
   * accepts -5..4 (a negative index counts from the end) and raises an
   * IndexError, modelled as `None`, otherwise.
   */
  function ColourAsWritten(strength: int): (colour: Option<string>)
    ensures colour.Some? <==> -|STRENGTH_COLOURS| <= strength < |STRENGTH_COLOURS|
    ensures colour.Some? ==> colour.value in STRENGTH_COLOURS
  {
    if 0 <= strength < |STRENGTH_COLOURS| then Some(STRENGTH_COLOURS[strength])
    else if -|STRENGTH_COLOURS| <= strength < 0 then Some(STRENGTH_COLOURS[|STRENGTH_COLOURS| + strength])
    else None
  }

  /** Over the scores the analyser can return, the lookup fails exactly on the top score. */
  lemma ColourLookupFailsOnTopScore(p: string)
    ensures ColourAsWritten(Score(p)).None? <==> Score(p) == MAX_STRENGTH
  {
  }

  /**
   * A password the generator can produce with its initial settings scores 5,
   * so the lookup as written raises an IndexError for it.
   */
  lemma TopScoreReachedByGenerator()
    ensures var p := "Aa1Aa1Aa1Aa1";
            && |p| == DEFAULT_LENGTH
            && (forall i :: 0 <= i < |p| ==> p[i] in CharPool(ALL_SELECTED))
            && Score(p) == MAX_STRENGTH
            && ColourAsWritten(Score(p)) == None
  {
    var p := "Aa1Aa1Aa1Aa1";
    assert InClass(Uppercase, p[0]) && InClass(Lowercase, p[1]) && InClass(Digit, p[2]);
    ScoreComposition(p);
  }

  /**
   * The corrected colour lookup: every score 0..5 has a colour, the top score
   * sharing the strongest one.
   */
  function StrengthColour(strength: int): (colour: string)
    requires 0 <= strength <= MAX_STRENGTH
    ensures colour in STRENGTH_COLOURS
    ensures strength < MAX_STRENGTH ==> ColourAsWritten(strength) == Some(colour)
    ensures strength == MAX_STRENGTH ==> colour == STRENGTH_COLOURS[|STRENGTH_COLOURS| - 1]
  {
    STRENGTH_COLOURS[if strength < |STRENGTH_COLOURS| then strength else |STRENGTH_COLOURS| - 1]
  }

  /** `f"Strength: {strength}/5 - {feedback}"` for a one-digit score. */
  function StrengthText(strength: int, feedback: string): (text: string)
    requires 0 <= strength <= 9
    ensures |text| == 16 + |feedback|
    ensures text[..10] == "Strength: "
    ensures text[11..16] == "/5 - "
    ensures text[10] as int - '0' as int == strength
    ensures text[16..] == feedback
  {
    "Strength: " + [('0' as int + strength) as char] + "/5 - " + feedback
  }

  /** The generator window's state: the user's settings and what it displays. */
  class PasswordGenerator {
    var selection: Selection
    var length: int
    var password: string
    var strengthText: string
    var strengthColour: string

    /** A fresh window: every set ticked, length 12, nothing generated yet. */
    constructor ()
      ensures selection == ALL_SELECTED && length == DEFAULT_LENGTH
      ensures password == "" && strengthText == "Strength: N/A" && strengthColour == ""
    {
      selection := ALL_SELECTED;
      length := DEFAULT_LENGTH;
      password := "";
      strengthText := "Strength: N/A";
      strengthColour := "";
    }

    /**
     * The "Generate Password" action. With nothing ticked it reports an error
     * and changes nothing; otherwise it shows a fresh password drawn from the
     * pool, its score and feedback, and the colour for the score.
     */
    method GeneratePassword() returns (error: Option<string>)
      modifies this
      ensures selection == old(selection) && length == old(length)
      ensures !selection.AnySelected() ==>
                && error == Some(NO_CHARACTER_TYPE)
                && password == old(password)
                && strengthText == old(strengthText)
                && strengthColour == old(strengthColour)
      ensures selection.AnySelected() ==>
                && error == None
                && |password| == (if length < 0 then 0 else length)
                && (forall i :: 0 <= i < |password| ==> password[i] in CharPool(selection))
                && strengthText == StrengthText(Score(password), Feedback(password))
                && strengthColour == StrengthColour(Score(password))
    {
      var pool := CharPool(selection);
      if pool == [] {
        return Some(NO_CHARACTER_TYPE);
      }
      var generated := DrawPassword(pool, length);
      password := generated;
      var strength, feedback := CalculateStrength(generated);
      strengthText := StrengthText(strength, feedback);
      strengthColour := StrengthColour(strength);
      error := None;
    }
  }
}
