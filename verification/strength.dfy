/**
 * The password strength analyser: a password gets up to two points for its
 * length and one point for each of four character classes it contains, and
 * the total is clamped to 0..5. Beside the score it reports a line of
 * feedback: the length verdict followed by one message per class found, in
 * the fixed order uppercase, lowercase, digits, special characters.
 */
module StrengthAnalyzer {
  import opened Joining

  /** The character classes the analyser searches for, one regular expression each. */
  datatype CharClass = Uppercase | Lowercase | Digit | Special

  /** The characters of the bracket expression `[!@#$%^&*(),.?":{}|<>]`. */
  const SPECIAL_CHARACTERS: string := "!@#$%^&*(),.?\":{}|<>"

  /** Whether `c` matches the single-character pattern of class `k`. */
  predicate InClass(k: CharClass, c: char)
  {
    match k
    case Uppercase => 'A' <= c <= 'Z'
    case Lowercase => 'a' <= c <= 'z'
    case Digit => '0' <= c <= '9'
    case Special => c in SPECIAL_CHARACTERS
  }

  /** One entry of the analyser's check table: a pattern and the message it earns. */
  datatype Check = Check(cls: CharClass, message: string)

  /** The check table, in the order the analyser runs it. */
  const CHECKS: seq<Check> := [
    Check(Uppercase, "Contains uppercase letters"),
    Check(Lowercase, "Contains lowercase letters"),
    Check(Digit, "Contains digits"),
    Check(Special, "Contains special characters")
  ]

  const NO_PASSWORD: string := "No password provided"
  const TOO_SHORT: string := "Too short (less than 8 characters)"
  const MODERATE_LENGTH: string := "Moderate length"
  const GOOD_LENGTH: string := "Good length"

  /** The highest score the analyser reports. */
  const MAX_STRENGTH: int := 5

  /** The message the analyser attaches to class `k` in its check table. */
  function ClassMessage(k: CharClass): string
  {
    match k
    case Uppercase => CHECKS[0].message
    case Lowercase => CHECKS[1].message
    case Digit => CHECKS[2].message
    case Special => CHECKS[3].message
  }

  /** Points earned by a password of `n` characters. */
  function LengthPoints(n: nat): int
  {
    if n < 8 then 0 else if n >= 12 then 2 else 1
  }

  /** The length verdict for a password of `n` characters. */
  function LengthMessage(n: nat): string
  {
    if n < 8 then TOO_SHORT else if n >= 12 then GOOD_LENGTH else MODERATE_LENGTH
  }

  /** Some character of `p` belongs to class `k`. */
  predicate Present(k: CharClass, p: string)
  {
    exists i :: 0 <= i < |p| && InClass(k, p[i])
  }

  /**
   * `re.search(pattern, s)` for a pattern that is one character class: it
   * succeeds exactly when some character of `s` is in the class.
   */
  function Search(k: CharClass, s: string): (found: bool)
    ensures found <==> Present(k, s)
  {
    if s == [] then false
    else if InClass(k, s[0]) then true
    else
      var rest := Search(k, s[1..]);
      assert forall i :: 1 <= i < |s| ==> s[i] == s[1..][i - 1];
      rest
  }

  /** The messages of those checks in `checks` whose class occurs in `p`, in table order. */
  function Matched(checks: seq<Check>, p: string): seq<string>
  {
    if checks == [] then []
    else
      var last := checks[|checks| - 1];
      Matched(checks[..|checks| - 1], p) + (if Present(last.cls, p) then [last.message] else [])
  }

  /** The feedback items of a non-empty password: the length verdict, then the matched classes. */
  function FeedbackItems(p: string): seq<string>
  {
    [LengthMessage(|p|)] + Matched(CHECKS, p)
  }

  /** The feedback line the analyser returns for `p`. */
  function Feedback(p: string): string
  {
    if p == [] then NO_PASSWORD else Join(FeedbackItems(p))
  }

  /** `min(max(x, lo), hi)`. */
  function Clamp(x: int, lo: int, hi: int): int
  {
    if x < lo then lo else if x > hi then hi else x
  }

  /** The score the analyser returns for `p`. */
  function Score(p: string): (r: int)
    ensures 0 <= r <= MAX_STRENGTH
    ensures p == [] ==> r == 0
  {
    if p == [] then 0 else Clamp(LengthPoints(|p|) + |Matched(CHECKS, p)|, 0, MAX_STRENGTH)
  }

  /**
   * The analyser itself: an accumulator for the score and a growing list of
   * messages, a length check, a pass over the check table, then the clamp and
   * the join.
   */
  method CalculateStrength(password: string) returns (strength: int, feedback: string)
    ensures strength == Score(password)
    ensures feedback == Feedback(password)
    ensures password == [] ==> strength == 0 && feedback == NO_PASSWORD
  {
    if password == [] {
      return 0, NO_PASSWORD;
    }
    strength := 0;
    var items: seq<string> := [];

    if |password| < 8 {
      items := items + [TOO_SHORT];
    } else if |password| >= 12 {
      strength := strength + 2;
      items := items + [GOOD_LENGTH];
    } else {
      strength := strength + 1;
      items := items + [MODERATE_LENGTH];
    }

    var i := 0;
    while i < |CHECKS|
      invariant 0 <= i <= |CHECKS|
      invariant strength == LengthPoints(|password|) + |Matched(CHECKS[..i], password)|
      invariant items == [LengthMessage(|password|)] + Matched(CHECKS[..i], password)
    {
      var check := CHECKS[i];
      if Search(check.cls, password) {
        strength := strength + 1;
        items := items + [check.message];
      }
      assert CHECKS[..i + 1][..i] == CHECKS[..i];
      i := i + 1;
    }
    assert CHECKS[..|CHECKS|] == CHECKS;

    // The raw total is never negative, so only the upper bound of the clamp can bite.
    assert strength >= 0;
    strength := Clamp(strength, 0, MAX_STRENGTH);
    feedback := Join(items);
  }

  // ---------------------------------------------------------------------------
  // Properties of the analyser
  // ---------------------------------------------------------------------------

  /** 1 for a class that occurs, 0 for one that does not. */
  function Indicator(b: bool): nat
  {
    if b then 1 else 0
  }

  /** How many of the four classes occur in `p`. */
  function ClassCount(p: string): nat
  {
    Indicator(Present(Uppercase, p)) + Indicator(Present(Lowercase, p))
      + Indicator(Present(Digit, p)) + Indicator(Present(Special, p))
  }

  /** The class messages for `p`, written out check by check. */
  function ClassMessagesInOrder(p: string): seq<string>
  {
    (if Present(Uppercase, p) then [ClassMessage(Uppercase)] else [])
      + (if Present(Lowercase, p) then [ClassMessage(Lowercase)] else [])
      + (if Present(Digit, p) then [ClassMessage(Digit)] else [])
      + (if Present(Special, p) then [ClassMessage(Special)] else [])
  }

  /**
   * The pass over the check table reports the classes of `p` in the order
   * uppercase, lowercase, digits, special characters, each exactly when it occurs.
   */
  lemma MatchedChecksInOrder(p: string)
    ensures Matched(CHECKS, p) == ClassMessagesInOrder(p)
    ensures |Matched(CHECKS, p)| == ClassCount(p)
  {
    assert CHECKS[..1][..0] == [];
    assert CHECKS[..2][..1] == CHECKS[..1];
    assert CHECKS[..3][..2] == CHECKS[..2];
    assert CHECKS[..3] == CHECKS[..|CHECKS| - 1];
    assert Matched(CHECKS[..1], p) == (if Present(Uppercase, p) then [ClassMessage(Uppercase)] else []);
    assert Matched(CHECKS[..2], p) == Matched(CHECKS[..1], p)
      + (if Present(Lowercase, p) then [ClassMessage(Lowercase)] else []);
    assert Matched(CHECKS[..3], p) == Matched(CHECKS[..2], p)
      + (if Present(Digit, p) then [ClassMessage(Digit)] else []);
  }

  /**
   * The score of a password is its length points plus one point per class
   * found, capped at 5 (the empty password scores 0 either way); the raw total is never negative, so the lower
   * clamp never applies.
   */
  lemma ScoreComposition(p: string)
    ensures LengthPoints(|p|) + ClassCount(p) >= 0
    ensures Score(p) == if LengthPoints(|p|) + ClassCount(p) > MAX_STRENGTH then MAX_STRENGTH
                        else LengthPoints(|p|) + ClassCount(p)
  {
    MatchedChecksInOrder(p);
  }

  /** A password has the top score exactly when it is long and varied enough. */
  lemma TopScore(p: string)
    ensures Score(p) == MAX_STRENGTH <==>
              (|p| >= 12 && ClassCount(p) >= 3) || (8 <= |p| < 12 && ClassCount(p) == 4)
  {
    if p != [] {
      ScoreComposition(p);
    }
  }

  /** The feedback of a non-empty password: the length verdict, then the classes found in order. */
  lemma FeedbackInOrder(p: string)
    requires p != []
    ensures Feedback(p) == Join([LengthMessage(|p|)] + ClassMessagesInOrder(p))
  {
    MatchedChecksInOrder(p);
  }

  /** `s` has no comma. */
  predicate NoComma(s: string)
  {
    forall j :: 0 <= j < |s| ==> s[j] != ','
  }

  /** No length verdict contains a comma. */
  lemma LengthMessagesHaveNoComma(n: nat)
    ensures NoComma(LengthMessage(n))
  {
  }

  /** No class message contains a comma. */
  lemma ClassMessagesHaveNoComma(k: CharClass)
    ensures NoComma(ClassMessage(k))
  {
  }

  /** No feedback item contains a comma, so joining them loses nothing. */
  lemma FeedbackItemsCommaFree(p: string)
    ensures CommaFree(FeedbackItems(p))
  {
    MatchedChecksInOrder(p);
    var items := FeedbackItems(p);
    LengthMessagesHaveNoComma(|p|);
    forall k: CharClass {
      ClassMessagesHaveNoComma(k);
    }
    forall i | 0 <= i < |items| ensures NoComma(items[i]) {
      assert items[i] in items;
    }
  }

  /** The class messages differ from each other and from every length verdict. */
  lemma MessagesDistinct(n: nat, k: CharClass, k': CharClass)
    ensures ClassMessage(k) != LengthMessage(n)
    ensures ClassMessage(k) == ClassMessage(k') ==> k == k'
  {
  }

  /** A class's message is among the feedback items of a non-empty password exactly when the class occurs. */
  lemma ClassReported(p: string, k: CharClass)
    requires p != []
    ensures ClassMessage(k) in FeedbackItems(p) <==> Present(k, p)
  {
    MatchedChecksInOrder(p);
    MessagesDistinct(|p|, k, Uppercase);
    MessagesDistinct(|p|, k, Lowercase);
    MessagesDistinct(|p|, k, Digit);
    MessagesDistinct(|p|, k, Special);
  }

  /**
   * Splitting the feedback of a non-empty password at ", " gives back its
   * items: first the length verdict, then the message of every class found
   * and of no other.
   */
  lemma FeedbackReadsBack(p: string, k: CharClass)
    requires p != []
    ensures Split(Feedback(p)) == FeedbackItems(p)
    ensures Split(Feedback(p))[0] == LengthMessage(|p|)
    ensures ClassMessage(k) in Split(Feedback(p)) <==> Present(k, p)
  {
    FeedbackItemsCommaFree(p);
    SplitJoin(FeedbackItems(p));
    ClassReported(p, k);
  }

  /** The "No password provided" feedback is given to the empty password and to no other. */
  lemma NoPasswordOnlyForEmpty(p: string)
    ensures Feedback(p) == NO_PASSWORD <==> p == []
  {
    if p != [] {
      assert Feedback(p)[0] == LengthMessage(|p|)[0];
    }
  }
}
