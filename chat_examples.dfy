/** A worked example of the sentiment rule on a concrete message. The example
    lowers its message once and then settles every lexicon entry with a
    witness position or a character the message lacks. */
module ChatExamples {
  import opened Text
  import opened OmexaChat

  /** Repeating a word does not count it twice: one "happy" entry against one
      "sad" entry is a tie. The message is a parameter fixed by `requires`
      rather than a literal in the `ensures`: as a literal the solver expands
      every character of it against every lexicon entry at once. */
  lemma RepeatedWordCountsOnce(text: string)
    requires text == "happy happy sad"
    ensures AnalyzeSentiment(text) == Neutral
  {
    LowerIsLower(text);
    RepeatedWordPositive(text);
    RepeatedWordNegative(text);
  }

  /** Of the positive entries only "happy" occurs in the repeated-word message, from entry 5 on. */
  lemma RepeatedWordPositiveFrom5(s: string)
    requires s == "happy happy sad"
    ensures CountMatches(PositiveWords[5..], s) == 0
  {
    AbsentChar(s, "love", 0);
    AbsentChar(s, "excited", 0);
    AbsentChar(s, "joy", 0);
    AbsentChar(s, "wonderful", 0);
    AbsentChar(s, "fantastic", 0);
    assert CountMatches(PositiveWords[10..], s) == 0;
    assert PositiveWords[9..][1..] == PositiveWords[10..];
    assert CountMatches(PositiveWords[9..], s) == 0;
    assert PositiveWords[8..][1..] == PositiveWords[9..];
    assert CountMatches(PositiveWords[8..], s) == 0;
    assert PositiveWords[7..][1..] == PositiveWords[8..];
    assert CountMatches(PositiveWords[7..], s) == 0;
    assert PositiveWords[6..][1..] == PositiveWords[7..];
    assert CountMatches(PositiveWords[6..], s) == 0;
    assert PositiveWords[5..][1..] == PositiveWords[6..];
    assert CountMatches(PositiveWords[5..], s) == 0;
  }

  /** Of the positive entries only "happy" occurs in the repeated-word message. */
  lemma RepeatedWordPositive(s: string)
    requires s == "happy happy sad"
    ensures CountMatches(PositiveWords, s) == 1
  {
    RepeatedWordPositiveFrom5(s);
    FoundAt(s, "happy", 0);
    AbsentChar(s, "great", 0);
    AbsentChar(s, "good", 0);
    AbsentChar(s, "excellent", 0);
    AbsentChar(s, "amazing", 1);
    assert CountMatches(PositiveWords[5..], s) == 0;
    assert PositiveWords[4..][1..] == PositiveWords[5..];
    assert CountMatches(PositiveWords[4..], s) == 0;
    assert PositiveWords[3..][1..] == PositiveWords[4..];
    assert CountMatches(PositiveWords[3..], s) == 0;
    assert PositiveWords[2..][1..] == PositiveWords[3..];
    assert CountMatches(PositiveWords[2..], s) == 0;
    assert PositiveWords[1..][1..] == PositiveWords[2..];
    assert CountMatches(PositiveWords[1..], s) == 0;
    assert PositiveWords[0..][1..] == PositiveWords[1..];
    assert CountMatches(PositiveWords[0..], s) == 1;
    assert PositiveWords[0..] == PositiveWords;
  }

  /** Of the negative entries only "sad" occurs in the repeated-word message, from entry 10 on. */
  lemma RepeatedWordNegativeFrom10(s: string)
    requires s == "happy happy sad"
    ensures CountMatches(NegativeWords[10..], s) == 0
  {
    AbsentChar(s, "depressed", 1);
    AbsentChar(s, "angry", 1);
    AbsentChar(s, "upset", 0);
    assert CountMatches(NegativeWords[13..], s) == 0;
    assert NegativeWords[12..][1..] == NegativeWords[13..];
    assert CountMatches(NegativeWords[12..], s) == 0;
    assert NegativeWords[11..][1..] == NegativeWords[12..];
    assert CountMatches(NegativeWords[11..], s) == 0;
    assert NegativeWords[10..][1..] == NegativeWords[11..];
    assert CountMatches(NegativeWords[10..], s) == 0;
  }

  /** Of the negative entries only "sad" occurs in the repeated-word message, from entry 5 on. */
  lemma RepeatedWordNegativeFrom5(s: string)
    requires s == "happy happy sad"
    ensures CountMatches(NegativeWords[5..], s) == 0
  {
    RepeatedWordNegativeFrom10(s);
    AbsentChar(s, "scared", 1);
    AbsentChar(s, "nervous", 0);
    AbsentChar(s, "anxious", 1);
    AbsentChar(s, "afraid", 1);
    AbsentChar(s, "stressed", 1);
    assert CountMatches(NegativeWords[10..], s) == 0;
    assert NegativeWords[9..][1..] == NegativeWords[10..];
    assert CountMatches(NegativeWords[9..], s) == 0;
    assert NegativeWords[8..][1..] == NegativeWords[9..];
    assert CountMatches(NegativeWords[8..], s) == 0;
    assert NegativeWords[7..][1..] == NegativeWords[8..];
    assert CountMatches(NegativeWords[7..], s) == 0;
    assert NegativeWords[6..][1..] == NegativeWords[7..];
    assert CountMatches(NegativeWords[6..], s) == 0;
    assert NegativeWords[5..][1..] == NegativeWords[6..];
    assert CountMatches(NegativeWords[5..], s) == 0;
  }

  /** Of the negative entries only "sad" occurs in the repeated-word message. */
  lemma RepeatedWordNegative(s: string)
    requires s == "happy happy sad"
    ensures CountMatches(NegativeWords, s) == 1
  {
    RepeatedWordNegativeFrom5(s);
    FoundAt(s, "sad", 12);
    AbsentChar(s, "bad", 0);
    AbsentChar(s, "terrible", 0);
    AbsentChar(s, "awful", 1);
    AbsentChar(s, "worried", 0);
    assert CountMatches(NegativeWords[5..], s) == 0;
    assert NegativeWords[4..][1..] == NegativeWords[5..];
    assert CountMatches(NegativeWords[4..], s) == 0;
    assert NegativeWords[3..][1..] == NegativeWords[4..];
    assert CountMatches(NegativeWords[3..], s) == 0;
    assert NegativeWords[2..][1..] == NegativeWords[3..];
    assert CountMatches(NegativeWords[2..], s) == 0;
    assert NegativeWords[1..][1..] == NegativeWords[2..];
    assert CountMatches(NegativeWords[1..], s) == 0;
    assert NegativeWords[0..][1..] == NegativeWords[1..];
    assert CountMatches(NegativeWords[0..], s) == 1;
    assert NegativeWords[0..] == NegativeWords;
  }

}
