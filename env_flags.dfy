/** Boolean switches read from the process environment. */
module EnvFlags {
  import opened Text

  /** The spellings that switch a flag on, after lower-casing. */
  const TrueWords: set<string> := {"true", "1", "yes"}

  /**
   * Independent reading of "equal up to case": each character is the word's own
   * character, or the upper-case form of a word letter.
   */
  predicate SameIgnoringCase(v: string, word: string) {
    && |v| == |word|
    && forall i :: 0 <= i < |v| ==>
         v[i] == word[i] || ('a' <= word[i] <= 'z' && v[i] as int == word[i] as int - 32)
  }

  predicate IsTrueSpelling(v: string) {
    SameIgnoringCase(v, "true") || SameIgnoringCase(v, "1") || SameIgnoringCase(v, "yes")
  }

  /** A word of lower-case letters and digits. */
  predicate IsLowerWord(word: string) {
    forall i :: 0 <= i < |word| ==> ('a' <= word[i] <= 'z') || IsDigit(word[i])
  }

  lemma LowerIsSameIgnoringCase(v: string, word: string)
    requires IsLowerWord(word)
    ensures Lower(v) == word <==> SameIgnoringCase(v, word)
  {
    if Lower(v) == word {
      forall i | 0 <= i < |v|
        ensures v[i] == word[i] || ('a' <= word[i] <= 'z' && v[i] as int == word[i] as int - 32)
      {
        assert LowerChar(v[i]) == word[i];
      }
    }
    if SameIgnoringCase(v, word) {
      forall i | 0 <= i < |v| ensures Lower(v)[i] == word[i] {
        assert LowerChar(v[i]) == word[i];
      }
    }
  }

  /**
   * The flag's value: the default when the variable is unset, otherwise whether its
   * value spells true, 1 or yes in any mix of case, whatever the default.
   */
  function GetEnvBool(env: map<string, string>, name: string, default: bool): (r: bool)
    ensures name !in env ==> r == default
    ensures name in env ==> (r <==> IsTrueSpelling(env[name]))
  {
    if name !in env then default
    else
      LowerIsSameIgnoringCase(env[name], "true");
      LowerIsSameIgnoringCase(env[name], "1");
      LowerIsSameIgnoringCase(env[name], "yes");
      Lower(env[name]) in TrueWords
  }

  lemma EnvFlagUnsetExample(default: bool)
    ensures GetEnvBool(map[], "NONEXISTENT_VAR", default) == default
  {
  }

  lemma EnvFlagTrueExamples()
    ensures GetEnvBool(map["TEST_VAR" := "TRUE"], "TEST_VAR", false)
    ensures GetEnvBool(map["TEST_VAR" := "True"], "TEST_VAR", false)
    ensures GetEnvBool(map["TEST_VAR" := "YES"], "TEST_VAR", false)
    ensures GetEnvBool(map["TEST_VAR" := "1"], "TEST_VAR", false)
  {
    assert SameIgnoringCase("TRUE", "true");
    assert SameIgnoringCase("True", "true");
    assert SameIgnoringCase("YES", "yes");
  }

  lemma EnvFlagFalseExamples()
    ensures !GetEnvBool(map["TEST_VAR" := "False"], "TEST_VAR", true)
    ensures !GetEnvBool(map["TEST_VAR" := "0"], "TEST_VAR", true)
    ensures !GetEnvBool(map["TEST_VAR" := "anything"], "TEST_VAR", true)
  {
    assert "False"[0] != "true"[0] && "False"[0] as int != "true"[0] as int - 32;
    assert "0"[0] != "1"[0];
  }
}
