/**
 * Canonical model identity: a bare model name gains a "provider/" prefix chosen by
 * the first entry of an ordered prefix table that the name starts with.
 */
module ModelIds {
  import opened Wrappers

  /** The prefix table, in the order it is tried. */
  const ProviderPrefixes: seq<(string, string)> := [
    ("claude-", "anthropic"),
    ("gpt-", "openai"),
    ("o1", "openai"),
    ("o3", "openai"),
    ("gemini-", "google")]

  /** Index of the first entry at or after `from` whose prefix starts `model`. */
  function FirstMatch(table: seq<(string, string)>, model: string, from: nat := 0): (r: Option<nat>)
    requires from <= |table|
    ensures r.Some? ==> from <= r.value < |table| && table[r.value].0 <= model
    ensures r.Some? ==> forall j :: from <= j < r.value ==> !(table[j].0 <= model)
    ensures r.None? ==> forall j :: from <= j < |table| ==> !(table[j].0 <= model)
    decreases |table| - from
  {
    if from == |table| then None
    else if table[from].0 <= model then Some(from)
    else FirstMatch(table, model, from + 1)
  }

  /** Normalize a model id to provider/model form. */
  function NormalizeModelId(model: Option<string>): (r: Option<string>)
    ensures r.None? <==> !Truthy(model)
    ensures r.Some? ==>
      (r == model || (|model.value| < |r.value| && r.value[|r.value| - |model.value|..] == model.value && '/' in r.value))
  {
    if !Truthy(model) then None
    else if '/' in model.value then model
    else match FirstMatch(ProviderPrefixes, model.value)
      case Some(i) => Some(ProviderPrefixes[i].1 + "/" + model.value)
      case None => model
  }

  /** The result for a model id the table recognises, the one it does not, and one already qualified. */
  lemma NormalizeCases(model: string)
    requires model != ""
    ensures '/' in model ==> NormalizeModelId(Some(model)) == Some(model)
    ensures '/' !in model && FirstMatch(ProviderPrefixes, model).None? ==>
      NormalizeModelId(Some(model)) == Some(model)
    ensures '/' !in model && FirstMatch(ProviderPrefixes, model).Some? ==>
      var i := FirstMatch(ProviderPrefixes, model).value;
      NormalizeModelId(Some(model)) == Some(ProviderPrefixes[i].1 + "/" + model)
  {
  }

  /** No name starts with two prefixes of the table, so the table's order never decides. */
  lemma {:induction false} PrefixesExclusive(model: string, i: nat, j: nat)
    requires i < j < |ProviderPrefixes|
    ensures !(ProviderPrefixes[i].0 <= model && ProviderPrefixes[j].0 <= model)
  {
    // the second characters of the five prefixes are pairwise different
    assert i == 0 || i == 1 || i == 2 || i == 3;
    assert j == 1 || j == 2 || j == 3 || j == 4;
    assert ProviderPrefixes[i].0[1] != ProviderPrefixes[j].0[1];
  }

  /** Whichever entry a name starts with is the one the search finds. */
  lemma MatchIsFirstMatch(model: string, i: nat)
    requires i < |ProviderPrefixes| && ProviderPrefixes[i].0 <= model
    ensures FirstMatch(ProviderPrefixes, model) == Some(i)
  {
    var r := FirstMatch(ProviderPrefixes, model);
    if r.value < i { PrefixesExclusive(model, r.value, i); }
  }

  /** The provider is prepended once: one slash, the provider before it, the name after it. */
  lemma {:induction false} ProviderPrependedOnce(model: string)
    requires model != "" && '/' !in model
    requires FirstMatch(ProviderPrefixes, model).Some?
    ensures var provider := ProviderPrefixes[FirstMatch(ProviderPrefixes, model).value].1;
      var r := NormalizeModelId(Some(model)).value;
      && r == provider + "/" + model
      && '/' !in provider
      && r[|provider| + 1..] == model
      && (forall k :: 0 <= k < |r| && r[k] == '/' ==> k == |provider|)
  {
    var i := FirstMatch(ProviderPrefixes, model).value;
    var provider := ProviderPrefixes[i].1;
    assert '/' !in provider;
    var r := provider + "/" + model;
    forall k | 0 <= k < |r| && k != |provider| ensures r[k] != '/' {
      if k < |provider| { assert r[k] == provider[k]; }
      else { assert r[k] == model[k - |provider| - 1]; }
    }
  }

  /** Normalizing twice is normalizing once. */
  lemma NormalizeIdempotent(model: Option<string>)
    ensures NormalizeModelId(NormalizeModelId(model)) == NormalizeModelId(model)
  {
    var r := NormalizeModelId(model);
    if r.Some? && r != model {
      var i := FirstMatch(ProviderPrefixes, model.value).value;
      assert r.value == ProviderPrefixes[i].1 + "/" + model.value;
      assert r.value[|ProviderPrefixes[i].1|] == '/';
    }
  }

  /** A name the table recognises gains exactly its entry's provider. */
  lemma NormalizeRecognised(model: string, i: nat)
    requires '/' !in model
    requires i < |ProviderPrefixes| && ProviderPrefixes[i].0 <= model
    ensures NormalizeModelId(Some(model)) == Some(ProviderPrefixes[i].1 + "/" + model)
  {
    MatchIsFirstMatch(model, i);
  }

  lemma NormalizeAnthropicExample()
    ensures NormalizeModelId(Some("claude-sonnet-4-20250514")) == Some("anthropic/claude-sonnet-4-20250514")
  {
    NormalizeRecognised("claude-sonnet-4-20250514", 0);
    assert "anthropic" + "/" + "claude-sonnet-4-20250514" == "anthropic/claude-sonnet-4-20250514";
  }

  lemma NormalizeGptExample()
    ensures NormalizeModelId(Some("gpt-4o")) == Some("openai/gpt-4o")
  {
    NormalizeRecognised("gpt-4o", 1);
    assert "openai" + "/" + "gpt-4o" == "openai/gpt-4o";
  }

  lemma NormalizeReasoningModelExample()
    ensures NormalizeModelId(Some("o1-preview")) == Some("openai/o1-preview")
  {
    NormalizeRecognised("o1-preview", 2);
    assert "openai" + "/" + "o1-preview" == "openai/o1-preview";
  }

  lemma NormalizeGoogleExample()
    ensures NormalizeModelId(Some("gemini-pro")) == Some("google/gemini-pro")
  {
    NormalizeRecognised("gemini-pro", 4);
    assert "google" + "/" + "gemini-pro" == "google/gemini-pro";
  }

  lemma NormalizePassThroughExamples()
    ensures NormalizeModelId(Some("some-other-model")) == Some("some-other-model")
    ensures NormalizeModelId(Some("anthropic/claude-opus-4")) == Some("anthropic/claude-opus-4")
    ensures NormalizeModelId(Some("")) == None && NormalizeModelId(None) == None
  {
    forall j | 0 <= j < |ProviderPrefixes| ensures !(ProviderPrefixes[j].0 <= "some-other-model") {
      assert j == 0 || j == 1 || j == 2 || j == 3 || j == 4;
      assert ProviderPrefixes[j].0[0] != 's';
    }
  }
}
