/** The vowel buttons: each click resets the five vowel shapes, then raises one. */
module VoiceExpressionControls {
  import opened Expressions

  /** The five vowel expressions the handler resets, in the order it resets them. */
  const VowelNames: seq<string> := ["a", "i", "u", "e", "o"]

  /** The names the five buttons pass to the handler, in display order. */
  const ButtonNames: seq<string> := VowelNames

  /**
   * `handleVoiceExpressionChange(expressionName)`: with an expression manager, sets the
   * five vowels to 0 and then the chosen name to 1; without one, does nothing.
   */
  method HandleVoiceExpressionChange(vrm: Vrm, expressionName: string)
    modifies vrm.expressionManager
    ensures vrm.expressionManager != null ==>
      vrm.expressionManager.weights == ResetThenSet(old(vrm.expressionManager.weights), VowelNames, expressionName)
    ensures vrm.expressionManager == null ==> unchanged(vrm)
  {
    var expressionManager := vrm.expressionManager;
    if expressionManager != null {
      ghost var w0 := expressionManager.weights;
      // The source writes the five `setValue(vowel, 0)` calls out one by one, in list order.
      ResetNone(w0, VowelNames);
      for j := 0 to |VowelNames|
        invariant expressionManager.weights == ResetAll(w0, VowelNames[..j])
      {
        expressionManager.SetValue(VowelNames[j], 0.0);
        ResetNext(w0, VowelNames, j);
      }
      assert VowelNames[..|VowelNames|] == VowelNames;
      expressionManager.SetValue(expressionName, 1.0);
    }
  }

  /**
   * A vowel click leaves the chosen vowel at 1 when the avatar registers it, the other
   * four at 0, and every non-vowel (e.g. `smile`) as it was.
   */
  lemma VowelClickEffect(w: Weights, button: nat)
    requires button < |ButtonNames|
    ensures var r := ResetThenSet(w, VowelNames, ButtonNames[button]);
      && r.Keys == w.Keys
      && (ButtonNames[button] in w ==> r[ButtonNames[button]] == 1.0)
      && (forall k :: k in VowelNames && k in r && k != ButtonNames[button] ==> r[k] == 0.0)
      && (forall k :: k in w && k !in VowelNames ==> r[k] == w[k])
  {
    ResetThenSetEffect(w, VowelNames, ButtonNames[button]);
  }

  /** Clicking the same vowel twice leaves the same weights as clicking it once. */
  lemma VowelClickTwiceIsClickOnce(w: Weights, button: nat)
    requires button < |ButtonNames|
    ensures ResetThenSet(ResetThenSet(w, VowelNames, ButtonNames[button]), VowelNames, ButtonNames[button])
         == ResetThenSet(w, VowelNames, ButtonNames[button])
  {
    ResetThenSetIdempotent(w, VowelNames, ButtonNames[button]);
  }
}
