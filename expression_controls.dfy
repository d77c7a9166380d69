/** The expression buttons: each click resets every listed expression, then raises one. */
module ExpressionControls {
  import opened Expressions

  /** The sixteen expressions the handler resets, in the order it resets them. */
  const ExpressionNames: seq<string> := [
    "smile", "angry", "sad", "idle", "happy", "surprised", "fun", "joy",
    "blink", "blink_L", "blink_R", "a", "i", "u", "e", "o"]

  /** The names the sixteen buttons pass to the handler, in display order. */
  const ButtonNames: seq<string> := ExpressionNames

  /**
   * `handleExpressionChange(expressionName)`: with an expression manager, sets each of
   * the sixteen names to 0 and then the chosen one to 1; without one, does nothing.
   */
  method HandleExpressionChange(vrm: Vrm, expressionName: string)
    modifies vrm.expressionManager
    ensures vrm.expressionManager != null ==>
      vrm.expressionManager.weights == ResetThenSet(old(vrm.expressionManager.weights), ExpressionNames, expressionName)
    ensures vrm.expressionManager == null ==> unchanged(vrm)
  {
    var expressionManager := vrm.expressionManager;
    if expressionManager != null {
      ghost var w0 := expressionManager.weights;
      // The source writes the sixteen `setValue(name, 0)` calls out one by one, in list order.
      ResetNone(w0, ExpressionNames);
      for j := 0 to |ExpressionNames|
        invariant expressionManager.weights == ResetAll(w0, ExpressionNames[..j])
      {
        expressionManager.SetValue(ExpressionNames[j], 0.0);
        ResetNext(w0, ExpressionNames, j);
      }
      assert ExpressionNames[..|ExpressionNames|] == ExpressionNames;
      expressionManager.SetValue(expressionName, 1.0);
    }
  }

  /**
   * After a click on a button whose name the avatar registers, that expression is 1 and the
   * only one of the sixteen left nonzero. When the avatar lacks the name, `setValue` ignores
   * it, and all sixteen registered expressions end at 0.
   */
  lemma ClickLeavesOneNonzero(w: Weights, button: nat)
    requires button < |ButtonNames|
    ensures var r := ResetThenSet(w, ExpressionNames, ButtonNames[button]);
      && (ButtonNames[button] in w ==> r[ButtonNames[button]] == 1.0)
      && forall k :: k in ExpressionNames && k in r ==> (r[k] != 0.0 <==> k == ButtonNames[button])
  {
    var chosen := ButtonNames[button];
    ResetThenSetEffect(w, ExpressionNames, chosen);
    if chosen in w {
      ResetThenSetSingleNonzero(w, ExpressionNames, chosen);
    }
  }

  /** Clicking the same button twice leaves the same weights as clicking it once. */
  lemma ClickTwiceIsClickOnce(w: Weights, button: nat)
    requires button < |ButtonNames|
    ensures ResetThenSet(ResetThenSet(w, ExpressionNames, ButtonNames[button]), ExpressionNames, ButtonNames[button])
         == ResetThenSet(w, ExpressionNames, ButtonNames[button])
  {
    ResetThenSetIdempotent(w, ExpressionNames, ButtonNames[button]);
  }
}
