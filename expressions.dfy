/**
 * The avatar's expression manager: a table of named blend weights.
 *
 * `setValue(name, weight)` writes the weight of a registered expression; a name the
 * avatar does not define is silently ignored. The table's domain is therefore the set
 * of registered expression names, and it never changes.
 */
module Expressions {

  type Weights = map<string, real>

  /** The weight table after `setValue(name, v)`. */
  function WithValue(w: Weights, name: string, v: real): (r: Weights)
    ensures r.Keys == w.Keys
    ensures name in w ==> r[name] == v
    ensures forall k :: k in w && k != name ==> r[k] == w[k]
  {
    if name in w then w[name := v] else w
  }

  /** The table after `setValue(n, 0)` for every `n` of `names`. */
  function ResetAll(w: Weights, names: seq<string>): (r: Weights)
  {
    map k | k in w :: if k in names then 0.0 else w[k]
  }

  /** The table after `setValue(n, 0)` for every `n` of `names`, then `setValue(chosen, 1)`. */
  function ResetThenSet(w: Weights, names: seq<string>, chosen: string): (r: Weights)
  {
    WithValue(ResetAll(w, names), chosen, 1.0)
  }

  /** Resetting no name leaves the table as it was. */
  lemma ResetNone(w: Weights, names: seq<string>)
    ensures ResetAll(w, names[..0]) == w
  {
  }

  /** Resetting the next name of a list extends a reset of the names before it. */
  lemma ResetNext(w: Weights, names: seq<string>, k: nat)
    requires k < |names|
    ensures WithValue(ResetAll(w, names[..k]), names[k], 0.0) == ResetAll(w, names[..k + 1])
  {
    var l := WithValue(ResetAll(w, names[..k]), names[k], 0.0);
    var r := ResetAll(w, names[..k + 1]);
    assert names[..k + 1] == names[..k] + [names[k]];
    assert l.Keys == r.Keys;
    forall x | x in l ensures l[x] == r[x] {
      assert x in names[..k + 1] <==> x in names[..k] || x == names[k];
    }
  }

  /** What a reset-then-set handler promises about the table it leaves. */
  lemma ResetThenSetEffect(w: Weights, names: seq<string>, chosen: string)
    ensures ResetThenSet(w, names, chosen).Keys == w.Keys
    ensures chosen in w ==> ResetThenSet(w, names, chosen)[chosen] == 1.0
    ensures forall k :: k in w && k in names && k != chosen ==> ResetThenSet(w, names, chosen)[k] == 0.0
    ensures forall k :: k in w && k !in names && k != chosen ==> ResetThenSet(w, names, chosen)[k] == w[k]
  {
  }

  /** The result does not depend on the old weights of listed names: two identical clicks equal one. */
  lemma ResetThenSetIdempotent(w: Weights, names: seq<string>, chosen: string)
    requires chosen in names
    ensures ResetThenSet(ResetThenSet(w, names, chosen), names, chosen) == ResetThenSet(w, names, chosen)
  {
    var once := ResetThenSet(w, names, chosen);
    var twice := ResetThenSet(once, names, chosen);
    assert twice.Keys == once.Keys;
    forall k | k in once ensures twice[k] == once[k] {
    }
  }

  /** When the chosen name is listed and registered, it is the only listed name left nonzero. */
  lemma ResetThenSetSingleNonzero(w: Weights, names: seq<string>, chosen: string)
    requires chosen in names && chosen in w
    ensures var r := ResetThenSet(w, names, chosen);
      forall k :: k in names && k in r ==> (r[k] != 0.0 <==> k == chosen)
  {
  }

  /**
   * The expression manager of a loaded avatar. Every component that drives the face
   * (expression buttons, blinking, lip sync) writes through `SetValue`.
   */
  class ExpressionManager {
    var weights: Weights

    constructor (registered: Weights)
      ensures weights == registered
    {
      weights := registered;
    }

    method SetValue(name: string, v: real)
      modifies this
      ensures weights == WithValue(old(weights), name, v)
    {
      if name in weights {
        weights := weights[name := v];
      }
    }
  }

  /** The loaded avatar, as far as the face is concerned: `vrm.expressionManager` may be missing. */
  class Vrm {
    var expressionManager: ExpressionManager?

    constructor (manager: ExpressionManager?)
      ensures expressionManager == manager
    {
      expressionManager := manager;
    }
  }
}
