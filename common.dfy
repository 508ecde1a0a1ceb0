/** Failure-compatible wrappers and the first-match search shared by every component of the model. */
module Common {

  datatype Option<+T> = None | Some(value: T) {
    function GetOr(default: T): T {
      match this
      case Some(v) => v
      case None => default
    }
  }

  datatype Result<+R, +E> = Ok(value: R) | Err(error: E)

  /** JavaScript truthiness of an optional string: absent and "" are both falsy. */
  predicate Truthy(s: Option<string>) {
    s.Some? && s.value != ""
  }

  /**
   * The position of the first element of `order` that `shows` accepts: the
   * chain of `if … else if …` tests that picks a canned image, whose last
   * element is the default every query reaches.
   */
  function FirstShown<P>(order: seq<P>, shows: P -> bool): (k: nat)
    requires |order| > 0 && shows(order[|order| - 1])
    ensures k < |order| && shows(order[k])
    ensures forall j :: 0 <= j < k ==> !shows(order[j])
  {
    if shows(order[0]) then 0
    else
      var k := FirstShown(order[1..], shows);
      assert forall j :: 1 <= j < |order| ==> order[j] == order[1..][j - 1];
      1 + k
  }

  /** Two tests that accept the same elements pick the same first element. */
  lemma FirstShownAgrees<P>(order: seq<P>, shows1: P -> bool, shows2: P -> bool)
    requires |order| > 0 && shows1(order[|order| - 1])
    requires forall p :: shows1(p) == shows2(p)
    ensures FirstShown(order, shows1) == FirstShown(order, shows2)
  {
    var k1, k2 := FirstShown(order, shows1), FirstShown(order, shows2);
    assert shows2(order[k1]) && shows1(order[k2]);
  }
}
