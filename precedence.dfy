/** An ordered chain of optional rules, each either applying (Some) or passing
    to the next, with a final fallback: the shape of layered configuration
    (explicit settings, then an environment variable, then a convention). */
module Precedence {
  import opened Wrappers

  /** No rule before position `i` applies. */
  predicate NoneBefore<T>(rules: seq<Option<T>>, i: int)
    requires 0 <= i <= |rules|
  {
    forall j :: 0 <= j < i ==> rules[j].None?
  }

  /** The first rule that applies wins; when none does, the fallback. */
  function FirstMatch<T, E>(rules: seq<Option<T>>, fallback: Result<T, E>): (r: Result<T, E>)
    ensures forall i :: 0 <= i < |rules| && rules[i].Some? && NoneBefore(rules, i) ==> r == Ok(rules[i].value)
    ensures NoneBefore(rules, |rules|) ==> r == fallback
    decreases |rules|
  {
    if |rules| == 0 then fallback
    else match rules[0]
      case Some(v) => Ok(v)
      case None =>
        var r := FirstMatch(rules[1..], fallback);
        assert forall i :: 1 <= i < |rules| && NoneBefore(rules, i) ==> NoneBefore(rules[1..], i - 1);
        r
  }

  /** A chain of three rules, spelled out. */
  lemma FirstOfThree<T, E>(a: Option<T>, b: Option<T>, c: Option<T>, fallback: Result<T, E>)
    ensures FirstMatch([a, b, c], fallback) ==
      if a.Some? then Ok(a.value)
      else if b.Some? then Ok(b.value)
      else if c.Some? then Ok(c.value)
      else fallback
  {
    var rules := [a, b, c];
    if a.Some? {
      assert NoneBefore(rules, 0);
    } else if b.Some? {
      assert NoneBefore(rules, 1);
    } else if c.Some? {
      assert NoneBefore(rules, 2);
    } else {
      assert NoneBefore(rules, 3);
    }
  }
}
