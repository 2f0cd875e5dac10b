/**
 * The boundary to the remote generation service. Every awaited call is an
 * outcome chosen by the environment: its payload, or a failure (a rejected
 * promise, or a response without the expected text or image part).
 */
module Remote {

  datatype Outcome<+T> = Done(value: T) | Failed

  /** Number of portrait prompts issued for one gallery. */
  const PromptCount := 4

  /**
   * `Promise.all(xs.map(call))`: resolves with every payload, in the order of
   * `xs`, when every call resolves, and rejects as soon as one of them does.
   */
  function JoinAll<X, Y>(xs: seq<X>, call: X -> Outcome<Y>): (r: Outcome<seq<Y>>)
    ensures r.Done? <==> forall i :: 0 <= i < |xs| ==> call(xs[i]).Done?
    ensures r.Done? ==> |r.value| == |xs|
    ensures r.Done? ==> forall i :: 0 <= i < |xs| ==> r.value[i] == call(xs[i]).value
  {
    if xs == [] then Done([])
    else
      match (call(xs[0]), JoinAll(xs[1..], call))
      case (Done(y), Done(ys)) => Done([y] + ys)
      case _ => Failed
  }

  /** Prompt indices 0, 1, ..., PromptCount - 1. */
  function PromptIndices(): (ks: seq<nat>)
    ensures |ks| == PromptCount
    ensures forall i :: 0 <= i < |ks| ==> ks[i] == i
  {
    [0, 1, 2, 3]
  }

  /**
   * generateTwinImages: one image request per prompt template, each template
   * filled in with the description, all joined. `render(k, d)` is the outcome
   * of the request built from template k and description d.
   */
  function Gallery(description: string, render: (nat, string) -> Outcome<string>): (r: Outcome<seq<string>>)
    ensures r.Done? <==> forall k :: 0 <= k < PromptCount ==> render(k, description).Done?
    ensures r.Done? ==> |r.value| == PromptCount
    ensures r.Done? ==> forall k :: 0 <= k < PromptCount ==> r.value[k] == render(k, description).value
  {
    var ks := PromptIndices();
    var req := (k: nat) => render(k, description);
    var r := JoinAll(ks, req);
    assert forall k :: 0 <= k < PromptCount ==> req(ks[k]) == render(k, description);
    r
  }
}
