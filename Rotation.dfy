/** Key rotation of the deployed endpoint (functions/api/chat.ts): the
    `apiKeyIndex` and `setApiKeyCookie` state of one request, `setApiKeyIndex`
    and `createChatCompletionWithRotation`. The HTTP call is not modelled:
    `outcomes[i - 1]` is what the upstream service answers when called with
    key #i. */
module Rotation {
  import opened Wrappers
  import opened Upstream
  import opened Credentials

  /** How a rotated call ended: its outcome and the key indices it was
      sent with, in order. */
  datatype Rotated = Rotated(result: CallOutcome, tried: seq<nat>)

  /** The rotation from key #`index` among `n` keys: a success ends it, a
      rate-limit error moves on to the next key (or, on the last key, gives
      the "all keys" error), any other error ends it. */
  function RotateFrom(outcomes: seq<CallOutcome>, index: nat, n: nat): Rotated
    requires 1 <= index && |outcomes| == n
    decreases n + 1 - index
  {
    if index > n then Rotated(Err(Error(RateLimitExhaustedMessage)), [])
    else
      match outcomes[index - 1]
      case Ok(c) => Rotated(Ok(c), [index])
      case Err(e) =>
        if IsRateLimitError(e) then
          if index < n then
            var rest := RotateFrom(outcomes, index + 1, n);
            Rotated(rest.result, [index] + rest.tried)
          else Rotated(Err(Error(RateLimitExhaustedMessage)), [index])
        else Rotated(Err(e), [index])
  }

  /** The index whose key was tried last. */
  function LastTried(r: Rotated): nat
    requires r.tried != []
  {
    r.tried[|r.tried| - 1]
  }

  /** What the rotation does, stated without the recursion: from a valid
      start it tries the keys `start, start + 1, …` up to some last one, no
      key twice and none below the start; every key before the last was
      rate-limited; the last key's answer decides: its completion, its own
      error when that is not a rate limit, and the "all keys" error when it
      is, which happens only on the last key of all. */
  lemma {:induction false} RotateFromSpec(outcomes: seq<CallOutcome>, start: nat, n: nat)
    requires 1 <= start <= n && |outcomes| == n
    ensures var r := RotateFrom(outcomes, start, n);
      |r.tried| >= 1 &&
      (forall k :: 0 <= k < |r.tried| ==> r.tried[k] == start + k) &&
      LastTried(r) <= n &&
      (forall k :: 0 <= k < |r.tried| - 1 ==>
        outcomes[r.tried[k] - 1].Err? && IsRateLimitError(outcomes[r.tried[k] - 1].error)) &&
      r.result == match outcomes[LastTried(r) - 1] {
        case Ok(c) => Ok(c)
        case Err(e) => if IsRateLimitError(e) then Err(Error(RateLimitExhaustedMessage)) else Err(e)
      } &&
      (outcomes[LastTried(r) - 1].Err? && IsRateLimitError(outcomes[LastTried(r) - 1].error) ==> LastTried(r) == n)
    decreases n - start
  {
    var r := RotateFrom(outcomes, start, n);
    if outcomes[start - 1].Err? && IsRateLimitError(outcomes[start - 1].error) && start < n {
      RotateFromSpec(outcomes, start + 1, n);
      var rest := RotateFrom(outcomes, start + 1, n);
      assert r.tried == [start] + rest.tried;
      assert LastTried(r) == LastTried(rest);
    }
  }

  /** A success on the key in use leaves the index where it was; the index
      never moves backwards. */
  lemma RotateNeverBackwards(outcomes: seq<CallOutcome>, start: nat, n: nat)
    requires 1 <= start <= n && |outcomes| == n
    ensures start <= LastTried(RotateFrom(outcomes, start, n)) <= n
    ensures outcomes[start - 1].Ok? ==> RotateFrom(outcomes, start, n).tried == [start]
  {
    RotateFromSpec(outcomes, start, n);
  }

  /** One step of the rotation, from key #`index`. */
  lemma RotateFromStep(outcomes: seq<CallOutcome>, index: nat, n: nat)
    requires 1 <= index <= n && |outcomes| == n
    ensures var r := RotateFrom(outcomes, index, n);
      var o := outcomes[index - 1];
      (o.Ok? || !IsRateLimitError(o.error) ==> r == Rotated(o, [index])) &&
      (o.Err? && IsRateLimitError(o.error) && index == n ==> r == Rotated(Err(Error(RateLimitExhaustedMessage)), [index])) &&
      (o.Err? && IsRateLimitError(o.error) && index < n ==>
        r == Rotated(RotateFrom(outcomes, index + 1, n).result, [index] + RotateFrom(outcomes, index + 1, n).tried))
  {
  }

  /** The per-request rotation state. `initialIndex` is the index read from
      the request's cookie. */
  class KeyRotation {
    const apiKeys: seq<string>
    ghost const initialIndex: nat
    var apiKeyIndex: nat
    var setApiKeyCookie: Option<string>

    /** The index is a key's, it has only moved forward, and a cookie is
        pending exactly when it moved, naming the current index. */
    ghost predicate Valid()
      reads this
    {
      1 <= initialIndex <= apiKeyIndex <= |apiKeys| &&
      setApiKeyCookie == (if apiKeyIndex == initialIndex then None else Some(BuildApiKeyCookie(apiKeyIndex)))
    }

    constructor(keys: seq<string>, index: nat)
      requires 1 <= index <= |keys|
      ensures Valid()
      ensures apiKeys == keys && initialIndex == index && apiKeyIndex == index && setApiKeyCookie == None
    {
      apiKeys := keys;
      initialIndex := index;
      apiKeyIndex := index;
      setApiKeyCookie := None;
    }

    /** `setApiKeyIndex`: records a new index and the cookie for it; the
        same index changes nothing. */
    method SetApiKeyIndex(index: nat)
      requires Valid() && apiKeyIndex <= index <= |apiKeys|
      modifies this
      ensures Valid()
      ensures old(apiKeyIndex) == index ==> apiKeyIndex == old(apiKeyIndex) && setApiKeyCookie == old(setApiKeyCookie)
      ensures old(apiKeyIndex) != index ==> apiKeyIndex == index && setApiKeyCookie == Some(BuildApiKeyCookie(index))
    {
      if apiKeyIndex == index {
        return;
      }
      apiKeyIndex := index;
      setApiKeyCookie := Some(BuildApiKeyCookie(index));
    }

    /** `createChatCompletionWithRotation`: tries the keys from the current
        index on and, on success, moves the index to the key that answered. */
    method CreateChatCompletionWithRotation(outcomes: seq<CallOutcome>) returns (result: CallOutcome, tried: seq<nat>)
      requires Valid() && |outcomes| == |apiKeys|
      modifies this
      ensures Valid()
      ensures Rotated(result, tried) == RotateFrom(outcomes, old(apiKeyIndex), |apiKeys|)
      ensures result.Ok? ==> apiKeyIndex == LastTried(Rotated(result, tried))
      ensures result.Err? ==> apiKeyIndex == old(apiKeyIndex)
    {
      ghost var start := apiKeyIndex;
      ghost var n := |apiKeys|;
      tried := [];
      var index := apiKeyIndex;
      while index <= |apiKeys|
        invariant start <= index <= n + 1 && apiKeyIndex == start && Valid()
        invariant unchanged(this)
        invariant RotateFrom(outcomes, start, n) ==
          Rotated(RotateFrom(outcomes, index, n).result, tried + RotateFrom(outcomes, index, n).tried)
        decreases n + 1 - index
      {
        RotateFromStep(outcomes, index, n);
        tried := tried + [index];
        match outcomes[index - 1] {
          case Ok(c) =>
            SetApiKeyIndex(index);
            return Ok(c), tried;
          case Err(e) =>
            if IsRateLimitError(e) {
              if index < |apiKeys| {
                index := index + 1;
                continue;
              }
              return Err(Error(RateLimitExhaustedMessage)), tried;
            }
            return Err(e), tried;
        }
      }
      return Err(Error(RateLimitExhaustedMessage)), tried;
    }
  }
}
