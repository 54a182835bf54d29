/** The retry loop every push goes through. */
module Callback {
  /** What happens if a push gets as far as this attempt: whether a credential may be
      presented, and whether the request succeeds. */
  datatype Attempt = Attempt(maySend: bool, succeeds: bool)

  /** The push goes on after this attempt. */
  predicate Fails(a: Attempt) {
    a.maySend && !a.succeeds
  }

  /** Attempt k is made and is the one that succeeds. */
  ghost predicate FirstSuccess(attempts: seq<Attempt>, k: nat) {
    k < |attempts| && attempts[k].maySend && attempts[k].succeeds && forall j | 0 <= j < k :: Fails(attempts[j])
  }

  /** Sends a message until an attempt succeeds, a credential may not be presented, or the
      schedule of waits is used up: one attempt more than there are waits. sent is the
      number of requests made, slept the waits taken. */
  method PushCallback(backoffs: seq<nat>, attempts: seq<Attempt>) returns (ok: bool, sent: nat, slept: seq<nat>)
    requires |attempts| == |backoffs| + 1
    ensures ok <==> exists k: nat :: FirstSuccess(attempts, k)
    ensures ok ==> 0 < sent <= |backoffs| + 1 && FirstSuccess(attempts, sent - 1) && slept == backoffs[..sent - 1]
    ensures !ok ==> sent <= |backoffs| + 1 && (forall j | 0 <= j < sent :: Fails(attempts[j]))
    ensures !ok && sent <= |backoffs| ==> !attempts[sent].maySend && slept == backoffs[..sent]
    ensures !ok && sent == |backoffs| + 1 ==> slept == backoffs
  {
    ok, sent, slept := false, 0, [];
    var attempt := 0;
    while true
      invariant attempt <= |backoffs| && sent == attempt && slept == backoffs[..attempt]
      invariant forall j | 0 <= j < attempt :: Fails(attempts[j])
      decreases |backoffs| - attempt
    {
      if !attempts[attempt].maySend {
        return false, sent, slept;
      }
      sent := sent + 1;
      if attempts[attempt].succeeds {
        assert FirstSuccess(attempts, attempt);
        return true, sent, slept;
      }
      if attempt >= |backoffs| {
        return false, sent, slept;
      }
      slept := slept + [backoffs[attempt]];
      attempt := attempt + 1;
    }
  }
}
