/**
  The payment gateway: a memo of successful charges keyed by idempotency key. A call looks the
  key up, sleeps without the lock, and then either fails or records its result unless another
  call has recorded one meanwhile.
 */
module Gateways {

  type Memo = map<string, string>

  /** What a call returns: the provider reference of a success, or the text of an error. */
  datatype Charge = Charged(ref: string) | Declined(reason: string)

  /** How the sleep of a call ends: a fresh reference, or a decline or cancelled context. */
  datatype Reply = Approve(ref: string) | Refuse(reason: string)

  /** The locked section after the sleep: the first recorded result stays. */
  function Record(memo: Memo, key: string, ref: string): Memo
  {
    if key in memo then memo else memo[key := ref]
  }

  /** One call that nothing disturbs. */
  function ChargeOnce(memo: Memo, key: string, reply: Reply): (Memo, Charge)
  {
    if key in memo then (memo, Charged(memo[key]))
    else match reply
      case Refuse(reason) => (memo, Declined(reason))
      case Approve(ref) => (memo[key := ref], Charged(ref))
  }

  /** The first result that the calls record under the key is this one. */
  ghost predicate FirstOf(others: seq<(string, string)>, key: string, ref: string)
  {
    exists i :: 0 <= i < |others| && others[i] == (key, ref) && forall j :: 0 <= j < i ==> others[j].0 != key
  }

  lemma FirstStays(others: seq<(string, string)>, i: nat)
    requires i < |others|
    ensures forall k, ref :: FirstOf(others[..i], k, ref) ==> FirstOf(others[..i + 1], k, ref)
    ensures (forall j :: 0 <= j < i ==> others[j].0 != others[i].0) ==>
              FirstOf(others[..i + 1], others[i].0, others[i].1)
  {
    forall k, ref | FirstOf(others[..i], k, ref) ensures FirstOf(others[..i + 1], k, ref) {
      var j :| 0 <= j < i && others[..i][j] == (k, ref) && forall m :: 0 <= m < j ==> others[..i][m].0 != k;
      assert others[..i + 1][j] == (k, ref);
      assert forall m :: 0 <= m < j ==> others[..i + 1][m] == others[..i][m];
    }
    if forall j :: 0 <= j < i ==> others[j].0 != others[i].0 {
      assert others[..i + 1][i] == (others[i].0, others[i].1);
    }
  }

  class MockGateway {
    var results: Memo

    constructor ()
      ensures results == map[]
    {
      results := map[];
    }

    /** The sleep: other calls, given by key and reference, record their results, each key's first one. */
    method Sleep(others: seq<(string, string)>)
      modifies this
      ensures forall k :: k in old(results) ==> k in results && results[k] == old(results)[k]
      ensures forall k :: k in results && k !in old(results) ==> FirstOf(others, k, results[k])
      ensures forall i :: 0 <= i < |others| ==> others[i].0 in results
      ensures others == [] ==> results == old(results)
    {
      for i := 0 to |others|
        invariant forall k :: k in old(results) ==> k in results && results[k] == old(results)[k]
        invariant forall k :: k in results && k !in old(results) ==> FirstOf(others[..i], k, results[k])
        invariant forall j :: 0 <= j < i ==> others[j].0 in results
        invariant i == 0 ==> results == old(results)
      {
        FirstStays(others, i);
        results := Record(results, others[i].0, others[i].1);
      }
      assert others[..|others|] == others;
    }

    /** A recorded result is never changed; a success is the recorded result, whoever recorded it. */
    method Charge(key: string, reply: Reply, others: seq<(string, string)>) returns (r: Charge)
      modifies this
      ensures forall k :: k in old(results) ==> k in results && results[k] == old(results)[k]
      ensures r.Charged? ==> key in results && results[key] == r.ref
      ensures key in old(results) ==> r == Charged(old(results)[key]) && results == old(results)
      ensures reply.Approve? ==> r.Charged?
      ensures key !in old(results) && reply.Refuse? ==> r == Declined(reply.reason)
      ensures key !in old(results) && reply.Approve? && (forall i :: 0 <= i < |others| ==> others[i].0 != key) ==>
                r == Charged(reply.ref)
      ensures others == [] ==> (results, r) == ChargeOnce(old(results), key, reply)
    {
      if key in results {
        return Charged(results[key]);
      }
      Sleep(others);
      if reply.Refuse? {
        return Declined(reply.reason);
      }
      if key in results {
        return Charged(results[key]);
      }
      results := results[key := reply.ref];
      r := Charged(reply.ref);
    }
  }
}
