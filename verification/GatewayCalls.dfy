/** Calls to the gateway that interleave at their sleep, any number of them with any keys. */
module GatewayCalls {
  import opened Gateways

  datatype Call = Sleeping(key: string) | Returned(key: string, charge: Charge)

  datatype State = State(results: Memo, calls: map<nat, Call>)

  datatype Action = Begin(call: nat, key: string) | Finish(call: nat, reply: Reply)

  predicate Enabled(s: State, a: Action)
  {
    match a
    case Begin(c, _) => c !in s.calls
    case Finish(c, _) => c in s.calls && s.calls[c].Sleeping?
  }

  function Apply(s: State, a: Action): State
    requires Enabled(s, a)
  {
    match a
    case Begin(c, key) =>
      s.(calls := s.calls[c := if key in s.results then Returned(key, Charged(s.results[key])) else Sleeping(key)])
    case Finish(c, reply) =>
      var key := s.calls[c].key;
      match reply
      case Refuse(reason) => s.(calls := s.calls[c := Returned(key, Declined(reason))])
      case Approve(ref) =>
        var memo := Record(s.results, key, ref);
        State(memo, s.calls[c := Returned(key, Charged(memo[key]))])
  }

  /** The actions can be taken one after the other from s, and lead to t. */
  ghost predicate Runs(s: State, actions: seq<Action>, t: State)
    decreases |actions|
  {
    if actions == [] then s == t
    else Enabled(s, actions[0]) && Runs(Apply(s, actions[0]), actions[1..], t)
  }

  predicate SuccessesAreRecorded(s: State)
  {
    forall c :: c in s.calls && s.calls[c].Returned? && s.calls[c].charge.Charged? ==>
      s.calls[c].key in s.results && s.results[s.calls[c].key] == s.calls[c].charge.ref
  }

  /**
    However calls interleave: recorded results stay, every success equals the recorded result,
    and a call begun once a key has a result returns that result.
   */
  lemma {:induction false} MemoHolds(s: State, actions: seq<Action>, t: State)
    requires SuccessesAreRecorded(s) && Runs(s, actions, t)
    ensures SuccessesAreRecorded(t)
    ensures forall k :: k in s.results ==> k in t.results && t.results[k] == s.results[k]
    ensures forall c :: c in s.calls ==>
              && c in t.calls && t.calls[c].key == s.calls[c].key
              && (s.calls[c].Returned? ==> t.calls[c] == s.calls[c])
    ensures forall c :: c in t.calls && c !in s.calls && t.calls[c].key in s.results ==>
              t.calls[c] == Returned(t.calls[c].key, Charged(s.results[t.calls[c].key]))
    decreases |actions|
  {
    if actions != [] {
      MemoHolds(Apply(s, actions[0]), actions[1..], t);
    }
  }

  /** Two successful calls with one key, in any run of a fresh gateway, return one reference. */
  lemma OneReferencePerKey(actions: seq<Action>, t: State, c: nat, d: nat)
    requires Runs(State(map[], map[]), actions, t)
    requires c in t.calls && t.calls[c].Returned? && t.calls[c].charge.Charged?
    requires d in t.calls && t.calls[d].Returned? && t.calls[d].charge.Charged?
    requires t.calls[c].key == t.calls[d].key
    ensures t.calls[c].charge == t.calls[d].charge
  {
    MemoHolds(State(map[], map[]), actions, t);
  }

  /**
    The end of a call's sleep: a decline is returned and leaves no
    trace, an approval returns what the key has then.
   */
  lemma FinishIsExact(s: State, c: nat, reply: Reply)
    requires Enabled(s, Finish(c, reply))
    ensures var key := s.calls[c].key;
            var t := Apply(s, Finish(c, reply));
            match reply
            case Refuse(reason) => t.results == s.results && t.calls[c] == Returned(key, Declined(reason))
            case Approve(ref) =>
              && key in t.results && t.calls[c] == Returned(key, Charged(t.results[key]))
              && t.results[key] == (if key in s.results then s.results[key] else ref)
              && t.results.Keys == s.results.Keys + {key}
  {
  }

  /** A call that no other call comes between does what ChargeOnce says. */
  lemma UndisturbedCallIsChargeOnce(s: State, c: nat, key: string, reply: Reply)
    requires Enabled(s, Begin(c, key))
    ensures var s1 := Apply(s, Begin(c, key));
            var t := if Enabled(s1, Finish(c, reply)) then Apply(s1, Finish(c, reply)) else s1;
            var (memo, charge) := ChargeOnce(s.results, key, reply);
            t.results == memo && t.calls[c] == Returned(key, charge)
  {
  }
}
