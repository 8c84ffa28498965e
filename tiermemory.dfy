/**
 * The tiered discovery server: each caller moves through six knowledge
 * tiers, one completed call at a time, and each incoming call is routed to
 * the configuration of the caller's current tier.
 */
module TierMemory {
  import opened Text

  /** `callData.duration || 0`: the raw `Duration` field when truthy, else the number 0. */
  datatype StoredDuration = RawDuration(value: string) | Zero

  datatype TierCall = TierCall(tier: int, date: string, duration: StoredDuration, callSid: Option<string>)

  datatype TierCaller = TierCaller(phone: string, currentTier: int, callCount: nat, firstCallDate: string,
                                   lastCallDate: Option<string>, history: seq<TierCall>)

  const MaxTier: int := 6

  function NewTierCaller(phone: string, now: string): TierCaller {
    TierCaller(phone, 1, 0, now, None, [])
  }

  function Min(a: int, b: int): int {
    if a < b then a else b
  }

  /**
   * The record of a caller whose calls were all counted by the progress
   * update: the tier is one more than the number of calls, capped at 6, and
   * the k-th call was made in tier `min(k + 1, 6)`.
   */
  predicate TierConsistent(c: TierCaller) {
    && c.callCount == |c.history|
    && c.currentTier == Min(c.callCount + 1, MaxTier)
    && forall k :: 0 <= k < |c.history| ==> c.history[k].tier == Min(k + 1, MaxTier)
  }

  /** `updateCallerProgress` on an existing record: counted, stamped, tagged with the tier before the step, then stepped up to at most 6. */
  function Progress(c: TierCaller, callSid: Option<string>, duration: Option<string>, now: string): TierCaller {
    var d := if Truthy(duration) then RawDuration(duration.value) else Zero;
    c.(callCount := c.callCount + 1,
       lastCallDate := Some(now),
       history := c.history + [TierCall(c.currentTier, now, d, callSid)],
       currentTier := if c.currentTier < MaxTier then c.currentTier + 1 else c.currentTier)
  }

  /** A new caller starts in tier 1 with no calls and an empty history. */
  lemma NewTierCallerConsistent(phone: string, now: string)
    ensures TierConsistent(NewTierCaller(phone, now))
    ensures NewTierCaller(phone, now).currentTier == 1
  {
  }

  /**
   * One progress step adds one call and one history entry tagged with the
   * tier before the step; the tier grows by one until it saturates at 6, so
   * it stays in 1..6, and the consistency of tiers with calls is kept.
   */
  lemma ProgressSpec(c: TierCaller, callSid: Option<string>, duration: Option<string>, now: string)
    requires 1 <= c.currentTier <= MaxTier
    ensures var r := Progress(c, callSid, duration, now);
      && r.callCount == c.callCount + 1
      && |r.history| == |c.history| + 1
      && r.history[..|c.history|] == c.history
      && r.history[|c.history|].tier == c.currentTier
      && 1 <= r.currentTier <= MaxTier
      && r.currentTier == Min(c.currentTier + 1, MaxTier)
      && (TierConsistent(c) ==> TierConsistent(r))
  {
    var r := Progress(c, callSid, duration, now);
    assert r.history[..|c.history|] == c.history;
  }

  /** After `n` progress steps from a new record the caller is in tier `min(n + 1, 6)`. */
  lemma {:induction false} TierAfterCalls(c: TierCaller, calls: seq<(Option<string>, Option<string>, string)>)
    requires TierConsistent(c)
    ensures TierConsistent(ProgressAll(c, calls))
    ensures ProgressAll(c, calls).currentTier == Min(c.callCount + |calls| + 1, MaxTier)
    decreases |calls|
  {
    if |calls| > 0 {
      ProgressSpec(c, calls[0].0, calls[0].1, calls[0].2);
      TierAfterCalls(Progress(c, calls[0].0, calls[0].1, calls[0].2), calls[1..]);
    }
  }

  /** A sequence of progress steps, each with its call id, duration and time. */
  function ProgressAll(c: TierCaller, calls: seq<(Option<string>, Option<string>, string)>): TierCaller
    decreases |calls|
  {
    if |calls| == 0 then c else ProgressAll(Progress(c, calls[0].0, calls[0].1, calls[0].2), calls[1..])
  }

  /**
   * `getTierConfigId(tier)`: that tier's configured id, else tier 1's, else
   * the default one. `configs[k]` is the id configured for tier `k + 1`.
   */
  function TierConfigId(tier: int, configs: seq<Option<string>>, default: Option<string>): Option<string>
    requires |configs| == MaxTier
  {
    OrChain([if 1 <= tier <= MaxTier then configs[tier - 1] else None, configs[0], default])
  }

  /** A tier with a configured id uses it; otherwise tier 1's id, and only then the default. */
  lemma TierConfigFallback(tier: int, configs: seq<Option<string>>, default: Option<string>)
    requires |configs| == MaxTier
    ensures 1 <= tier <= MaxTier && Truthy(configs[tier - 1]) ==> TierConfigId(tier, configs, default) == configs[tier - 1]
    ensures !(1 <= tier <= MaxTier && Truthy(configs[tier - 1])) && Truthy(configs[0]) ==>
      TierConfigId(tier, configs, default) == configs[0]
    ensures !(1 <= tier <= MaxTier && Truthy(configs[tier - 1])) && !Truthy(configs[0]) ==>
      TierConfigId(tier, configs, default) == default
  {
    var chain := [if 1 <= tier <= MaxTier then configs[tier - 1] else None, configs[0], default];
    assert TierConfigId(tier, configs, default) == OrChain(chain);
    if !Truthy(chain[0]) {
      assert OrChain(chain) == OrChain(chain[1..]);
      if !Truthy(chain[1]) {
        assert OrChain(chain[1..]) == OrChain(chain[1..][1..]);
        assert chain[1..][1..] == [default];
      }
    }
  }

  const TierNames: seq<string> := [
    "Business Survival Knowledge",
    "Decision-Making Heuristics",
    "Operational Wisdom",
    "Network & Context Knowledge",
    "Cultural & Timing Knowledge",
    "Future-Oriented Strategy"
  ]

  /** `getTierName(tier)`. */
  function TierName(tier: int): string {
    if 1 <= tier <= MaxTier then TierNames[tier - 1] else "Discovery"
  }

  /** Each of the six tiers has its own name, never "Discovery"; any other tier is "Discovery". */
  lemma TierNamesDistinct(t: int, u: int)
    ensures 1 <= t <= MaxTier ==> TierName(t) != "Discovery"
    ensures 1 <= t <= MaxTier && 1 <= u <= MaxTier && t != u ==> TierName(t) != TierName(u)
    ensures !(1 <= t <= MaxTier) ==> TierName(t) == "Discovery"
  {
    if 1 <= t <= MaxTier {
      assert TierName(t)[0] != 'D' || TierName(t)[1] == 'e';
    }
    if 1 <= t <= MaxTier && 1 <= u <= MaxTier && t != u {
      assert TierName(t)[0] != TierName(u)[0] || TierName(t)[1] != TierName(u)[1];
    }
  }

  class TierStore {
    var callers: map<string, TierCaller>

    constructor ()
      ensures callers == map[]
    {
      callers := map[];
    }

    /** `getOrCreateCaller`. */
    method GetOrCreateCaller(phone: string, now: string) returns (c: TierCaller)
      modifies this
      ensures callers == if phone in old(callers) then old(callers) else old(callers)[phone := NewTierCaller(phone, now)]
      ensures c == callers[phone]
    {
      if phone !in callers {
        callers := callers[phone := NewTierCaller(phone, now)];
      }
      c := callers[phone];
    }

    /** `updateCallerProgress`; `found` is false where the source throws on an unknown phone, and then nothing changes. */
    method UpdateCallerProgress(phone: string, callSid: Option<string>, duration: Option<string>, now: string)
      returns (found: bool)
      modifies this
      ensures found == (phone in old(callers))
      ensures callers == if found then old(callers)[phone := Progress(old(callers)[phone], callSid, duration, now)]
        else old(callers)
    {
      if phone !in callers {
        return false;
      }
      var c := callers[phone];
      c := c.(callCount := c.callCount + 1, lastCallDate := Some(now));
      var d := if Truthy(duration) then RawDuration(duration.value) else Zero;
      c := c.(history := c.history + [TierCall(c.currentTier, now, d, callSid)]);
      if c.currentTier < MaxTier {
        c := c.(currentTier := c.currentTier + 1);
      }
      callers := callers[phone := c];
      found := true;
    }

    /** `/voice`: the caller's tier and the configuration it routes to. */
    method Voice(phone: string, now: string, configs: seq<Option<string>>, default: Option<string>)
      returns (tier: int, configId: Option<string>)
      requires |configs| == MaxTier
      modifies this
      ensures callers == if phone in old(callers) then old(callers) else old(callers)[phone := NewTierCaller(phone, now)]
      ensures tier == callers[phone].currentTier
      ensures configId == TierConfigId(tier, configs, default)
    {
      var c := GetOrCreateCaller(phone, now);
      tier := c.currentTier;
      configId := TierConfigId(tier, configs, default);
    }

    /** `/call-status`: a completed call is counted for a known caller; an unknown caller is not created; always 200. */
    method CallStatus(callSid: Option<string>, callStatus: string, from: string, duration: Option<string>, now: string)
      returns (status: int)
      modifies this
      ensures status == 200
      ensures callers == if callStatus == "completed" && from in old(callers)
        then old(callers)[from := Progress(old(callers)[from], callSid, duration, now)]
        else old(callers)
    {
      if callStatus == "completed" {
        var found := UpdateCallerProgress(from, callSid, duration, now);
        if found {
          var _ := GetOrCreateCaller(from, now);
        }
      }
      status := 200;
    }

    /** `/reset/:phone`: deletes the record, or 404. */
    method Reset(phone: string) returns (status: int)
      modifies this
      ensures status == (if phone in old(callers) then 200 else 404)
      ensures callers == old(callers) - {phone}
    {
      status := if phone in callers then 200 else 404;
      callers := callers - {phone};
    }
  }

  /** Every record the server writes keeps its tier in 1..6 and consistent with its calls. */
  predicate AllConsistent(m: map<string, TierCaller>) {
    forall p :: p in m ==> TierConsistent(m[p])
  }

  /** A status update keeps every stored record consistent. */
  lemma CallStatusKeepsConsistent(m: map<string, TierCaller>, from: string, callSid: Option<string>,
                                  duration: Option<string>, now: string)
    requires AllConsistent(m) && from in m
    ensures AllConsistent(m[from := Progress(m[from], callSid, duration, now)])
    ensures 1 <= m[from := Progress(m[from], callSid, duration, now)][from].currentTier <= MaxTier
  {
    ProgressSpec(m[from], callSid, duration, now);
  }
}
