/**
 * The `memory` object the discovery servers load from their JSON file:
 * `callers`, a map from phone number to caller record, and (in the final
 * server) the `lastUpdate` stamp that `writeMemory` sets. The handlers mutate
 * it in place and write it back; reading and writing the file are not part of
 * the model, so a handler's effect is the change it makes to this object.
 */
module CallerStore {
  import opened Text
  import opened Discovery

  /** Every record's `call_count` equals the length of its `call_history`. */
  ghost predicate AllCountsAgree(m: map<string, Caller>) {
    forall p :: p in m ==> CountsAgree(m[p])
  }

  /** No record lists a question id twice. */
  ghost predicate AllDistinct(m: map<string, Caller>) {
    forall p :: p in m ==> NoDuplicates(m[p].answered)
  }

  /** `getOrCreateCaller`: the stored record, or `created` inserted under `phone`. */
  function GetOrCreateIn(m: map<string, Caller>, phone: string, created: Caller): map<string, Caller> {
    if phone in m then m else m[phone := created]
  }

  /** A known phone's record is returned untouched; an unseen phone gets exactly one new record; nothing else changes. */
  lemma GetOrCreateInSpec(m: map<string, Caller>, phone: string, created: Caller)
    ensures var r := GetOrCreateIn(m, phone, created);
      && phone in r
      && r.Keys == m.Keys + {phone}
      && r[phone] == (if phone in m then m[phone] else created)
      && (forall p :: p in m ==> r[p] == m[p])
      && GetOrCreateIn(r, phone, created) == r
      && (AllCountsAgree(m) && CountsAgree(created) ==> AllCountsAgree(r))
  {
  }

  /** Replacing one record keeps the keys, the other records, and the store invariants the new record keeps. */
  lemma ReplaceRecord(m: map<string, Caller>, phone: string, c: Caller)
    requires phone in m
    ensures var r := m[phone := c];
      && r.Keys == m.Keys
      && (forall p :: p in m && p != phone ==> r[p] == m[p])
      && (AllCountsAgree(m) && CountsAgree(c) ==> AllCountsAgree(r))
      && (AllDistinct(m) && NoDuplicates(c.answered) ==> AllDistinct(r))
  {
  }

  /** `/mark-answered` past its argument checks: `None` is the 404 for an unknown phone. */
  function MarkIn(m: map<string, Caller>, phone: string, id: string, note: string): Option<map<string, Caller>> {
    if phone in m then Some(m[phone := ManualMark(m[phone], id, note)]) else None
  }

  /** Marking by hand touches only the named record and keeps counts agreeing and ids distinct. */
  lemma MarkInSpec(m: map<string, Caller>, phone: string, id: string, note: string)
    ensures MarkIn(m, phone, id, note).None? <==> phone !in m
    ensures var r := MarkIn(m, phone, id, note);
      r.Some? ==>
        && r.value.Keys == m.Keys
        && id in r.value[phone].answered
        && (forall p :: p in m && p != phone ==> r.value[p] == m[p])
        && (AllCountsAgree(m) ==> AllCountsAgree(r.value))
        && (AllDistinct(m) ==> AllDistinct(r.value))
        && MarkIn(r.value, phone, id, note) == Some(r.value)
  {
    if phone in m {
      ManualMarkSpec(m[phone], id, note);
      var r := m[phone := ManualMark(m[phone], id, note)];
      assert r[phone := ManualMark(r[phone], id, note)] == r;
    }
  }

  /** `/reset/:phone`: `None` is the 404 for an unknown phone. */
  function ResetIn(m: map<string, Caller>, phone: string): Option<map<string, Caller>> {
    if phone in m then Some(m - {phone}) else None
  }

  /** Reset deletes the named record and no other. */
  lemma ResetInSpec(m: map<string, Caller>, phone: string)
    ensures ResetIn(m, phone).None? <==> phone !in m
    ensures var r := ResetIn(m, phone);
      r.Some? ==> r.value.Keys == m.Keys - {phone} && forall p :: p in r.value ==> r.value[p] == m[p]
  {
  }

  class Store {
    var callers: map<string, Caller>
    /** `memory.lastUpdate`, written by the final server's `writeMemory`. */
    var lastUpdate: Option<string>

    constructor ()
      ensures callers == map[] && lastUpdate == None
    {
      callers := map[];
      lastUpdate := None;
    }

    /** `getOrCreateCaller(phone)`, inserting `created` when the phone is unseen. */
    method GetOrCreate(phone: string, created: Caller) returns (c: Caller)
      modifies this
      ensures callers == GetOrCreateIn(old(callers), phone, created)
      ensures c == callers[phone]
      ensures lastUpdate == old(lastUpdate)
    {
      if phone !in callers {
        callers := callers[phone := created];
      }
      c := callers[phone];
    }

    /** `memory.callers[phone] = c`. */
    method Put(phone: string, c: Caller)
      modifies this
      ensures callers == old(callers)[phone := c]
      ensures lastUpdate == old(lastUpdate)
    {
      callers := callers[phone := c];
    }

    /** Marks `id` for an existing caller; `found` is false (the 404) for an unknown phone. */
    method Mark(phone: string, id: string, note: string) returns (found: bool)
      modifies this
      ensures found <==> phone in old(callers)
      ensures callers == if found then MarkIn(old(callers), phone, id, note).value else old(callers)
      ensures lastUpdate == old(lastUpdate)
    {
      found := phone in callers;
      if found {
        var c := callers[phone];
        if id !in c.answered {
          c := c.(answered := c.answered + [id], notes := c.notes[id := note]);
          callers := callers[phone := c];
        }
      }
    }

    /** `delete memory.callers[phone]`; `found` is false (the 404) for an unknown phone. */
    method Reset(phone: string) returns (found: bool)
      modifies this
      ensures found <==> phone in old(callers)
      ensures callers == if found then ResetIn(old(callers), phone).value else old(callers)
      ensures lastUpdate == old(lastUpdate)
    {
      found := phone in callers;
      if found {
        callers := callers - {phone};
      }
    }

    /** The final server's `writeMemory`: stamps `lastUpdate` and changes nothing else. */
    method Stamp(now: string)
      modifies this
      ensures lastUpdate == Some(now)
      ensures callers == old(callers)
    {
      lastUpdate := Some(now);
    }
  }
}
