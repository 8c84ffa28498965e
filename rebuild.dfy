/**
 * The one-off rebuild script: every customer's conversation summary is
 * recomputed from the last three calls of its history.
 */
module RebuildMemory {
  import opened Text
  import opened VapiMemory

  /** A customer with its summary rebuilt from its own history. */
  function Rebuilt(c: Customer, dateOf: string -> string): Customer {
    c.(conversationSummary := BuildSummary(Window(c.callHistory), dateOf))
  }

  /** The memory after the rebuild loop. */
  function RebuildAll(m: map<string, Customer>, dateOf: string -> string): map<string, Customer> {
    map p | p in m :: Rebuilt(m[p], dateOf)
  }

  /**
   * The rebuild keeps every phone key and every call history, replaces each
   * summary by the summary of that customer's last three calls, and running
   * it twice gives the same memory as running it once.
   */
  lemma RebuildSpec(m: map<string, Customer>, dateOf: string -> string)
    ensures RebuildAll(m, dateOf).Keys == m.Keys
    ensures forall p :: p in m ==>
      && RebuildAll(m, dateOf)[p].callHistory == m[p].callHistory
      && RebuildAll(m, dateOf)[p].phoneNumber == m[p].phoneNumber
      && RebuildAll(m, dateOf)[p].firstCall == m[p].firstCall
      && RebuildAll(m, dateOf)[p].conversationSummary == BuildSummary(Window(m[p].callHistory), dateOf)
    ensures RebuildAll(RebuildAll(m, dateOf), dateOf) == RebuildAll(m, dateOf)
  {
  }

  /** A summary written by saving a call is left as it is by the rebuild. */
  lemma RebuildAfterSave(m: map<string, Customer>, phone: string, call: CallRecord, dateOf: string -> string,
                         now: string)
    ensures var r := SaveIn(m, phone, call, dateOf, now);
      RebuildAll(r, dateOf)[phone] == r[phone]
  {
  }

  /** The `for (const phoneNumber in memory.customers)` loop, one customer at a time. */
  method Rebuild(memory: map<string, Customer>, dateOf: string -> string) returns (r: map<string, Customer>)
    ensures r == RebuildAll(memory, dateOf)
  {
    r := memory;
    var todo := memory.Keys;
    while todo != {}
      invariant todo <= memory.Keys
      invariant r.Keys == memory.Keys
      invariant forall p :: p in memory ==> r[p] == if p in todo then memory[p] else Rebuilt(memory[p], dateOf)
      decreases todo
    {
      var p :| p in todo;
      var customer := r[p];
      var recent := if |customer.callHistory| < 3 then customer.callHistory
                    else customer.callHistory[|customer.callHistory| - 3..];
      assert customer == memory[p] && recent == Window(customer.callHistory);
      r := r[p := customer.(conversationSummary := BuildSummary(recent, dateOf))];
      todo := todo - {p};
    }
    RebuildAllPointwise(memory, r, dateOf);
  }

  /** Two memories agree when they have the same keys and every customer was rebuilt. */
  lemma RebuildAllPointwise(memory: map<string, Customer>, r: map<string, Customer>, dateOf: string -> string)
    requires r.Keys == memory.Keys
    requires forall p :: p in memory ==> r[p] == Rebuilt(memory[p], dateOf)
    ensures r == RebuildAll(memory, dateOf)
  {
  }
}
