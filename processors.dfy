/** The two customer processors: one that keeps its customers and its event
    subscribers for as long as it lives, and one that releases both when
    disposed. An event is its invocation list: the subscribers in the order
    they were added, duplicates kept; the empty list stands for the null
    delegate, since a delegate never has an empty invocation list. */
module Processors {
  import opened Customers

  /** An event handler, known only by an identity. */
  type SubscriberId = nat

  /** How `LoadCustomers` ends: normally, or with one of the exceptions that
      `new List<Customer>(count)` raises before anything is assigned. */
  datatype LoadOutcome = Loaded | ArgumentOutOfRange | OutOfMemory

  /** The outcome a load of `count` has: ArgumentOutOfRangeException for a
      negative capacity, OutOfMemoryException for a backing array longer than
      any array can be, and otherwise a completed load. */
  function OutcomeOfLoad(count: int32): LoadOutcome {
    if count < 0 then ArgumentOutOfRange
    else if count > MaxArrayLength then OutOfMemory
    else Loaded
  }

  /** The processor that never lets go of its customers or its subscribers. */
  class CustomerProcessorBad {
    var customers: CustomerList
    /** The `Processed` event. */
    var processed: seq<SubscriberId>

    constructor ()
      ensures fresh(customers) && customers.items == []
      ensures processed == []
    {
      customers := new CustomerList(0);
      processed := [];
    }

    /** `Processed += handler`. */
    method Subscribe(handler: SubscriberId)
      modifies this
      ensures processed == old(processed) + [handler]
      ensures customers == old(customers)
    {
      processed := processed + [handler];
    }

    /** Replaces the list by a new one holding `count` customers named by position. */
    method LoadCustomers(count: int32) returns (outcome: LoadOutcome)
      modifies this
      ensures outcome == OutcomeOfLoad(count)
      ensures outcome != Loaded ==> customers == old(customers)
      ensures outcome == Loaded ==> fresh(customers) && customers.items == Roster(count as nat)
      ensures processed == old(processed)
    {
      if count < 0 {
        return ArgumentOutOfRange;
      } else if count > MaxArrayLength {
        return OutOfMemory;
      }
      var list := new CustomerList(count);
      for i := 0 to count
        modifies list
        invariant list.items == Roster(i as nat)
      {
        list.Add(Customer(CustomerName(i as nat)));
      }
      customers := list;
      return Loaded;
    }

    /** Walks the customers in order, doing nothing with them, then raises
        `Processed`: `visited` is the walk, `invoked` the handlers called, in
        order. Neither the list nor the subscribers change. */
    method ProcessCustomers() returns (visited: seq<Customer>, invoked: seq<SubscriberId>)
      ensures visited == customers.items
      ensures invoked == processed
    {
      visited := [];
      for k := 0 to |customers.items|
        invariant visited == customers.items[..k]
      {
        visited := visited + [customers.items[k]];
      }
      invoked := processed;
    }
  }

  /** The processor that drops its customers and its subscribers on `Dispose`. */
  class CustomerProcessorOptimized {
    /** Null once disposed. */
    var customers: CustomerList?
    /** The `Processed` event. */
    var processed: seq<SubscriberId>

    constructor ()
      ensures customers != null && fresh(customers) && customers.items == []
      ensures processed == []
    {
      customers := new CustomerList(0);
      processed := [];
    }

    /** `Processed += handler`. */
    method Subscribe(handler: SubscriberId)
      modifies this
      ensures processed == old(processed) + [handler]
      ensures customers == old(customers)
    {
      processed := processed + [handler];
    }

    /** Replaces the list, null or not, by a new one holding `count` customers
        named by position. */
    method LoadCustomers(count: int32) returns (outcome: LoadOutcome)
      modifies this
      ensures outcome == OutcomeOfLoad(count)
      ensures outcome != Loaded ==> customers == old(customers)
      ensures outcome == Loaded ==> customers != null && fresh(customers) && customers.items == Roster(count as nat)
      ensures processed == old(processed)
    {
      if count < 0 {
        return ArgumentOutOfRange;
      } else if count > MaxArrayLength {
        return OutOfMemory;
      }
      var list := new CustomerList(count);
      for i := 0 to count
        modifies list
        invariant list.items == Roster(i as nat)
      {
        list.Add(Customer(CustomerName(i as nat)));
      }
      customers := list;
      return Loaded;
    }

    /** As for the other processor, except that a disposed processor (null
        list) returns at once: it walks nothing and raises nothing. */
    method ProcessCustomers() returns (visited: seq<Customer>, invoked: seq<SubscriberId>)
      ensures customers == null ==> visited == [] && invoked == []
      ensures customers != null ==> visited == customers.items && invoked == processed
    {
      if customers == null {
        return [], [];
      }
      visited := [];
      for k := 0 to |customers.items|
        invariant visited == customers.items[..k]
      {
        visited := visited + [customers.items[k]];
      }
      invoked := processed;
    }

    /** Empties the list in place, drops the reference to it and detaches every
        subscriber. Any state is a valid starting point, a disposed one included. */
    method Dispose()
      modifies this, customers
      ensures customers == null && processed == []
      ensures old(customers) != null ==> old(customers).items == []
    {
      if customers != null {
        customers.Clear();
      }
      customers := null;
      processed := [];
    }
  }
}
