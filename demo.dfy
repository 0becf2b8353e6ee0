/** The two runs of the demo driver, with the heap measurements and console
    output taken away: what each processor holds, and which handlers ran, once
    the run is over. Also the use of a processor after it has been disposed. */
module Demo {
  import opened Customers
  import opened Processors

  /** The number of customers each run loads. */
  const DemoCount: int32 := 100_000

  /** The leaking run: subscribe, load, process, and keep the processor. It
      still holds every customer and the handler afterwards. */
  method RunBad(handler: SubscriberId) returns (bad: CustomerProcessorBad, invoked: seq<SubscriberId>)
    ensures invoked == [handler]
    ensures bad.customers.items == Roster(DemoCount as nat)
    ensures |bad.customers.items| == 100_000
    ensures bad.processed == [handler]
  {
    bad := new CustomerProcessorBad();
    bad.Subscribe(handler);
    var _ := bad.LoadCustomers(DemoCount);
    var _, fired := bad.ProcessCustomers();
    invoked := fired;
  }

  /** The disposing run: the `using` block subscribes, loads and processes,
      and disposes the processor on leaving. Afterwards the processor holds no
      list and no handler, and the list it held is empty. */
  method RunOptimized(handler: SubscriberId)
    returns (opt: CustomerProcessorOptimized, released: CustomerList, invoked: seq<SubscriberId>)
    ensures invoked == [handler]
    ensures opt.customers == null && opt.processed == []
    ensures released.items == []
  {
    opt := new CustomerProcessorOptimized();
    opt.Subscribe(handler);
    var _ := opt.LoadCustomers(DemoCount);
    var _, fired := opt.ProcessCustomers();
    invoked := fired;
    released := opt.customers;
    opt.Dispose();
  }

  /** A processor that has never been loaded walks an empty list and only
      raises its event; this holds for both kinds. */
  method ProcessBeforeLoad(handler: SubscriberId)
    returns (badVisited: seq<Customer>, badInvoked: seq<SubscriberId>,
             optVisited: seq<Customer>, optInvoked: seq<SubscriberId>)
    ensures badVisited == [] && badInvoked == [handler]
    ensures optVisited == [] && optInvoked == [handler]
  {
    var bad := new CustomerProcessorBad();
    bad.Subscribe(handler);
    badVisited, badInvoked := bad.ProcessCustomers();
    var opt := new CustomerProcessorOptimized();
    opt.Subscribe(handler);
    optVisited, optInvoked := opt.ProcessCustomers();
  }

  /** Disposing twice does not fail and leaves the state the first call left;
      processing afterwards walks nothing and calls no handler. */
  method UseAfterDispose(p: CustomerProcessorOptimized) returns (visited: seq<Customer>, invoked: seq<SubscriberId>)
    modifies p, p.customers
    ensures p.customers == null && p.processed == []
    ensures old(p.customers) != null ==> old(p.customers).items == []
    ensures visited == [] && invoked == []
  {
    p.Dispose();
    p.Dispose();
    visited, invoked := p.ProcessCustomers();
  }
}
