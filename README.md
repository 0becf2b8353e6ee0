# Customer processors: retained versus released references

This project models, in Dafny, the two customer processors of a small C#
memory demo. Both processors do the same three things:

- They hold a `List<Customer>`.
- They expose a `Processed` event.
- They load `count` customers named `"Customer 0"`, `"Customer 1"`, … and
  process them. Processing walks the list without touching it, then raises
  the event.

`CustomerProcessorBad` keeps its list and its subscribers for as long as it
lives. `CustomerProcessorOptimized` also has `Dispose`. It empties the list in
place, drops the reference to it (the reference becomes null) and detaches
every subscriber. After that, `ProcessCustomers` returns at once.

Layout:

- `decimal.dfy` (module `Decimal`): the decimal rendering of a
  non-negative `int`, which names each customer. It comes with its inverse,
  `ParseDecimal`, and round trips in both directions.
- `customers.dfy` (module `Customers`):
  - the `Customer` record;
  - `int32`, which stands for C#'s `int`;
  - `CustomerName` and `Roster`, which say what a load of `count` customers
    produces;
  - `CustomerList`, which stands for `List<Customer>` with its in-place
    `Add` and `Clear`.
- `processors.dfy` (module `Processors`): the two processor classes. Each
  class has a `customers` field (a list object, nullable in the optimized
  processor) and a `processed` field. `processed` is the event's invocation
  list: a sequence of subscriber ids in subscription order. The empty
  sequence stands for the null delegate.
- `demo.dfy` (module `Demo`): the two runs of the demo driver, without heap
  measurement or console output. It also holds two client scenarios:
  processing before any load, and using a processor after it was disposed.

How the model shows what the source does:

- `ProcessCustomers` returns two sequences. `visited` is the customers the
  `foreach` walks, in order. `invoked` is the handlers the event calls, in
  order.
- `ProcessCustomers` has no `modifies` clause. The verifier therefore checks
  that it changes neither the list nor the subscribers.
- In `"Customer " + i`, the index `i` is never negative. The expression
  therefore appends the plain decimal digits of `i`, with no sign.

Types and where they come from:

- `Customers.Customer` is the `Customer` class (Program.cs:65-68). It is a
  value with one field, `name`.
- `Processors.LoadOutcome` tells how `LoadCustomers` ended. Its
  `ArgumentOutOfRange` and `OutOfMemory` cases stand for the two exceptions
  that `new List<Customer>(count)` raises (Program.cs:78, Program.cs:103).
  `Processors.OutcomeOfLoad` says which outcome each count has.
- `Processors.SubscriberId` is a handler attached to `Processed`
  (Program.cs:74, Program.cs:99).

A bad count is not excluded by a precondition. The source does not check
`count` itself. `new List<Customer>(count)` allocates its backing array of
`count` slots at once, before `customers` is assigned. It raises
`ArgumentOutOfRangeException` for a negative capacity. It raises
`OutOfMemoryException` for a capacity above `Array.MaxLength` (0x7FFFFFC7),
on every machine. For those counts the model returns `ArgumentOutOfRange` or
`OutOfMemory` and leaves the processor as it was. For `0 <= count <= 0x7FFFFFC7`
the contract is the load described above, with no failure at zero.

## Model

| member | source | states |
|---|---|---|
| `Decimal.NatToString` | Program.cs:80 | the rendering of `i` is a non-empty string of decimal digits with no leading zero, and is `"0"` exactly for zero; the optimized processor does the same at Program.cs:105 |
| `Decimal.ParseOfNatToString` | Program.cs:80 | reading a rendering back in base ten gives the number rendered; the optimized processor does the same at Program.cs:105 |
| `Decimal.NatToStringOfParse` | Program.cs:80 | every canonical digit string is the rendering of its own value (the other direction of the round trip); the optimized processor does the same at Program.cs:105 |
| `Decimal.NatToStringInjective` | Program.cs:80 | two numbers have the same rendering if and only if they are equal; the optimized processor does the same at Program.cs:105 |
| `Customers.CustomerName` | Program.cs:80 | the name at position `i` is `"Customer "` followed by a canonical decimal: digits only, with no sign and no leading zero; the optimized processor does the same at Program.cs:105 |
| `Customers.CustomerNameDecodes` | Program.cs:80 | a customer name is `"Customer "` followed by a canonical decimal that reads back as the customer's position; the optimized processor does the same at Program.cs:105 |
| `Customers.CustomerNameInjective` | Program.cs:80 | two positions get the same name if and only if they are the same position; the optimized processor does the same at Program.cs:105 |
| `Customers.Roster` | Program.cs:79-80 | a load of `count` yields exactly `count` customers, and the one at position `i` is named `"Customer " + i`; the optimized processor does the same at Program.cs:104-105 |
| `Customers.RosterNamesDistinct` | Program.cs:79-80 | no two customers of one load share a name; the optimized processor does the same at Program.cs:104-105 |
| `Customers.CustomerList.constructor` | Program.cs:78 | a newly built list is empty, whatever its capacity from 0 to `Array.MaxLength`; any other capacity never reaches it, because `LoadCustomers` returns `ArgumentOutOfRange` or `OutOfMemory` first; the optimized processor does the same at Program.cs:103 |
| `Customers.CustomerList.Add` | Program.cs:80 | `Add` appends the customer at the end of the list; the optimized processor does the same at Program.cs:105 |
| `Customers.CustomerList.Clear` | Program.cs:122 | `Clear` empties the list in place |
| `Processors.CustomerProcessorBad.constructor` | Program.cs:73-74 | a new processor holds a fresh empty list and has no subscribers |
| `Processors.CustomerProcessorBad.Subscribe` | Program.cs:74 | `Processed += h` appends `h` to the invocation list and leaves the customers alone |
| `Processors.CustomerProcessorBad.LoadCustomers` | Program.cs:76-81 | for `0 <= count <= 0x7FFFFFC7` the list is replaced by a fresh one equal to `Roster(count)`; a negative count fails with `ArgumentOutOfRange` and a larger one with `OutOfMemory`, and neither changes anything; subscribers are kept |
| `Processors.CustomerProcessorBad.ProcessCustomers` | Program.cs:83-92 | walks every customer once, in order, and calls every subscriber once, in subscription order (none when there are none); changes nothing |
| `Processors.CustomerProcessorOptimized.constructor` | Program.cs:98-99 | a new processor holds a fresh, non-null, empty list and has no subscribers |
| `Processors.CustomerProcessorOptimized.Subscribe` | Program.cs:99 | `Processed += h` appends `h` to the invocation list and leaves the customers alone |
| `Processors.CustomerProcessorOptimized.LoadCustomers` | Program.cs:101-106 | for `0 <= count <= 0x7FFFFFC7` the list, even a null one, is replaced by a fresh non-null list equal to `Roster(count)`; a negative count fails with `ArgumentOutOfRange` and a larger one with `OutOfMemory`, and neither changes anything; subscribers are kept |
| `Processors.CustomerProcessorOptimized.ProcessCustomers` | Program.cs:108-118 | with a null list, walks nothing and calls no subscriber; otherwise walks every customer in order and calls every subscriber once, in order; changes nothing |
| `Processors.CustomerProcessorOptimized.Dispose` | Program.cs:120-125 | from any state, the disposed one included: the list is null, there are no subscribers, and the list held before is now empty |
| `Demo.RunBad` | Program.cs:29-32 | after the leaking run, the processor still holds all 100000 customers and its handler, and the handler ran once |
| `Demo.RunOptimized` | Program.cs:48-53 | after the `using` block the processor holds no list and no handler, the list it held is empty, and the handler ran once |
| `Demo.ProcessBeforeLoad` | Program.cs:73-117 | processing a never-loaded processor of either kind walks no customer and calls its handler once (the bad processor at Program.cs:73-90, the optimized one at Program.cs:98-117) |
| `Demo.UseAfterDispose` | Program.cs:108-125 | a second `Dispose` leaves the same state as the first: no list, no subscribers, and the list held before the first call is empty; processing afterwards walks nothing and calls no handler |

## Left out

- `Main`, the console output, the `Console.ReadLine` pause and the heap
  measurements (`GC.Collect`, `GC.WaitForPendingFinalizers`,
  `GC.GetTotalMemory`) in Program.cs:8-60. Their numbers depend on the runtime
  and are not stated by the model.
- Garbage collection itself. Whether an object can be reclaimed is not
  modelled. The model shows only which references each processor still holds.
- The event's `sender` and `EventArgs` arguments, and the empty `OnProcessed`
  handler (Program.cs:62). A handler is an id, and "calling" it means
  appearing in `invoked`. Handlers are taken to be inert, like `OnProcessed`.
  A handler that throws would stop `Processed?.Invoke` partway
  (Program.cs:90, Program.cs:117). A handler that calls back into the
  processor could change its state. `ProcessCustomers` promises "changes
  nothing" and "calls every subscriber once" only for inert handlers.
- Event removal (`-=`). The source never uses it.
- The `using` block runs `Dispose` even when the block throws. No modelled
  operation throws inside the block, so `Demo.RunOptimized` simply calls
  `Dispose` last.
- The `Customer.Name` setter and its default value `string.Empty`. The source
  sets a name only once, when it builds the customer, so `Customer` is an
  immutable value.
- Running out of memory for any other reason. `new List<Customer>(count)`
  allocates its whole backing array at once, so the list never grows during
  a load. That allocation can still fail for a count within
  `Array.MaxLength` when the heap is too small. Each `new Customer` in the
  loop can also fail, after `customers` has already been assigned. In all
  these cases the model returns `Loaded`. A related ordering detail follows
  from this. The source assigns the new list to `customers` first and then
  fills it through the field (Program.cs:78-80, Program.cs:103-105). The model
  fills a local list and assigns it after the loop. The two orders end in the
  same state. They differ only if the loop fails midway, and the model has no
  such failure.
