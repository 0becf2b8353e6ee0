/** The customer record, the list that holds customers, and what a load of
    `count` customers produces. */
module Customers {
  import Decimal

  /** C#'s `int`: a signed 32-bit integer. */
  newtype int32 = x: int | -0x8000_0000 <= x < 0x8000_0000

  /** A customer is a name and nothing else. */
  datatype Customer = Customer(name: string)

  const NamePrefix: string := "Customer "

  /** The name given to the customer at position `i` of a load:
      "Customer " followed by the decimal rendering of `i`. */
  function CustomerName(i: nat): (r: string)
    ensures NamePrefix <= r
    ensures Decimal.IsCanonical(r[|NamePrefix|..])
  {
    NamePrefix + Decimal.NatToString(i)
  }

  /** A customer name is the prefix followed by a canonical decimal that reads back as its index. */
  lemma CustomerNameDecodes(i: nat)
    ensures NamePrefix <= CustomerName(i)
    ensures Decimal.IsCanonical(CustomerName(i)[|NamePrefix|..])
    ensures Decimal.ParseDecimal(CustomerName(i)[|NamePrefix|..]) == i
  {
    assert CustomerName(i)[|NamePrefix|..] == Decimal.NatToString(i);
    Decimal.ParseOfNatToString(i);
  }

  /** Two positions get the same name only if they are the same position. */
  lemma CustomerNameInjective(i: nat, j: nat)
    ensures CustomerName(i) == CustomerName(j) <==> i == j
  {
    CustomerNameDecodes(i);
    CustomerNameDecodes(j);
  }

  /** The customers a load of `count` produces, in the order they are added. */
  function Roster(count: nat): (r: seq<Customer>)
    ensures |r| == count
    ensures forall i :: 0 <= i < count ==> r[i] == Customer(CustomerName(i))
  {
    if count == 0 then [] else Roster(count - 1) + [Customer(CustomerName(count - 1))]
  }

  /** No two customers of a load share a name. */
  lemma RosterNamesDistinct(count: nat)
    ensures forall i, j :: 0 <= i < j < count ==> Roster(count)[i].name != Roster(count)[j].name
  {
    forall i, j | 0 <= i < j < count
      ensures Roster(count)[i].name != Roster(count)[j].name
    {
      CustomerNameInjective(i, j);
    }
  }

  /** The greatest length a .NET array can have (`Array.MaxLength`). */
  const MaxArrayLength: int32 := 0x7FFF_FFC7

  /** A `List<Customer>`: an ordered, growable sequence of customers,
      changed in place by `Add` and `Clear`. */
  class CustomerList {
    var items: seq<Customer>

    /** `new List<Customer>(capacity)`, which allocates a backing array of
        `capacity` slots at once; the capacity is not part of the contents. */
    constructor (capacity: int32)
      requires 0 <= capacity <= MaxArrayLength
      ensures items == []
    {
      items := [];
    }

    method Add(c: Customer)
      modifies this
      ensures items == old(items) + [c]
    {
      items := items + [c];
    }

    method Clear()
      modifies this
      ensures items == []
    {
      items := [];
    }
  }
}
