/**
 * Display data RAM: an 80-byte store behind a partial address map.
 * Logical addresses 0..39 are the first display line, 64..79 the second;
 * 40..63 and everything from 80 up fault.
 */
module DisplayData {
  import opened Wrappers

  /** Size of the physical store, in bytes. */
  const Capacity: nat := 80

  /** The exception the indexer raises for an address outside the map. */
  datatype AddressError = IndexOutOfRange(address: bv8)

  /** Logical addresses the indexer accepts. */
  predicate ValidAddress(address: bv8)
  {
    address < 40 || (64 <= address < 80)
  }

  /**
   * The address translation done before the store is touched: fault for
   * addresses of 80 and above and for the 40..63 gap, move 64..79 down by 24.
   */
  function ProcessAddress(address: bv8): (r: Result<nat, AddressError>)
    ensures r.Ok? <==> ValidAddress(address)
    ensures r.Err? ==> r.error == IndexOutOfRange(address)
    ensures r.Ok? ==> r.value < 56
    ensures r.Ok? && address < 40 ==> r.value == address as nat
    ensures r.Ok? && address >= 64 ==> r.value == address as nat - 24
  {
    if address >= 80 || (40 <= address < 64) then
      Err(IndexOutOfRange(address))
    else if address >= 64 then
      Ok((address - 24) as nat)
    else
      Ok(address as nat)
  }

  /** Distinct valid addresses use distinct physical slots. */
  lemma ProcessAddressInjective(a: bv8, b: bv8)
    requires ProcessAddress(a).Ok? && ProcessAddress(b).Ok?
    requires a != b
    ensures ProcessAddress(a).value != ProcessAddress(b).value
  {
  }

  /** Physical slots 56..79 correspond to no logical address. */
  lemma UnreachableSlots(address: bv8)
    requires ProcessAddress(address).Ok?
    ensures !(56 <= ProcessAddress(address).value < Capacity)
  {
  }

  /** Every slot below 56 is reached by exactly one logical address. */
  lemma ReachableSlots(slot: bv8)
    requires slot < 56
    ensures ProcessAddress(if slot < 40 then slot else slot + 24) == Ok(slot as nat)
  {
  }

  /**
   * As written, the second line is cut short at 16 cells: its 17th cell,
   * address 80, faults although 80 - 24 = 56 is a free slot of the store.
   */
  lemma SecondLineCutShort()
    ensures ProcessAddress(79) == Ok(55)
    ensures ProcessAddress(80) == Err(IndexOutOfRange(80))
    ensures 80 - 24 < Capacity
  {
  }

  /** The addresses a 2 x 40 store with the second line at 64 accepts: 0..39 and 64..103. */
  predicate IntendedValidAddress(address: bv8)
  {
    address < 40 || (64 <= address < 104)
  }

  /** ProcessAddress with the second line's end at 104, where 40-byte lines put it. */
  function ProcessAddressIntended(address: bv8): (r: Result<nat, AddressError>)
    ensures r.Ok? <==> IntendedValidAddress(address)
    ensures r.Ok? ==> r.value < Capacity
    ensures r.Ok? && address < 40 ==> r.value == address as nat
    ensures r.Ok? && address >= 64 ==> r.value == address as nat - 24
  {
    if address >= 104 || (40 <= address < 64) then
      Err(IndexOutOfRange(address))
    else if address >= 64 then
      Ok((address - 24) as nat)
    else
      Ok(address as nat)
  }

  /** With the intended bound every one of the 80 slots belongs to exactly one address. */
  lemma IntendedMapBijective(slot: bv8, a: bv8, b: bv8)
    requires slot < 80
    ensures var address := if slot < 40 then slot else slot + 24;
            ProcessAddressIntended(address) == Ok(slot as nat)
    ensures ProcessAddressIntended(a).Ok? && ProcessAddressIntended(b).Ok? && a != b
            ==> ProcessAddressIntended(a).value != ProcessAddressIntended(b).value
  {
  }

  class DDRAM {
    var data: array<bv8>

    ghost predicate Valid()
      reads this
    {
      data.Length == Capacity
    }

    /** The byte stored under a logical address, or the fault the indexer raises. */
    ghost function Cell(address: bv8): (r: Result<bv8, AddressError>)
      requires Valid()
      reads this, data
      ensures r.Ok? <==> ValidAddress(address)
    {
      match ProcessAddress(address)
      case Ok(slot) => Ok(data[slot])
      case Err(e) => Err(e)
    }

    /** A fresh store: every byte is 0. */
    constructor ()
      ensures Valid() && fresh(data)
      ensures forall a: bv8 :: ValidAddress(a) ==> Cell(a) == Ok(0)
      ensures forall i :: 0 <= i < Capacity ==> data[i] == 0
    {
      data := new bv8[Capacity](_ => 0);
    }

    /** The indexer's getter. */
    method Get(address: bv8) returns (r: Result<bv8, AddressError>)
      requires Valid()
      ensures r == Cell(address)
    {
      var slot := ProcessAddress(address);
      match slot {
        case Ok(i) => r := Ok(data[i]);
        case Err(e) => r := Err(e);
      }
    }

    /**
     * The indexer's setter. On success exactly the one logical address changes;
     * on a fault nothing is stored.
     */
    method Set(address: bv8, value: bv8) returns (r: Result<(), AddressError>)
      requires Valid()
      modifies data
      ensures Valid()
      ensures r.Ok? <==> ValidAddress(address)
      ensures r.Err? ==> r.error == IndexOutOfRange(address) && data[..] == old(data[..])
      ensures r.Ok? ==> Cell(address) == Ok(value)
      ensures forall a: bv8 :: a != address ==> Cell(a) == old(Cell(a))
    {
      var slot := ProcessAddress(address);
      match slot {
        case Ok(i) =>
          data[i] := value;
          r := Ok(());
          forall a: bv8 | a != address
            ensures Cell(a) == old(Cell(a))
          {
            if ProcessAddress(a).Ok? {
              ProcessAddressInjective(a, address);
            }
          }
        case Err(e) => r := Err(e);
      }
    }
  }
}
