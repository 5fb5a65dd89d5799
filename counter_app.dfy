/** The counter program: one account holding a u64 that can be incremented,
    decremented, read and reset. No instruction checks a signer. */
module CounterApp {
  import opened Primitives

  datatype CounterError = CounterUnderflow | CounterOverflow

  /** The count after a checked increment, or the error the handler raises:
      it fails exactly at u64::MAX and otherwise adds one without wrapping. */
  function Incremented(count: u64): (r: Result<u64, CounterError>)
    ensures r == Err(CounterOverflow) <==> count == U64_MAX
    ensures r.Ok? ==> r.value == count + 1
  {
    if count == U64_MAX then Err(CounterOverflow) else Ok(count + 1)
  }

  /** The count after a checked decrement, or the error the handler raises:
      it fails exactly at zero and otherwise subtracts one without wrapping. */
  function Decremented(count: u64): (r: Result<u64, CounterError>)
    ensures r == Err(CounterUnderflow) <==> count == 0
    ensures r.Ok? ==> r.value == count - 1
  {
    if count == 0 then Err(CounterUnderflow) else Ok(count - 1)
  }

  /** The count an instruction leaves behind: the new one on success, the old one on failure. */
  function Committed(count: u64, r: Result<u64, CounterError>): u64
  {
    if r.Ok? then r.value else count
  }

  /** A successful increment followed by a decrement restores the count, and
      the other way round. */
  lemma IncrementDecrementRoundTrip(count: u64)
    ensures Incremented(count).Ok? ==> Decremented(Incremented(count).value) == Ok(count)
    ensures Decremented(count).Ok? ==> Incremented(Decremented(count).value) == Ok(count)
  {
  }

  class Counter {
    var count: u64

    /** `initialize`: the freshly created account starts at zero. */
    constructor Initialize()
      ensures count == 0
    {
      count := 0;
    }

    method Increment() returns (r: Result<(), CounterError>)
      modifies this
      ensures r.Ok? <==> Incremented(old(count)).Ok?
      ensures r.Err? ==> r.error == Incremented(old(count)).error
      ensures count == Committed(old(count), Incremented(old(count)))
    {
      if count == U64_MAX {
        return Err(CounterOverflow);
      }
      count := count + 1;
      r := Ok(());
    }

    method Decrement() returns (r: Result<(), CounterError>)
      modifies this
      ensures r.Ok? <==> Decremented(old(count)).Ok?
      ensures r.Err? ==> r.error == Decremented(old(count)).error
      ensures count == Committed(old(count), Decremented(old(count)))
    {
      if count == 0 {
        return Err(CounterUnderflow);
      }
      count := count - 1;
      r := Ok(());
    }

    /** `get_count`: reads the count and changes nothing. */
    method GetCount() returns (c: u64)
      ensures c == count
    {
      c := count;
    }

    /** `reset`: zero from any state; a second reset changes nothing more. */
    method Reset()
      modifies this
      ensures count == 0
    {
      count := 0;
    }
  }
}
