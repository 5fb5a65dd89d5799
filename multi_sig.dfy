/** The multi-signature program: only account creation is implemented, which
    validates the threshold against the number of owners and stores the
    three fields. */
module MultiSigApp {
  import opened Primitives

  datatype MultiSigError = InvalidThreshold | InvalidThresholdGtZero

  /** Rust's `owners.len() as u8`: the length truncated to its low eight bits. */
  function LenAsU8(n: nat): (b: u8)
    ensures b == n % 256
    ensures n <= U8_MAX ==> b == n
  {
    n % 256
  }

  /** The two `require!` guards of `create_multi_sig`, in source order. A
      threshold is accepted exactly when it lies in 1 .. (number of owners mod 256). */
  function CheckThreshold(ownerCount: nat, threshold: u8): (r: Result<(), MultiSigError>)
    ensures r.Ok? <==> 1 <= threshold <= ownerCount % 256
    ensures threshold > ownerCount % 256 ==> r == Err(InvalidThreshold)
  {
    if LenAsU8(ownerCount) < threshold then Err(InvalidThreshold)
    else if threshold == 0 then Err(InvalidThresholdGtZero)
    else Ok(())
  }

  /** A zero threshold always passes the first guard and fails the second. */
  lemma ZeroThresholdRejected(ownerCount: nat)
    ensures CheckThreshold(ownerCount, 0) == Err(InvalidThresholdGtZero)
  {
  }

  /** The truncating cast only ever rejects more: an accepted threshold never
      exceeds the real number of owners. */
  lemma AcceptedThresholdWithinOwners(ownerCount: nat, threshold: u8)
    requires CheckThreshold(ownerCount, threshold).Ok?
    ensures 1 <= threshold <= ownerCount
  {
  }

  /** Because of the cast, 256 owners compare as zero and every non-zero threshold
      is refused; 257 owners compare as one and refuse a threshold of two. */
  lemma TruncationRejects(threshold: u8)
    requires threshold >= 1
    ensures CheckThreshold(256, threshold) == Err(InvalidThreshold)
    ensures CheckThreshold(257, 2) == Err(InvalidThreshold)
  {
  }

  class MultiSig {
    var name: string
    var owners: seq<Key>
    var threshold: u8

    /** The zero-filled account `init` allocates before the handler runs. */
    constructor ()
      ensures name == [] && owners == [] && threshold == 0
    {
      name, owners, threshold := [], [], 0;
    }

    /** `create_multi_sig`: both guards come before any field is written; the
        nonce only feeds the account address and is not passed here. */
    method CreateMultiSig(name': string, owners': seq<Key>, threshold': u8) returns (r: Result<(), MultiSigError>)
      modifies this
      ensures r == CheckThreshold(|owners'|, threshold')
      ensures r.Ok? ==> name == name' && owners == owners' && threshold == threshold'
      ensures r.Ok? ==> 1 <= threshold <= |owners| % 256
      ensures r.Err? ==> name == old(name) && owners == old(owners) && threshold == old(threshold)
    {
      if LenAsU8(|owners'|) < threshold' {
        return Err(InvalidThreshold);
      }
      if threshold' == 0 {
        return Err(InvalidThresholdGtZero);
      }
      name := name';
      owners := owners';
      threshold := threshold';
      r := Ok(());
    }
  }
}
