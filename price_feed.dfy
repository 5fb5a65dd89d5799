/** The records of the price-oracle program, the handlers that act on one
    price-feed record, and the two read-only views. */
module PriceFeeds {
  import opened Primitives

  /** A value older than this many seconds is refused by `get_feed_value`. */
  const STALENESS_THRESHOLD: int := 172_800
  const MAX_NAME_LEN: int := 32
  const MAX_DESCRIPTION_LEN: int := 100

  /** The program's own error enum, in declaration order. */
  datatype OracleError = StaleData | Unauthorized | FeedInactive | NameTooLong | DescriptionTooLong

  /** Anchor numbers custom errors from 6000 in declaration order. */
  function ErrorCode(e: OracleError): (code: nat)
    ensures 6000 <= code <= 6004
    ensures e == StaleData <==> code == 6000
    ensures e == Unauthorized <==> code == 6001
    ensures e == FeedInactive <==> code == 6002
    ensures e == NameTooLong <==> code == 6003
    ensures e == DescriptionTooLong <==> code == 6004
  {
    match e
    case StaleData => 6000
    case Unauthorized => 6001
    case FeedInactive => 6002
    case NameTooLong => 6003
    case DescriptionTooLong => 6004
  }

  /** Distinct errors are surfaced with distinct codes. */
  lemma ErrorCodesDistinct(a: OracleError, b: OracleError)
    ensures ErrorCode(a) == ErrorCode(b) ==> a == b
  {
  }

  /** Everything an instruction can fail with: the program's own errors and
      the failures the framework raises before or around the handler. */
  datatype Error =
    | Custom(err: OracleError)
    | ConstraintHasOne       // a `has_one = authority` constraint does not hold
    | AccountNotInitialized  // the addressed record does not exist
    | AccountAlreadyInUse    // `init` on an address that is already taken
    | ArithmeticOverflow     // a checked integer operation panics

  /** The registry singleton. */
  datatype Oracle = Oracle(authority: Key, feedCount: u32)

  /** One feed record; `oracle` is the address of the registry that created it. */
  datatype PriceFeed = PriceFeed(
    oracle: Key,
    authority: Key,
    feedId: u32,
    name: string,
    description: string,
    value: u64,
    lastUpdated: i64,
    updateCount: u64,
    isActive: bool)

  datatype OracleInfo = OracleInfo(authority: Key, feedCount: u32)

  datatype FeedInfo = FeedInfo(
    feedId: u32,
    name: string,
    description: string,
    value: u64,
    lastUpdated: i64,
    updateCount: u64,
    isActive: bool)

  /** The record `create_feed` writes: value zero, stamped with the creation time. */
  function NewFeed(oracle: Key, authority: Key, feedId: u32, name: string, description: string, now: i64): (f: PriceFeed)
    ensures f.oracle == oracle && f.authority == authority
    ensures GetFeedInfo(f) == FeedInfo(feedId, name, description, 0, now, 0, true)
    ensures GetFeedValue(f, now) == Ok(0)
  {
    PriceFeed(oracle, authority, feedId, name, description, 0, now, 0, true)
  }

  /** `update_feed` on the loaded record. */
  function UpdateFeedStep(feed: PriceFeed, signer: Key, newValue: u64, now: i64): (r: Result<PriceFeed, Error>)
    ensures r.Ok? <==> signer == feed.authority && feed.isActive && feed.updateCount < U64_MAX
    ensures r.Ok? ==> GetFeedValue(r.value, now) == Ok(newValue)
    ensures r.Err? ==> r.error in {ConstraintHasOne, Custom(FeedInactive), ArithmeticOverflow}
  {
    if signer != feed.authority then Err(ConstraintHasOne)
    else if !feed.isActive then Err(Custom(FeedInactive))
    else if feed.updateCount == U64_MAX then Err(ArithmeticOverflow)
    else Ok(feed.(value := newValue, lastUpdated := now, updateCount := feed.updateCount + 1))
  }

  /** `toggle_feed_status` on the loaded record. */
  function ToggleFeedStatusStep(feed: PriceFeed, signer: Key): (r: Result<PriceFeed, Error>)
    ensures r.Ok? <==> signer == feed.authority
    ensures r.Ok? ==> r.value.isActive != feed.isActive && r.value.(isActive := feed.isActive) == feed
    ensures r.Err? ==> r.error == ConstraintHasOne
  {
    if signer != feed.authority then Err(ConstraintHasOne)
    else Ok(feed.(isActive := !feed.isActive))
  }

  /** `update_feed_metadata` on the loaded record. */
  function UpdateFeedMetadataStep(feed: PriceFeed, signer: Key, newDescription: Option<string>): (r: Result<PriceFeed, Error>)
    ensures r.Ok? <==> signer == feed.authority
                       && (newDescription.Some? ==> Utf8Len(newDescription.value) <= MAX_DESCRIPTION_LEN)
    ensures r.Ok? ==> r.value.(description := feed.description) == feed
    ensures r.Ok? && newDescription.Some? ==> r.value.description == newDescription.value
    ensures signer == feed.authority && newDescription.Some? && Utf8Len(newDescription.value) > MAX_DESCRIPTION_LEN ==>
              r == Err(Custom(DescriptionTooLong))
  {
    if signer != feed.authority then Err(ConstraintHasOne)
    else match newDescription
      case None => Ok(feed)
      case Some(d) =>
        if Utf8Len(d) > MAX_DESCRIPTION_LEN then Err(Custom(DescriptionTooLong))
        else Ok(feed.(description := d))
  }

  /** `transfer_feed_authority` on the loaded record. */
  function TransferFeedAuthorityStep(feed: PriceFeed, signer: Key, newAuthority: Key): (r: Result<PriceFeed, Error>)
    ensures r.Ok? <==> signer == feed.authority
    ensures r.Ok? ==> r.value.authority == newAuthority && r.value.(authority := feed.authority) == feed
    ensures r.Err? ==> r.error == ConstraintHasOne
  {
    if signer != feed.authority then Err(ConstraintHasOne)
    else Ok(feed.(authority := newAuthority))
  }

  /** `transfer_oracle_authority` on the loaded registry. */
  function TransferOracleAuthorityStep(oracle: Oracle, signer: Key, newAuthority: Key): (r: Result<Oracle, Error>)
    ensures r.Ok? <==> signer == oracle.authority
    ensures r.Ok? ==> r.value.authority == newAuthority && r.value.feedCount == oracle.feedCount
    ensures r.Err? ==> r.error == ConstraintHasOne
  {
    if signer != oracle.authority then Err(ConstraintHasOne)
    else Ok(oracle.(authority := newAuthority))
  }

  /** `get_feed_value`: the active check first, then the 48-hour staleness gate. */
  function GetFeedValue(feed: PriceFeed, now: i64): (r: Result<u64, Error>)
    ensures !feed.isActive ==> r == Err(Custom(FeedInactive))
    ensures r.Ok? <==> feed.isActive && I64_MIN <= now - feed.lastUpdated < STALENESS_THRESHOLD
    ensures r.Ok? ==> r.value == feed.value
    ensures feed.isActive && STALENESS_THRESHOLD <= now - feed.lastUpdated <= I64_MAX ==>
              r == Err(Custom(StaleData))
  {
    if !feed.isActive then Err(Custom(FeedInactive))
    else match CheckedSub(now, feed.lastUpdated)
      case None => Err(ArithmeticOverflow)
      case Some(age) =>
        if age < STALENESS_THRESHOLD then Ok(feed.value) else Err(Custom(StaleData))
  }

  /** `get_feed_info`: the stored fields, with no active or staleness check.
      The view is the whole record except its registry and authority keys, on
      every record, whether active or stale or neither. */
  function GetFeedInfo(feed: PriceFeed): (info: FeedInfo)
    ensures FeedFromInfo(feed.oracle, feed.authority, info) == feed
  {
    FeedInfo(feed.feedId, feed.name, feed.description, feed.value,
             feed.lastUpdated, feed.updateCount, feed.isActive)
  }

  /** `get_oracle_info`: the view is the whole registry record. */
  function GetOracleInfo(oracle: Oracle): (info: OracleInfo)
    ensures Oracle(info.authority, info.feedCount) == oracle
  {
    OracleInfo(oracle.authority, oracle.feedCount)
  }

  /** The record a feed view describes, given the two fields the view leaves out. */
  function FeedFromInfo(oracle: Key, authority: Key, info: FeedInfo): PriceFeed
  {
    PriceFeed(oracle, authority, info.feedId, info.name, info.description, info.value,
              info.lastUpdated, info.updateCount, info.isActive)
  }

  /** Where the value read succeeds, both views report the same value; the
      info view also reports feeds the value read refuses. */
  lemma FeedInfoAgreesWithValue(feed: PriceFeed, now: i64)
    ensures GetFeedValue(feed, now).Ok? ==> GetFeedInfo(feed).value == GetFeedValue(feed, now).value
    ensures !feed.isActive ==> GetFeedValue(feed, now).Err? && GetFeedInfo(feed).value == feed.value
  {
  }

  /** `update_feed`: the failures in check order, and on success only the
      value, timestamp and update count change. */
  lemma UpdateFeedSpec(feed: PriceFeed, signer: Key, newValue: u64, now: i64)
    ensures signer != feed.authority ==> UpdateFeedStep(feed, signer, newValue, now) == Err(ConstraintHasOne)
    ensures signer == feed.authority && !feed.isActive ==>
              UpdateFeedStep(feed, signer, newValue, now) == Err(Custom(FeedInactive))
    ensures UpdateFeedStep(feed, signer, newValue, now).Ok? <==>
              signer == feed.authority && feed.isActive && feed.updateCount < U64_MAX
    ensures UpdateFeedStep(feed, signer, newValue, now).Ok? ==>
              var f := UpdateFeedStep(feed, signer, newValue, now).value;
              f.value == newValue && f.lastUpdated == now && f.updateCount == feed.updateCount + 1
              && f.(value := feed.value, lastUpdated := feed.lastUpdated, updateCount := feed.updateCount) == feed
  {
  }

  /** Successive `update_feed` calls by one signer, each with its value and time. */
  function ApplyUpdates(feed: PriceFeed, signer: Key, writes: seq<(u64, i64)>): Result<PriceFeed, Error>
    decreases |writes|
  {
    if writes == [] then Ok(feed)
    else match UpdateFeedStep(feed, signer, writes[0].0, writes[0].1)
      case Err(e) => Err(e)
      case Ok(f) => ApplyUpdates(f, signer, writes[1..])
  }

  /** k successful updates add k to the update count and leave the last value
      written and its time, and nothing else changes. */
  lemma {:induction false} RepeatedUpdates(feed: PriceFeed, signer: Key, writes: seq<(u64, i64)>)
    requires signer == feed.authority && feed.isActive
    requires writes != [] && feed.updateCount + |writes| <= U64_MAX
    ensures ApplyUpdates(feed, signer, writes).Ok?
    ensures var f := ApplyUpdates(feed, signer, writes).value;
            f.updateCount == feed.updateCount + |writes|
            && f.value == writes[|writes| - 1].0 && f.lastUpdated == writes[|writes| - 1].1
            && f.(value := feed.value, lastUpdated := feed.lastUpdated, updateCount := feed.updateCount) == feed
    decreases |writes|
  {
    var f := UpdateFeedStep(feed, signer, writes[0].0, writes[0].1).value;
    if |writes| > 1 {
      RepeatedUpdates(f, signer, writes[1..]);
      assert writes[1..][|writes[1..]| - 1] == writes[|writes| - 1];
    }
  }

  /** A value written at time `t` is readable while its age is below 48 hours
      and is stale from an age of exactly 48 hours on. */
  lemma FreshnessWindow(feed: PriceFeed, signer: Key, newValue: u64, t: i64, now: i64)
    requires UpdateFeedStep(feed, signer, newValue, t).Ok?
    ensures var f := UpdateFeedStep(feed, signer, newValue, t).value;
            (I64_MIN <= now - t < STALENESS_THRESHOLD ==> GetFeedValue(f, now) == Ok(newValue))
            && (STALENESS_THRESHOLD <= now - t <= I64_MAX ==> GetFeedValue(f, now) == Err(Custom(StaleData)))
  {
  }

  /** A feed reads as value zero for 48 hours after its creation, because
      creation stamps it with the creation time. */
  lemma NewFeedIsFresh(oracle: Key, authority: Key, feedId: u32, name: string, description: string, t: i64, now: i64)
    requires t <= now < t + STALENESS_THRESHOLD
    ensures GetFeedValue(NewFeed(oracle, authority, feedId, name, description, t), now) == Ok(0)
  {
  }

  /** `toggle_feed_status` negates the flag and nothing else, so two calls restore the record. */
  lemma ToggleTwiceRestores(feed: PriceFeed, signer: Key)
    ensures signer != feed.authority ==> ToggleFeedStatusStep(feed, signer) == Err(ConstraintHasOne)
    ensures signer == feed.authority ==>
              ToggleFeedStatusStep(feed, signer).Ok?
              && ToggleFeedStatusStep(feed, signer).value.isActive == !feed.isActive
              && ToggleFeedStatusStep(feed, signer).value.(isActive := feed.isActive) == feed
              && ToggleFeedStatusStep(ToggleFeedStatusStep(feed, signer).value, signer) == Ok(feed)
  {
  }

  /** A deactivated feed refuses reads whatever its age, and refuses updates;
      toggling it back makes a fresh value readable again. */
  lemma InactiveFeedIsGated(feed: PriceFeed, signer: Key, newValue: u64, now: i64)
    requires !feed.isActive
    ensures GetFeedValue(feed, now) == Err(Custom(FeedInactive))
    ensures signer == feed.authority ==> UpdateFeedStep(feed, signer, newValue, now) == Err(Custom(FeedInactive))
    ensures signer == feed.authority && I64_MIN <= now - feed.lastUpdated < STALENESS_THRESHOLD ==>
              GetFeedValue(ToggleFeedStatusStep(feed, signer).value, now) == Ok(feed.value)
  {
  }

  /** `update_feed_metadata`: `None` keeps the record, a short description
      replaces only the description, a long one fails. */
  lemma UpdateFeedMetadataSpec(feed: PriceFeed, signer: Key, newDescription: Option<string>)
    ensures signer != feed.authority ==> UpdateFeedMetadataStep(feed, signer, newDescription) == Err(ConstraintHasOne)
    ensures signer == feed.authority && newDescription.None? ==>
              UpdateFeedMetadataStep(feed, signer, newDescription) == Ok(feed)
    ensures signer == feed.authority && newDescription.Some? ==>
              (Utf8Len(newDescription.value) <= MAX_DESCRIPTION_LEN <==>
                 UpdateFeedMetadataStep(feed, signer, newDescription) == Ok(feed.(description := newDescription.value)))
    ensures signer == feed.authority && newDescription.Some? && Utf8Len(newDescription.value) > MAX_DESCRIPTION_LEN ==>
              UpdateFeedMetadataStep(feed, signer, newDescription) == Err(Custom(DescriptionTooLong))
  {
    if signer == feed.authority && newDescription.Some? && Utf8Len(newDescription.value) > MAX_DESCRIPTION_LEN {
      assert UpdateFeedMetadataStep(feed, signer, newDescription).Err?;
    }
  }

  /** The four gates a feed's authority holds: update, toggle, metadata and transfer. */
  predicate FeedGatePasses(feed: PriceFeed, signer: Key)
  {
    && UpdateFeedStep(feed, signer, 0, 0) != Err(ConstraintHasOne)
    && ToggleFeedStatusStep(feed, signer) != Err(ConstraintHasOne)
    && UpdateFeedMetadataStep(feed, signer, None) != Err(ConstraintHasOne)
    && TransferFeedAuthorityStep(feed, signer, signer) != Err(ConstraintHasOne)
  }

  /** `transfer_feed_authority` changes only the feed's authority; afterwards
      the new holder passes every feed gate and the old one passes none. */
  lemma TransferFeedAuthoritySpec(feed: PriceFeed, signer: Key, newAuthority: Key)
    ensures signer != feed.authority ==> TransferFeedAuthorityStep(feed, signer, newAuthority) == Err(ConstraintHasOne)
    ensures signer == feed.authority ==>
              var f := TransferFeedAuthorityStep(feed, signer, newAuthority);
              f == Ok(feed.(authority := newAuthority))
              && FeedGatePasses(f.value, newAuthority)
              && (newAuthority != signer ==>
                    UpdateFeedStep(f.value, signer, 0, 0) == Err(ConstraintHasOne)
                    && ToggleFeedStatusStep(f.value, signer) == Err(ConstraintHasOne)
                    && UpdateFeedMetadataStep(f.value, signer, None) == Err(ConstraintHasOne)
                    && TransferFeedAuthorityStep(f.value, signer, signer) == Err(ConstraintHasOne))
  {
  }

  /** `transfer_oracle_authority` changes only the registry's authority. */
  lemma TransferOracleAuthoritySpec(oracle: Oracle, signer: Key, newAuthority: Key)
    ensures signer != oracle.authority ==> TransferOracleAuthorityStep(oracle, signer, newAuthority) == Err(ConstraintHasOne)
    ensures signer == oracle.authority ==>
              TransferOracleAuthorityStep(oracle, signer, newAuthority) == Ok(Oracle(newAuthority, oracle.feedCount))
  {
  }
}
