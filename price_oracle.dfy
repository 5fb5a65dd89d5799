/** The price-oracle program's accounts: the registry singleton at its fixed
    address and the feeds it created, each at the address derived from the
    registry and the feed's id. */
module PriceOracle {
  import opened Primitives
  import opened PriceFeeds

  /** Until the registry exists there are no feeds; afterwards the feeds are
      exactly those with ids below `feedCount`, each stored under its own id
      and pointing back at the registry. */
  ghost predicate Registry(oracleAddress: Key, oracle: Option<Oracle>, feeds: map<u32, PriceFeed>)
  {
    && (oracle.None? ==> feeds == map[])
    && (oracle.Some? ==> forall id: u32 :: id in feeds <==> id < oracle.value.feedCount)
    && (forall id :: id in feeds ==> feeds[id].feedId == id && feeds[id].oracle == oracleAddress)
  }

  /** The ids 0 .. n-1. */
  ghost function IdsBelow(n: nat): set<int>
  {
    if n == 0 then {} else IdsBelow(n - 1) + {n - 1}
  }

  lemma {:induction false} IdsBelowSpec(n: nat)
    ensures forall x :: x in IdsBelow(n) <==> 0 <= x < n
    ensures |IdsBelow(n)| == n
  {
    if n > 0 {
      IdsBelowSpec(n - 1);
    }
  }

  /** `feed_count` is the number of feeds the registry has created, and the
      feeds' ids are exactly 0 .. feed_count - 1. */
  lemma FeedCountIsNumberOfFeeds(oracleAddress: Key, oracle: Oracle, feeds: map<u32, PriceFeed>)
    requires Registry(oracleAddress, Some(oracle), feeds)
    ensures feeds.Keys == IdsBelow(oracle.feedCount)
    ensures |feeds| == oracle.feedCount == GetOracleInfo(oracle).feedCount
  {
    IdsBelowSpec(oracle.feedCount);
    forall x: int | x in IdsBelow(oracle.feedCount) ensures x in feeds.Keys {
      var id: u32 := x;
      assert id in feeds;
    }
    assert feeds.Keys == IdsBelow(oracle.feedCount);
  }

  /** The guards of `create_feed` in the order they run: the registry must
      exist, the new feed's address must be free, the signer must be the
      registry authority, then the handler's name and description checks, and
      finally the checked `feed_count += 1`. */
  function CreateFeedCheck(oracle: Option<Oracle>, feeds: map<u32, PriceFeed>, signer: Key,
                           feedName: string, description: string): (r: Result<(), Error>)
    ensures oracle.None? ==> r == Err(AccountNotInitialized)
    ensures r.Ok? <==> oracle.Some? && oracle.value.feedCount !in feeds && signer == oracle.value.authority
                       && Utf8Len(feedName) <= MAX_NAME_LEN && Utf8Len(description) <= MAX_DESCRIPTION_LEN
                       && oracle.value.feedCount < U32_MAX
    ensures r.Err? ==> r.error != Custom(Unauthorized) && r.error != Custom(StaleData)
                       && r.error != Custom(FeedInactive)
  {
    if oracle.None? then Err(AccountNotInitialized)
    else if oracle.value.feedCount in feeds then Err(AccountAlreadyInUse)
    else if signer != oracle.value.authority then Err(ConstraintHasOne)
    else if Utf8Len(feedName) > MAX_NAME_LEN then Err(Custom(NameTooLong))
    else if Utf8Len(description) > MAX_DESCRIPTION_LEN then Err(Custom(DescriptionTooLong))
    else if oracle.value.feedCount == U32_MAX then Err(ArithmeticOverflow)
    else Ok(())
  }

  /** On a consistent registry the failures of `create_feed` come in this
      order: authority, name, description; the new feed's address is never
      taken; a name of more than 32 characters is always too long. */
  lemma CreateFeedFailures(oracleAddress: Key, oracle: Oracle, feeds: map<u32, PriceFeed>, signer: Key,
                           feedName: string, description: string)
    requires Registry(oracleAddress, Some(oracle), feeds)
    ensures CreateFeedCheck(Some(oracle), feeds, signer, feedName, description) != Err(AccountAlreadyInUse)
    ensures signer != oracle.authority ==>
              CreateFeedCheck(Some(oracle), feeds, signer, feedName, description) == Err(ConstraintHasOne)
    ensures signer == oracle.authority && Utf8Len(feedName) > MAX_NAME_LEN ==>
              CreateFeedCheck(Some(oracle), feeds, signer, feedName, description) == Err(Custom(NameTooLong))
    ensures signer == oracle.authority && |feedName| > MAX_NAME_LEN ==>
              CreateFeedCheck(Some(oracle), feeds, signer, feedName, description) == Err(Custom(NameTooLong))
    ensures signer == oracle.authority && Utf8Len(feedName) <= MAX_NAME_LEN
              && Utf8Len(description) > MAX_DESCRIPTION_LEN ==>
              CreateFeedCheck(Some(oracle), feeds, signer, feedName, description) == Err(Custom(DescriptionTooLong))
    ensures CreateFeedCheck(Some(oracle), feeds, signer, feedName, description).Ok? <==>
              signer == oracle.authority && Utf8Len(feedName) <= MAX_NAME_LEN
              && Utf8Len(description) <= MAX_DESCRIPTION_LEN && oracle.feedCount < U32_MAX
  {
  }

  /** After the registry authority moves, its old holder can no longer create feeds. */
  lemma OldOracleAuthorityCannotCreate(oracle: Oracle, feeds: map<u32, PriceFeed>, signer: Key, newAuthority: Key,
                                       feedName: string, description: string)
    requires TransferOracleAuthorityStep(oracle, signer, newAuthority).Ok?
    requires newAuthority != signer && oracle.feedCount !in feeds
    ensures CreateFeedCheck(Some(TransferOracleAuthorityStep(oracle, signer, newAuthority).value), feeds,
                            signer, feedName, description) == Err(ConstraintHasOne)
    ensures CreateFeedCheck(Some(TransferOracleAuthorityStep(oracle, signer, newAuthority).value), feeds,
                            newAuthority, feedName, description) != Err(ConstraintHasOne)
  {
  }

  /** `OracleError::Unauthorized` is declared but no instruction raises it:
      authority mismatches fail through the `has_one` constraint instead. */
  lemma UnauthorizedNeverRaised(oracle: Option<Oracle>, feeds: map<u32, PriceFeed>, feed: PriceFeed, o: Oracle,
                                signer: Key, key: Key, name: string, description: string,
                                newDescription: Option<string>, value: u64, now: i64)
    ensures CreateFeedCheck(oracle, feeds, signer, name, description) != Err(Custom(Unauthorized))
    ensures UpdateFeedStep(feed, signer, value, now) != Err(Custom(Unauthorized))
    ensures ToggleFeedStatusStep(feed, signer) != Err(Custom(Unauthorized))
    ensures UpdateFeedMetadataStep(feed, signer, newDescription) != Err(Custom(Unauthorized))
    ensures TransferFeedAuthorityStep(feed, signer, key) != Err(Custom(Unauthorized))
    ensures TransferOracleAuthorityStep(o, signer, key) != Err(Custom(Unauthorized))
    ensures GetFeedValue(feed, now) != Err(Custom(Unauthorized))
  {
  }

  /** The program's account state. */
  class OracleProgram {
    const oracleAddress: Key           // the registry's derived address
    var oracle: Option<Oracle>         // None until `initialize_oracle`
    var feeds: map<u32, PriceFeed>     // feed records by feed id

    ghost predicate Valid()
      reads this
    {
      Registry(oracleAddress, oracle, feeds)
    }

    /** The deployed program before any account exists. */
    constructor (oracleAddress: Key)
      ensures Valid()
      ensures this.oracleAddress == oracleAddress && oracle == None && feeds == map[]
    {
      this.oracleAddress := oracleAddress;
      oracle := None;
      feeds := map[];
    }

    /** `initialize_oracle`: the signer becomes the authority, with no feeds yet. */
    method InitializeOracle(signer: Key) returns (r: Result<(), Error>)
      requires Valid()
      modifies this
      ensures Valid() && feeds == old(feeds)
      ensures old(oracle).Some? ==> r == Err(AccountAlreadyInUse) && oracle == old(oracle)
      ensures old(oracle).None? ==> r == Ok(()) && oracle == Some(Oracle(signer, 0))
    {
      if oracle.Some? {
        return Err(AccountAlreadyInUse);
      }
      oracle := Some(Oracle(signer, 0));
      r := Ok(());
    }

    /** `create_feed`: stores a fresh feed under the current `feed_count`,
        owned by the signer, and advances `feed_count` by one. */
    method CreateFeed(signer: Key, feedName: string, description: string, now: i64) returns (r: Result<(), Error>)
      requires Valid()
      modifies this
      ensures Valid()
      ensures r == CreateFeedCheck(old(oracle), old(feeds), signer, feedName, description)
      ensures r.Ok? ==>
                && old(oracle).Some?
                && oracle == Some(old(oracle).value.(feedCount := old(oracle).value.feedCount + 1))
                && feeds == old(feeds)[old(oracle).value.feedCount :=
                     NewFeed(oracleAddress, signer, old(oracle).value.feedCount, feedName, description, now)]
      ensures r.Err? ==> oracle == old(oracle) && feeds == old(feeds)
    {
      if oracle.None? {
        return Err(AccountNotInitialized);
      }
      var o := oracle.value;
      if o.feedCount in feeds {
        return Err(AccountAlreadyInUse);
      }
      if signer != o.authority {
        return Err(ConstraintHasOne);
      }
      if Utf8Len(feedName) > MAX_NAME_LEN {
        return Err(Custom(NameTooLong));
      }
      if Utf8Len(description) > MAX_DESCRIPTION_LEN {
        return Err(Custom(DescriptionTooLong));
      }
      // `feed_count += 1` would panic and abort the whole instruction.
      if o.feedCount == U32_MAX {
        return Err(ArithmeticOverflow);
      }
      var feed := NewFeed(oracleAddress, signer, o.feedCount, feedName, description, now);
      feeds := feeds[o.feedCount := feed];
      o := o.(feedCount := o.feedCount + 1);
      oracle := Some(o);
      r := Ok(());
    }

    /** `update_feed`: the feed's authority writes a new value while the feed is active. */
    method UpdateFeed(feedId: u32, signer: Key, newValue: u64, now: i64) returns (r: Result<(), Error>)
      requires Valid()
      modifies this
      ensures Valid() && oracle == old(oracle)
      ensures feedId !in old(feeds) ==> r == Err(AccountNotInitialized) && feeds == old(feeds)
      ensures feedId in old(feeds) ==>
                match UpdateFeedStep(old(feeds)[feedId], signer, newValue, now)
                case Ok(f) => r == Ok(()) && feeds == old(feeds)[feedId := f]
                case Err(e) => r == Err(e) && feeds == old(feeds)
    {
      if feedId !in feeds {
        return Err(AccountNotInitialized);
      }
      var feed := feeds[feedId];
      if signer != feed.authority {
        return Err(ConstraintHasOne);
      }
      if !feed.isActive {
        return Err(Custom(FeedInactive));
      }
      // `update_count += 1` would panic and abort the whole instruction.
      if feed.updateCount == U64_MAX {
        return Err(ArithmeticOverflow);
      }
      feed := feed.(value := newValue);
      feed := feed.(lastUpdated := now);
      feed := feed.(updateCount := feed.updateCount + 1);
      feeds := feeds[feedId := feed];
      r := Ok(());
    }

    /** `toggle_feed_status`: the feed's authority flips the active flag. */
    method ToggleFeedStatus(feedId: u32, signer: Key) returns (r: Result<(), Error>)
      requires Valid()
      modifies this
      ensures Valid() && oracle == old(oracle)
      ensures feedId !in old(feeds) ==> r == Err(AccountNotInitialized) && feeds == old(feeds)
      ensures feedId in old(feeds) ==>
                match ToggleFeedStatusStep(old(feeds)[feedId], signer)
                case Ok(f) => r == Ok(()) && feeds == old(feeds)[feedId := f]
                case Err(e) => r == Err(e) && feeds == old(feeds)
    {
      if feedId !in feeds {
        return Err(AccountNotInitialized);
      }
      var feed := feeds[feedId];
      if signer != feed.authority {
        return Err(ConstraintHasOne);
      }
      feed := feed.(isActive := !feed.isActive);
      feeds := feeds[feedId := feed];
      r := Ok(());
    }

    /** `update_feed_metadata`: the feed's authority may replace the description. */
    method UpdateFeedMetadata(feedId: u32, signer: Key, newDescription: Option<string>) returns (r: Result<(), Error>)
      requires Valid()
      modifies this
      ensures Valid() && oracle == old(oracle)
      ensures feedId !in old(feeds) ==> r == Err(AccountNotInitialized) && feeds == old(feeds)
      ensures feedId in old(feeds) ==>
                match UpdateFeedMetadataStep(old(feeds)[feedId], signer, newDescription)
                case Ok(f) => r == Ok(()) && feeds == old(feeds)[feedId := f]
                case Err(e) => r == Err(e) && feeds == old(feeds)
    {
      if feedId !in feeds {
        return Err(AccountNotInitialized);
      }
      var feed := feeds[feedId];
      if signer != feed.authority {
        return Err(ConstraintHasOne);
      }
      if newDescription.Some? {
        var description := newDescription.value;
        if Utf8Len(description) > MAX_DESCRIPTION_LEN {
          return Err(Custom(DescriptionTooLong));
        }
        feed := feed.(description := description);
      }
      feeds := feeds[feedId := feed];
      r := Ok(());
    }

    /** `transfer_oracle_authority`: the registry authority hands over the
        right to create feeds; existing feeds keep their authorities. */
    method TransferOracleAuthority(signer: Key, newAuthority: Key) returns (r: Result<(), Error>)
      requires Valid()
      modifies this
      ensures Valid() && feeds == old(feeds)
      ensures old(oracle).None? ==> r == Err(AccountNotInitialized) && oracle == old(oracle)
      ensures old(oracle).Some? ==>
                match TransferOracleAuthorityStep(old(oracle).value, signer, newAuthority)
                case Ok(o) => r == Ok(()) && oracle == Some(o)
                case Err(e) => r == Err(e) && oracle == old(oracle)
    {
      if oracle.None? {
        return Err(AccountNotInitialized);
      }
      var o := oracle.value;
      if signer != o.authority {
        return Err(ConstraintHasOne);
      }
      o := o.(authority := newAuthority);
      oracle := Some(o);
      r := Ok(());
    }

    /** `transfer_feed_authority`: the feed's authority hands the feed over. */
    method TransferFeedAuthority(feedId: u32, signer: Key, newAuthority: Key) returns (r: Result<(), Error>)
      requires Valid()
      modifies this
      ensures Valid() && oracle == old(oracle)
      ensures feedId !in old(feeds) ==> r == Err(AccountNotInitialized) && feeds == old(feeds)
      ensures feedId in old(feeds) ==>
                match TransferFeedAuthorityStep(old(feeds)[feedId], signer, newAuthority)
                case Ok(f) => r == Ok(()) && feeds == old(feeds)[feedId := f]
                case Err(e) => r == Err(e) && feeds == old(feeds)
    {
      if feedId !in feeds {
        return Err(AccountNotInitialized);
      }
      var feed := feeds[feedId];
      if signer != feed.authority {
        return Err(ConstraintHasOne);
      }
      feed := feed.(authority := newAuthority);
      feeds := feeds[feedId := feed];
      r := Ok(());
    }
  }
}
