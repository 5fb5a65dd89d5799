# Four Anchor programs, modelled in Dafny

This project models the instruction handlers of four small Solana programs
written with the Anchor framework, and proves properties of the model:

- **Price oracle** (`PriceFeeds`, `PriceOracle`): a registry singleton
  `Oracle {authority, feed_count}` that creates `PriceFeed` records with
  sequential ids. Two independent authorities gate the registry and each feed.
  Feeds have an active flag, and reads of the value are refused after 48 hours.
- **Todo list** (`TodoListApp`): an owner-gated ordered list of items with a
  `next_id` counter. Items can be appended, toggled, deleted by id, and the list
  closed once empty.
- **Counter** (`CounterApp`): a `u64` with checked increment and decrement, a
  reset and a read.
- **Multi-sig** (`MultiSigApp`): the validation and field writes of
  `create_multi_sig`.

Each instruction is one atomic transition. All of its checks come before any
write, and a failed instruction leaves every account as it was. Accounts whose
fields the handlers write in place are classes whose methods take the signer's
key and the handler's arguments. Per-record transitions and the read-only views
are pure functions. The lemmas about them state the properties that span
several calls.

Modelling choices:

- Keys (`Pubkey`) are 32-byte sequences. The programs only compare them.
- `Clock::get()` becomes a `now: i64` parameter.
- Each feed account is addressed by its id, standing in for the address derived
  from `(oracle, feed_id)`. Anchor's `init` becomes "the key is absent".
- Rust's `String::len()` is the UTF-8 byte length (`Primitives.Utf8Len`).
- Integer widths are subset types `u8`, `u32`, `u64` and `i64`.
- Overflow of the unchecked counters is treated as an aborting failure
  (`ArithmeticOverflow`), as with overflow checks enabled. This covers
  `feed_count += 1`, `update_count += 1`, `next_id += 1` and
  `current_time - last_updated`. A failed instruction changes nothing.
- In the oracle, a failed `has_one = authority` constraint is
  `ConstraintHasOne`. A missing account is `AccountNotInitialized`. An `init`
  on an occupied address is `AccountAlreadyInUse`.
- A todo list's account carries both `seeds` derived from the signer's key and
  `has_one = owner`. A signer other than the owner fails these constraints
  before the handler runs, and the seeds one fails first. The model reports
  both as one error, `TodoListApp.NotOwner`.

The model follows the code on these points:

- `create_feed` stamps the new feed with the current time, not zero. A new feed
  therefore reads as value 0 for 48 hours (`PriceFeeds.NewFeedIsFresh`).
- The staleness test is `age < 172_800`. An age of exactly 172 800 seconds is
  already stale.
- `update_feed` fails with `FeedInactive` on an inactive feed. Toggling,
  metadata updates and authority transfers work in either state.
- An authority mismatch is never reported as `OracleError::Unauthorized`. That
  variant is declared but never raised. Mismatches fail through the `has_one`
  constraint, before the handler body runs.

The `Unauthorized` behaviour is proved (`PriceOracle.UnauthorizedNeverRaised`).

In `create_multi_sig`, `owners.len() as u8` truncates the owner count to its
low eight bits. With 256 owners, every non-zero threshold is refused. The
truncation only ever refuses more: an accepted threshold never exceeds the real
owner count (`MultiSigApp.AcceptedThresholdWithinOwners`).

## Model

| member | source | states |
|---|---|---|
| `Primitives.CheckedSub` | project-11-oracle/price_oracle/programs/price_oracle/src/lib.rs:70 | `current_time - last_updated` with overflow checks: it yields the difference exactly when that fits in i64, and otherwise aborts. |
| `Primitives.CharUtf8Len` | project-11-oracle/price_oracle/programs/price_oracle/src/lib.rs:22-23 | A character takes one to four bytes, and exactly one when it is ASCII. |
| `Primitives.Utf8Len` | project-11-oracle/price_oracle/programs/price_oracle/src/lib.rs:22-23 | Rust's `.len()` counts UTF-8 bytes. That count lies between the character count and four times it, so more than 32 characters is always too long. |
| `Primitives.Utf8LenAscii` | project-11-oracle/price_oracle/programs/price_oracle/src/lib.rs:22-23 | The byte limit equals a character limit exactly when the text is ASCII. |
| `PriceFeeds.ErrorCode` | project-11-oracle/price_oracle/programs/price_oracle/src/lib.rs:277-289 | Each error has its own code: `StaleData` 6000, `Unauthorized` 6001, `FeedInactive` 6002, `NameTooLong` 6003 and `DescriptionTooLong` 6004, in declaration order. |
| `PriceFeeds.ErrorCodesDistinct` | project-11-oracle/price_oracle/target/types/price_oracle.ts:432-457 | Distinct errors never share a code. |
| `PriceFeeds.NewFeed` | project-11-oracle/price_oracle/programs/price_oracle/src/lib.rs:30-38 | The record `create_feed` writes points at the registry and is owned by the signer. It holds the given id, name and description, value 0 and update count 0, is active, and is stamped `now`, so it reads as 0 at once. |
| `PriceFeeds.GetFeedValue` | project-11-oracle/price_oracle/programs/price_oracle/src/lib.rs:63-74 | An inactive feed fails `FeedInactive` whatever its age. Otherwise, an age of at least 172 800 fails `StaleData`. The read succeeds, returning the stored value, exactly when the feed is active and its age is below 172 800. |
| `PriceFeeds.GetFeedInfo` | project-11-oracle/price_oracle/programs/price_oracle/src/lib.rs:134-146 | `get_feed_info` reports exactly the seven stored fields, so they plus the record's two keys rebuild it. This holds on every record, active or stale or not. |
| `PriceFeeds.GetOracleInfo` | project-11-oracle/price_oracle/programs/price_oracle/src/lib.rs:124-131 | `get_oracle_info` reports exactly the registry's authority and feed count. |
| `PriceFeeds.FeedInfoAgreesWithValue` | project-11-oracle/price_oracle/programs/price_oracle/src/lib.rs:63-74 | Where the value read succeeds, the info view reports the same value. The info view also answers for inactive feeds that the value read refuses. |
| `PriceFeeds.UpdateFeedStep` | project-11-oracle/price_oracle/programs/price_oracle/src/lib.rs:48-60 | `update_feed` on the loaded record succeeds exactly for the feed authority on an active feed whose update count can advance. The new value then reads back at the update time. It fails only with the constraint, `FeedInactive` or overflow. |
| `PriceFeeds.ToggleFeedStatusStep` | project-11-oracle/price_oracle/programs/price_oracle/src/lib.rs:77-87 | Only the feed authority may toggle. The toggle flips `is_active` and changes no other field. Anyone else fails the constraint. |
| `PriceFeeds.UpdateFeedMetadataStep` | project-11-oracle/price_oracle/programs/price_oracle/src/lib.rs:90-103 | Success happens exactly for the feed authority with no description or one of at most 100 bytes. Only the description can change, and it becomes the given one. The authority with a longer one fails `DescriptionTooLong`. |
| `PriceFeeds.TransferFeedAuthorityStep` | project-11-oracle/price_oracle/programs/price_oracle/src/lib.rs:115-121 | Only the feed authority may transfer. `authority` becomes the new key and no other field changes. Anyone else fails the constraint. |
| `PriceFeeds.TransferOracleAuthorityStep` | project-11-oracle/price_oracle/programs/price_oracle/src/lib.rs:106-112 | Only the registry authority may transfer. `authority` becomes the new key and `feed_count` is kept. Anyone else fails the constraint. |
| `PriceFeeds.UpdateFeedSpec` | project-11-oracle/price_oracle/programs/price_oracle/src/lib.rs:48-60 | The feed authority is checked first, then the active flag (`FeedInactive`). Success happens exactly for the authority on an active feed. It sets the value and timestamp, adds one to the update count, and changes no other field. |
| `PriceFeeds.RepeatedUpdates` | project-11-oracle/price_oracle/programs/price_oracle/src/lib.rs:52-56 | k successful updates raise the update count by k. They leave the last value written and its time, and nothing else changes. |
| `PriceFeeds.FreshnessWindow` | project-11-oracle/price_oracle/programs/price_oracle/src/lib.rs:69-73 | A value written at time t reads back while its age is below 172 800 seconds. From an age of exactly 172 800 on, it is stale. |
| `PriceFeeds.NewFeedIsFresh` | project-11-oracle/price_oracle/programs/price_oracle/src/lib.rs:35-36 | A newly created feed reads as 0 for the 48 hours after its creation. |
| `PriceFeeds.ToggleTwiceRestores` | project-11-oracle/price_oracle/programs/price_oracle/src/lib.rs:77-87 | Only the feed authority may toggle. A toggle negates `is_active` and nothing else, and two toggles restore the record. |
| `PriceFeeds.InactiveFeedIsGated` | project-11-oracle/price_oracle/programs/price_oracle/src/lib.rs:52 | On an inactive feed, reads fail `FeedInactive` and updates fail too. Toggling the feed back makes a fresh value readable again. |
| `PriceFeeds.UpdateFeedMetadataSpec` | project-11-oracle/price_oracle/programs/price_oracle/src/lib.rs:90-103 | `None` succeeds and changes nothing. With a description of at most 100 bytes, success happens exactly when only the description is replaced. A longer one fails `DescriptionTooLong`. |
| `PriceFeeds.TransferFeedAuthoritySpec` | project-11-oracle/price_oracle/programs/price_oracle/src/lib.rs:115-121 | Only the feed authority may transfer, and only `authority` changes. The new holder then passes all four feed gates, and a different old holder fails all four. |
| `PriceFeeds.TransferOracleAuthoritySpec` | project-11-oracle/price_oracle/programs/price_oracle/src/lib.rs:106-112 | Only the registry authority may transfer, and only the registry's `authority` changes. |
| `PriceOracle.FeedCountIsNumberOfFeeds` | project-11-oracle/price_oracle/programs/price_oracle/src/lib.rs:32-41 | In a consistent registry the feed ids are exactly 0 .. feed_count-1, so `feed_count` (and `get_oracle_info`) equals the number of feeds created. |
| `PriceOracle.CreateFeedCheck` | project-11-oracle/price_oracle/programs/price_oracle/src/lib.rs:21-41 | The guards of `create_feed`: a missing registry fails `AccountNotInitialized`. Success happens exactly when the registry exists, the new feed's address is free, the registry authority signs, the name has at most 32 bytes and the description at most 100, and `feed_count` can advance. It never fails with `Unauthorized`, `StaleData` or `FeedInactive`. |
| `PriceOracle.CreateFeedFailures` | project-11-oracle/price_oracle/programs/price_oracle/src/lib.rs:21-23 | In a consistent registry, `create_feed` fails in this order: a non-authority signer, then a name over 32 bytes, then a description over 100 bytes. The new feed's address is never taken. It succeeds exactly when the authority supplies short texts and the counter can advance. |
| `PriceOracle.OldOracleAuthorityCannotCreate` | project-11-oracle/price_oracle/programs/price_oracle/src/lib.rs:208-210 | After the registry authority moves, the old holder fails the gate of `create_feed` and the new holder passes it. |
| `PriceOracle.UnauthorizedNeverRaised` | project-11-oracle/price_oracle/programs/price_oracle/src/lib.rs:282 | No handler ever fails with the declared `Unauthorized` error. |
| `PriceOracle.OracleProgram.InitializeOracle` | project-11-oracle/price_oracle/programs/price_oracle/src/lib.rs:10-18 | This creates the registry with the signer as authority and a feed count of 0. It fails `AccountAlreadyInUse` if the registry already exists. |
| `PriceOracle.OracleProgram.CreateFeed` | project-11-oracle/price_oracle/programs/price_oracle/src/lib.rs:21-45 | The result is the ordered check. On success, a feed with id = old `feed_count` is stored: value 0, update count 0, active, owned by the signer, pointing at the registry, stamped `now`. `feed_count` rises by one. On failure nothing changes. The registry invariant is kept. |
| `PriceOracle.OracleProgram.UpdateFeed` | project-11-oracle/price_oracle/programs/price_oracle/src/lib.rs:48-60 | A missing feed fails. Otherwise only that feed changes, as the update step says, and the registry is untouched. |
| `PriceOracle.OracleProgram.ToggleFeedStatus` | project-11-oracle/price_oracle/programs/price_oracle/src/lib.rs:77-87 | Only the addressed feed changes, by the toggle step. A failure changes nothing. |
| `PriceOracle.OracleProgram.UpdateFeedMetadata` | project-11-oracle/price_oracle/programs/price_oracle/src/lib.rs:90-103 | Only the addressed feed changes, by the metadata step. A failure changes nothing. |
| `PriceOracle.OracleProgram.TransferOracleAuthority` | project-11-oracle/price_oracle/programs/price_oracle/src/lib.rs:106-112 | Only the registry record changes, by the transfer step. The map of feeds, and so every feed's authority, is untouched. |
| `PriceOracle.OracleProgram.TransferFeedAuthority` | project-11-oracle/price_oracle/programs/price_oracle/src/lib.rs:115-121 | Only the addressed feed changes, by the transfer step. A failure changes nothing. |
| `TodoListApp.FirstIndexOf` | project-02-todo-list/todo_list/programs/todo_list/src/lib.rs:47-54 | The result is the position of the first item with the id. It is `None` exactly when no item has it. |
| `TodoListApp.ToggledAt` | project-02-todo-list/todo_list/programs/todo_list/src/lib.rs:51 | Toggling item `k` flips its completion flag, keeps its id and description, and leaves the length and every other item unchanged. |
| `TodoListApp.RemovedAt` | project-02-todo-list/todo_list/programs/todo_list/src/lib.rs:64 | `Vec::remove(k)` leaves the list one shorter, with the items before `k` in place and those after it shifted down by one. |
| `TodoListApp.IncreasingIdsAreUnique` | project-02-todo-list/todo_list/programs/todo_list/src/lib.rs:31 | With strictly increasing ids, no two items share an id. |
| `TodoListApp.AppendKeepsInvariant` | project-02-todo-list/todo_list/programs/todo_list/src/lib.rs:29-37 | Appending an item with id `next_id` keeps the ids strictly increasing and all below `next_id + 1`. |
| `TodoListApp.ToggleKeepsIds` | project-02-todo-list/todo_list/programs/todo_list/src/lib.rs:51 | A toggle leaves the length and every id unchanged, so the scan finds the same item again. |
| `TodoListApp.ToggleTwiceRestores` | project-02-todo-list/todo_list/programs/todo_list/src/lib.rs:47-53 | Toggling the same id twice restores the list. |
| `TodoListApp.RemoveKeepsInvariant` | project-02-todo-list/todo_list/programs/todo_list/src/lib.rs:62-65 | Removing one item shortens the list by one and keeps the relative order of the rest. The ids stay strictly increasing and below `next_id`. |
| `TodoListApp.DeleteRemovesId` | project-02-todo-list/todo_list/programs/todo_list/src/lib.rs:62-65 | After the delete, no item with the deleted id remains. |
| `TodoListApp.TodoList.CreateList` | project-02-todo-list/todo_list/programs/todo_list/src/lib.rs:14-21 | This creates an empty list owned by the user, with `next_id = 0`. |
| `TodoListApp.TodoList.AddItem` | project-02-todo-list/todo_list/programs/todo_list/src/lib.rs:24-39 | Only the owner may add. Exactly one incomplete item with id = old `next_id` is appended at the end, and `next_id` rises by one. The earlier items are unchanged. |
| `TodoListApp.TodoList.ToggleCompletedItem` | project-02-todo-list/todo_list/programs/todo_list/src/lib.rs:42-58 | Only the owner may toggle. The first matching item's flag flips and nothing else changes. With no match the result is `ItemNotFound` and nothing changes. |
| `TodoListApp.TodoList.DeleteItem` | project-02-todo-list/todo_list/programs/todo_list/src/lib.rs:60-69 | Only the owner may delete. Exactly the first matching item is removed, keeping the order of the rest. With no match the result is `ItemNotFound` and nothing changes. |
| `TodoListApp.TodoList.CloseList` | project-02-todo-list/todo_list/programs/todo_list/src/lib.rs:73-81 | For the owner, closing succeeds exactly when the list is empty and fails `ListNotEmpty` otherwise. For anyone else it fails the constraint. |
| `CounterApp.Incremented` | project-01-counter/counter_app/programs/counter_app/src/lib.rs:33-41 | Increment fails `CounterOverflow` exactly at `u64::MAX`. Otherwise it adds one, never wrapping. |
| `CounterApp.Decremented` | project-01-counter/counter_app/programs/counter_app/src/lib.rs:57-65 | Decrement fails `CounterUnderflow` exactly at 0. Otherwise it subtracts one, never wrapping. |
| `CounterApp.IncrementDecrementRoundTrip` | project-01-counter/counter_app/tests/counter_app.ts:48-71 | A successful increment followed by a decrement returns the original count, and the other way round. |
| `CounterApp.Counter.Initialize` | project-01-counter/counter_app/programs/counter_app/src/lib.rs:12-24 | The new counter is 0. |
| `CounterApp.Counter.Increment` | project-01-counter/counter_app/programs/counter_app/src/lib.rs:27-48 | The count becomes the checked increment. On `CounterOverflow` it stays unchanged. |
| `CounterApp.Counter.Decrement` | project-01-counter/counter_app/programs/counter_app/src/lib.rs:51-72 | The count becomes the checked decrement. On `CounterUnderflow` it stays unchanged. |
| `CounterApp.Counter.GetCount` | project-01-counter/counter_app/programs/counter_app/src/lib.rs:74-84 | This returns the count and changes nothing. |
| `CounterApp.Counter.Reset` | project-01-counter/counter_app/programs/counter_app/src/lib.rs:86-99 | The count is 0 from any state, so a second reset changes nothing. |
| `MultiSigApp.CheckThreshold` | project-03-multi-sig/multi_sig/programs/multi_sig/src/lib.rs:18-19 | A threshold passes exactly when 1 ≤ threshold ≤ (owner count mod 256). Above that, it fails `InvalidThreshold`. |
| `MultiSigApp.ZeroThresholdRejected` | project-03-multi-sig/multi_sig/programs/multi_sig/src/lib.rs:18-19 | A zero threshold passes the first guard and fails `InvalidThresholdGtZero`. |
| `MultiSigApp.AcceptedThresholdWithinOwners` | project-03-multi-sig/multi_sig/programs/multi_sig/src/lib.rs:18 | An accepted threshold is between 1 and the real owner count. |
| `MultiSigApp.TruncationRejects` | project-03-multi-sig/multi_sig/programs/multi_sig/src/lib.rs:18 | Because of the `as u8` cast, 256 owners refuse every non-zero threshold and 257 owners refuse a threshold of 2. |
| `MultiSigApp.LenAsU8` | project-03-multi-sig/multi_sig/programs/multi_sig/src/lib.rs:18 | The cast keeps the count mod 256, and keeps counts up to 255 exactly. |
| `MultiSigApp.MultiSig.CreateMultiSig` | project-03-multi-sig/multi_sig/programs/multi_sig/src/lib.rs:14-25 | The result is the two guards in order. On success `name`, `owners` and `threshold` are stored verbatim, with 1 ≤ threshold ≤ owners mod 256. On failure no field is written. |

## Left out

- PDA derivation (seeds and bumps) is not modelled. Feeds are keyed by id and
  the registry's address is a constant. The multi-sig `nonce` and the todo
  list's `bump` only feed addresses and are not modelled.
- Account creation, payers, rent and `space` sizing are not modelled. This
  includes failures of lamport transfers and of serialising an account that has
  outgrown its space, for example a todo list over 1000 bytes or a multi-sig
  with more than ten owners.
- The lamport reclaim of `close = owner` is out.
  `TodoListApp.TodoList.CloseList` models only the handler's emptiness check.
- `msg!` logging, Borsh serialisation, account discriminators and the system
  program are not modelled.
- Concurrency is out. Each instruction is one atomic method, which is the
  runtime's guarantee.
- The read-only views (`PriceFeeds.GetFeedValue`, `PriceFeeds.GetFeedInfo`,
  `PriceFeeds.GetOracleInfo`) are modelled on the loaded record. Loading a
  missing account fails, as in the mutating handlers.
- The multi-sig `add_owner` stub is out. It is an empty handler with an
  incomplete `Context<>`, and the comments after it are a to-do list, not code.
- The oracle's unused `BatchUpdate` accounts struct is out.
- The todo program's and multi-sig program's `initialize` handlers only log, so
  they are out.
- `Clock::get()` is assumed to succeed. Its time is the `now` parameter.
