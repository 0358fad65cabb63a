# Tribal contract: founder record, error messages, counter

A Dafny model of the per-founder core of the tribal contract, a multi-party
commit protocol in which a small set of founders pledge value to a shared
venture (a tribe) and each casts a vote. The model covers three Rust files:

- `founder.rs`: the `Founder` record (identity, `initial` and `required`
  flags, a three-valued vote, a positive promise and the amount funded so far),
  its checked construction (`new`, `initial_founder`), the guarded in-place
  `fund`, the predicates `has_funds`, `is_accepted`, `is_rejected`,
  `is_funded` and `has_pending_activity` (the founder's term of the tribe's
  activation rule), and `describe` as a structured report.
- `errors.rs`: the thirteen `TribeError` kinds and their user-visible messages.
- `lib.rs`: the `Inkrement` contract, a `u64` counter with `new`, `default`,
  `inc` and `get`.

Layout: `errors.dfy` (module `Errors`), `founder.dfy` (module `Founders`),
`inkrement.dfy` (module `Inkrement`).

`founder.rs` mixes values and in-place updates, and so does the model. A
`Founders.Record` datatype holds the struct's fields as a value; the pure
operations (`New`, the predicates, `Describe`) are its functions, and
`Record.Fund` states what `fund` does to a record. The class
`Founders.Founder` holds the same fields in a mutable object, as a Rust
`let mut` binding does; its `Fund` method updates `amountFunded` in place and
is proved against `Record.Fund`, and its static `InitialFounder` builds a
record with `New` and then sets `initial` on the fresh object. Sequences of
contributions are described by `FundEach`, which applies `Record.Fund` in
turn; `FundEachTotals` proves by induction what such a sequence does.

`AccountId` is an abstract type with equality only. `u128` and `u64` are
subset types of `nat` with the Rust bounds.

Three behaviours of the code that the model keeps as written:

- funding a rejected founder fails as "not accepted", exactly like funding a
  pending one, because `fund` tests `!is_accepted()` (founder.rs:50-52);
- `has_pending_activity` tests the pending vote first (founder.rs:68-75), so a
  pending founder reports exactly its `required` flag, and a pending required
  founder reports true even when funded (`PendingVoteDecidesFirst`);
- `fund` reports failure by panicking, not with a `TribeError`; the model
  gives each panic its own `FundFailure` value. The error text of `new`
  ("amount promised in picos must be greater than 0", founder.rs:32) is not
  the `AmountPromisedIsZero` message of errors.rs:28, and the model keeps them
  apart.

## Model

| member | source | states |
|---|---|---|
| `Founders.New` | founder.rs:20-34 | succeeds exactly when the promise is positive; the record then has the given id, required flag and promise, is not initial, is pending, has nothing funded and blocks activation exactly when required; otherwise fails with the exact construction error text |
| `Founders.Founder.InitialFounder` | founder.rs:36-44 | succeeds exactly when the promise is positive, with a fresh founder that is initial and required, pending, unfunded, with the given id and promise; on a zero promise fails with the same error as `New` |
| `Founders.Record.Fund` | founder.rs:46-60 | succeeds exactly when the amount is positive, the vote is Accepted and the promise is not met; each failure is told apart (zero amount first, then not accepted, then already funded); on success the funded amount grows by exactly the amount, with no clamping, the founder has funds, and no other field changes |
| `Founders.Founder.Fund` | founder.rs:46-60 | updates the object in place as `Record.Fund` says and returns the new total; on every failure the object is unchanged; only `amountFunded` ever changes and it never decreases |
| `Founders.Founder.constructor` | founder.rs:9-16 | the object holds exactly the given record's six fields |
| `Founders.Record.IsAccepted` | founder.rs:85-87 | the vote is Accepted; its promise per vote is stated in `PredicateTable`, and it is the guard `Record.Fund` reports as not accepted |
| `Founders.Record.IsRejected` | founder.rs:93-95 | the vote is Rejected; its promise per vote is stated in `PredicateTable`, and `Describe` reports it as rejected |
| `Founders.Record.IsFunded` | founder.rs:89-91 | the funded amount has reached the promise; when that happens over a sequence of contributions is stated in `FundEachTotals` and `FundedWhenTotalReachesPromise` |
| `Founders.Record.HasFunds` | founder.rs:62-64 | something has been funded; `New` states it is false on a fresh founder and `Record.Fund` that it is true after every successful contribution |
| `Founders.Record.HasPendingActivity` | founder.rs:66-83 | true exactly for a pending required founder or an accepted founder who is not yet funded; false for a rejected founder whatever the funding |
| `Founders.PendingVoteDecidesFirst` | founder.rs:68-75 | for a pending founder the answer is exactly the required flag, so a pending required founder blocks activation even when funded |
| `Founders.Record.Describe` | founder.rs:97-107 | reports initial, required, rejected, completed, promised and funded in that order, where completed means rejected, or accepted and funded, or pending and optional (the negation of pending activity) |
| `Founders.FundEach` | founder.rs:46-60 | calls `fund` with each amount in turn and stops at the first refusal; when all succeed, only the funded amount changes and it grows by the sum of the amounts |
| `Founders.FundEachTotals` | founder.rs:46-60 | for an accepted founder and positive contributions: the whole sequence is accepted exactly when the running total before each contribution is below the promise; the resulting record differs only in its funded amount, which is the old amount plus the sum of the contributions; otherwise the failure is "already funded" |
| `Founders.FundedWhenTotalReachesPromise` | founder.rs:89-91 | after a sequence of accepted contributions the founder is funded exactly when the total reaches the promise, and has pending activity exactly when it does not |
| `Founders.RefusedContributionAddsNothing` | founder.rs:53-57 | against a promise of 1, a first contribution of 2^127 funds the founder and a second one is refused before any addition, so the sequence is admitted though its total exceeds `u128` |
| `Founders.OverpaymentIsKept` | founder.rs:226-243 | three contributions of 2000 against 5000 return 2000, 4000 and 6000 and leave the founder funded; a fourth fails as already funded |
| `Founders.FundedAtFifthStep` | founder.rs:355-379 | five contributions of 1000 against 5000: not funded after the fourth, funded after the fifth |
| `Founders.PendingActivityTable` | founder.rs:284-321 | the ten rows of the pending-activity truth table over required or optional, the three votes, and funded 0 or 5000 of 5000 |
| `Founders.TableFounderAsTestsBuildIt` | founder.rs:293-298 | the table's records are those the tests build: `new` with 5000, for funded rows accepted and funded 5000, then given the row's vote |
| `Founders.PredicateTable` | founder.rs:261-282 | `is_accepted` and `is_rejected` hold for exactly their own vote; a fresh founder has no funds and has funds after a contribution of 100 |
| `Founders.DescribeFreshInitialFounder` | founder.rs:170-177 | the report of a just-created initial founder promising 5000 is initial, required, not rejected, not completed, 5000 promised, 0 funded |
| `Errors.FmtRoundTrip` | errors.rs:24-41 | every error kind has a message and `KindOf` gives back the kind from its message |
| `Errors.Fmt` | errors.rs:24-41 | a message for every one of the thirteen kinds (the match is exhaustive); its promises are stated in `FmtRoundTrip`, `FmtInjective` and the three message lemmas |
| `Errors.RosterRoundTrip` | errors.rs:29-37 | the round trip for the roster and invitation kinds |
| `Errors.FundingRoundTrip` | errors.rs:28-35 | the round trip for the pledge, vote and funding kinds |
| `Errors.LifecycleRoundTrip` | errors.rs:27-39 | the kinds that are neither roster nor funding errors are exactly the three lifecycle kinds, and the round trip holds for them |
| `Errors.FmtInjective` | errors.rs:27-39 | two kinds have the same message exactly when they are the same kind, so the thirteen messages are pairwise distinct |
| `Errors.LifecycleMessages` | errors.rs:49-90 | the active-tribe, defunct and locked messages are exactly the strings the tests assert |
| `Errors.RosterMessages` | errors.rs:80-88 | the roster and invitation messages are exactly the strings the tests assert |
| `Errors.FundingMessages` | errors.rs:79-86 | the pledge, vote and funding messages are exactly the strings the tests assert |
| `Errors.FounderListNotFoundDoubleSpace` | errors.rs:31 | the FounderListNotFound message keeps its two spaces after "founders" |
| `Inkrement.Inkrement.New` | lib.rs:19-22 | the counter stores the initial value |
| `Inkrement.Inkrement.Default` | lib.rs:27-30 | the counter starts at zero |
| `Inkrement.Inkrement.Inc` | lib.rs:35-38 | the stored value grows by exactly one |
| `Inkrement.Inkrement.Get` | lib.rs:41-44 | returns the stored value and changes nothing |
| `Inkrement.DefaultReadsZero` | lib.rs:59-63 | a default counter reads zero |
| `Inkrement.IncrementFromZero` | lib.rs:66-72 | a counter created at zero reads zero, then one after an increment |

## Left out

- Tribe-level orchestration (roster lookup, invitation, accept and reject
  votes, funding the tribe, lifecycle guards, whole-roster activation) is not
  in these files; `has_pending_activity` is modelled as the per-founder term
  only. The crate module that defines the vote constants is not part of this
  model; the vote is a three-valued datatype.
- Raw `i32` vote values other than the three named constants, which the tests
  can write into the public field, are not modelled.
- `Founders.Founder.Fund`: does not model `u128` overflow of
  `amount_funded += amount`; its requires (and that of `Record.Fund`)
  demands that the addition stays within `u128`.
- `Founders.FundEach`: does not model `u128` overflow either; its requires
  (`FundsFit`) demands that each addition actually made stays within `u128`.
- `Inkrement.Inkrement.Inc`: does not model `u64` overflow of `value += 1`;
  its requires demands that the value is below the largest `u64`.
- Panic message texts of `fund` are not modelled; each panic is a
  `FundFailure` value.
- `describe` builds a string with `format!`; the model returns the same six
  values as a record, without the decimal text.
- `AccountId` internals and its construction from bytes are a foreign type;
  the model uses an abstract type with equality.
- The host-environment attributes, storage layout and encoding derives, and
  the dispatch of messages and constructors belong to the contract framework
  and are not modelled.
- Concurrency, value transfer and persistence do not appear in these files.
