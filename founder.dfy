/** One founder's record in the tribe commit protocol: the pledge, the vote and
    the funding received so far, with the checked construction, the guarded
    funding step and the predicates the tribe's activation rule is built from. */
module Founders {

  /** 2^128: the values of Rust's `u128` are the naturals below it. */
  const U128_LIMIT: nat := 0x1_0000_0000_0000_0000_0000_0000_0000_0000

  type u128 = x: nat | x < U128_LIMIT

  /** A participant's identity, compared for equality only. */
  type AccountId(==)

  datatype Result<T, E> = Ok(value: T) | Err(error: E)

  /** The three meaningful values of a founder's vote. */
  datatype Vote = Pending | Accepted | Rejected

  /** Why `fund` refuses a contribution; each is one of its panics. */
  datatype FundFailure =
    | ZeroAmount     // the contribution is zero
    | NotAccepted    // the founder has not accepted (pending or rejected)
    | AlreadyFunded  // the promise is already met

  /** The error text of construction with a zero promise. */
  const AmountPromisedZero: string := "amount promised in picos must be greater than 0"

  /** The structured status report of a founder, in the order `describe` in founder.rs reports it. */
  datatype Description = Description(
    initial: bool,
    required: bool,
    rejected: bool,
    completed: bool,
    amountPromised: u128,
    amountFunded: u128)

  /** A founder record as a value: the fields of the `Founder` struct of founder.rs. */
  datatype Record = Record(
    id: AccountId,
    initial: bool,
    required: bool,
    vote: Vote,
    amountPromised: u128,
    amountFunded: u128)
  {
    predicate IsAccepted() { vote == Accepted }

    predicate IsRejected() { vote == Rejected }

    /** The promise is met, possibly exceeded. */
    predicate IsFunded() { amountFunded >= amountPromised }

    /** Some value has been contributed. */
    predicate HasFunds() { amountFunded > 0 }

    /** The founder's term of the tribe's activation rule: true while this founder
        still blocks activation. A pending founder blocks exactly when required,
        whatever the funding; an accepted one until funded; a rejected one never. */
    predicate HasPendingActivity()
      ensures HasPendingActivity() <==> (vote == Pending && required) || (vote == Accepted && !IsFunded())
    {
      if vote == Pending then required
      else if IsRejected() then false
      else if IsFunded() then false
      else true
    }

    /** The status report; "completed" means the founder no longer blocks activation. */
    function Describe(): (d: Description)
      ensures d.initial == initial && d.required == required
      ensures d.rejected <==> vote == Rejected
      ensures d.completed <==> vote == Rejected || (vote == Accepted && IsFunded()) || (vote == Pending && !required)
      ensures d.amountPromised == amountPromised && d.amountFunded == amountFunded
    {
      Description(initial, required, IsRejected(), !HasPendingActivity(), amountPromised, amountFunded)
    }

    /** The addition `fund` would perform stays within `u128` (or no addition happens). */
    predicate FundFits(amount: u128)
    {
      amount == 0 || !IsAccepted() || IsFunded() || amountFunded + amount < U128_LIMIT
    }

    /** What `fund` does to a record: the checks in the order founder.rs makes them, then the
        contribution is added in full, without clamping at the promise. */
    function Fund(amount: u128): (o: Result<Record, FundFailure>)
      requires FundFits(amount)
      ensures o.Ok? <==> amount > 0 && IsAccepted() && !IsFunded()
      ensures o.Err? ==> (o.error == ZeroAmount <==> amount == 0)
      ensures o.Err? ==> (o.error == NotAccepted <==> amount > 0 && !IsAccepted())
      ensures o.Err? ==> (o.error == AlreadyFunded <==> amount > 0 && IsAccepted() && IsFunded())
      ensures o.Ok? ==> o.value.amountFunded == amountFunded + amount && o.value.HasFunds()
      ensures o.Ok? ==> o.value.(amountFunded := amountFunded) == this
    {
      if amount == 0 then Err(ZeroAmount)
      else if !IsAccepted() then Err(NotAccepted)
      else if IsFunded() then Err(AlreadyFunded)
      else Ok(this.(amountFunded := amountFunded + amount))
    }
  }

  /** Checked construction: a pending, unfunded, non-initial founder with a
      positive promise. */
  function New(id: AccountId, required: bool, amountPromised: u128): (o: Result<Record, string>)
    ensures o.Ok? <==> amountPromised > 0
    ensures o.Ok? ==> o.value.id == id && !o.value.initial && o.value.required == required
    ensures o.Ok? ==> o.value.vote == Pending && o.value.amountPromised == amountPromised
    ensures o.Ok? ==> o.value.amountFunded == 0 && !o.value.HasFunds() && !o.value.IsFunded()
    ensures o.Ok? ==> (o.value.HasPendingActivity() <==> required)
    ensures o.Err? ==> o.error == AmountPromisedZero
  {
    if amountPromised > 0 then
      Ok(Record(id, false, required, Pending, amountPromised, 0))
    else
      Err(AmountPromisedZero)
  }

  /** The total of a sequence of contributions. */
  function Sum(amounts: seq<u128>): nat
  {
    if amounts == [] then 0 else amounts[0] + Sum(amounts[1..])
  }

  /** No addition made while calling `fund` with each amount in turn overflows
      `u128`; a contribution that is refused adds nothing, so what follows a
      refusal is not constrained. */
  predicate FundsFit(r: Record, amounts: seq<u128>)
    decreases |amounts|
  {
    amounts == [] ||
    (r.FundFits(amounts[0]) &&
     match r.Fund(amounts[0])
     case Err(_) => true
     case Ok(next) => FundsFit(next, amounts[1..]))
  }

  /** Calls `fund` with each amount in turn, stopping at the first failure. When
      every call succeeds, the record differs only in its funded amount, which
      has grown by the total of the contributions. */
  function FundEach(r: Record, amounts: seq<u128>): (o: Result<Record, FundFailure>)
    requires FundsFit(r, amounts)
    ensures o.Ok? ==> o.value.(amountFunded := r.amountFunded) == r
    ensures o.Ok? ==> o.value.amountFunded == r.amountFunded + Sum(amounts)
    decreases |amounts|
  {
    if amounts == [] then Ok(r)
    else
      match r.Fund(amounts[0])
      case Err(e) => Err(e)
      case Ok(next) => FundEach(next, amounts[1..])
  }

  lemma SumSplit(amounts: seq<u128>, k: nat)
    requires 0 < k <= |amounts|
    ensures Sum(amounts[..k]) == amounts[0] + Sum(amounts[1..][..k - 1])
  {
    assert amounts[..k][1..] == amounts[1..][..k - 1];
  }

  /** Funding an accepted founder with positive contributions: the sequence is
      accepted in full exactly when every contribution before the last leaves the
      promise unmet (the running total before each contribution is below the
      promise); then the record differs only in its funded amount, which is the
      old one plus the total of the contributions. Otherwise the first
      contribution made after the promise is met fails as already funded. */
  lemma {:induction false} FundEachTotals(r: Record, amounts: seq<u128>)
    requires r.IsAccepted()
    requires forall i :: 0 <= i < |amounts| ==> amounts[i] > 0
    requires FundsFit(r, amounts)
    ensures FundEach(r, amounts).Ok? <==>
      forall k :: 0 <= k < |amounts| ==> r.amountFunded + Sum(amounts[..k]) < r.amountPromised
    ensures FundEach(r, amounts).Ok? ==>
      FundEach(r, amounts).value == r.(amountFunded := r.amountFunded + Sum(amounts))
    ensures FundEach(r, amounts).Err? ==> FundEach(r, amounts).error == AlreadyFunded
    decreases |amounts|
  {
    if amounts != [] {
      var a, rest := amounts[0], amounts[1..];
      assert amounts[..0] == [];
      if r.IsFunded() {
        assert r.amountFunded + Sum(amounts[..0]) >= r.amountPromised;
      } else {
        var next := r.(amountFunded := r.amountFunded + a);
        assert r.Fund(a) == Ok(next);
        FundEachTotals(next, rest);
        forall k | 0 < k <= |amounts|
          ensures r.amountFunded + Sum(amounts[..k]) == next.amountFunded + Sum(rest[..k - 1])
        {
          SumSplit(amounts, k);
        }
        if FundEach(next, rest).Ok? {
          forall k | 0 <= k < |amounts|
            ensures r.amountFunded + Sum(amounts[..k]) < r.amountPromised
          {
            if k > 0 {
              assert r.amountFunded + Sum(amounts[..k]) == next.amountFunded + Sum(rest[..k - 1]);
            }
          }
        } else {
          var j :| 0 <= j < |rest| && next.amountFunded + Sum(rest[..j]) >= next.amountPromised;
          assert r.amountFunded + Sum(amounts[..j + 1]) == next.amountFunded + Sum(rest[..j]);
        }
      }
    }
  }

  /** After a sequence of contributions is accepted in full, the founder is funded
      exactly when their total, with what was funded before, reaches the promise. */
  lemma FundedWhenTotalReachesPromise(r: Record, amounts: seq<u128>)
    requires r.IsAccepted()
    requires forall i :: 0 <= i < |amounts| ==> amounts[i] > 0
    requires FundsFit(r, amounts)
    requires FundEach(r, amounts).Ok?
    ensures FundEach(r, amounts).value.IsFunded() <==> r.amountFunded + Sum(amounts) >= r.amountPromised
    ensures FundEach(r, amounts).value.HasPendingActivity() <==> r.amountFunded + Sum(amounts) < r.amountPromised
  {
    FundEachTotals(r, amounts);
  }

  /** `has_pending_activity` looks at a pending vote first: a pending founder
      reports exactly its `required` flag, even when funded to or beyond the
      promise. */
  lemma PendingVoteDecidesFirst(r: Record)
    requires r.vote == Pending
    ensures r.HasPendingActivity() == r.required
    ensures r.required && r.IsFunded() ==> r.HasPendingActivity()
  {
  }

  /** A fresh founder with the given promise who has accepted. */
  function AcceptedFounder(id: AccountId, required: bool, amountPromised: u128): Record
  {
    Record(id, false, required, Accepted, amountPromised, 0)
  }

  /** Three contributions of 2000 against a promise of 5000 return the running
      totals 2000, 4000 and 6000: the overpayment is kept, and the founder is funded. */
  lemma OverpaymentIsKept(id: AccountId)
    ensures AcceptedFounder(id, true, 5000).Fund(2000).Ok?
    ensures AcceptedFounder(id, true, 5000).Fund(2000).value.amountFunded == 2000
    ensures AcceptedFounder(id, true, 5000).Fund(2000).value.Fund(2000).value.amountFunded == 4000
    ensures FundEach(AcceptedFounder(id, true, 5000), [2000, 2000, 2000]).Ok?
    ensures FundEach(AcceptedFounder(id, true, 5000), [2000, 2000, 2000]).value.amountFunded == 6000
    ensures FundEach(AcceptedFounder(id, true, 5000), [2000, 2000, 2000]).value.IsFunded()
    ensures FundEach(AcceptedFounder(id, true, 5000), [2000, 2000, 2000, 2000]) == Err(AlreadyFunded)
  {
    var r := AcceptedFounder(id, true, 5000);
    FundEachTotals(r, [2000, 2000, 2000]);
    FundEachTotals(r, [2000, 2000, 2000, 2000]);
    assert [2000, 2000, 2000][..2] == [2000, 2000];
    assert [2000, 2000, 2000, 2000][..3] == [2000, 2000, 2000];
  }

  /** Only the additions actually made must fit in `u128`: against a promise of 1,
      a first contribution of 2^127 funds the founder and a second one is refused,
      so their total of 2^128 is never computed. */
  lemma RefusedContributionAddsNothing(id: AccountId)
    ensures FundsFit(AcceptedFounder(id, true, 1), [0x8000_0000_0000_0000_0000_0000_0000_0000, 0x8000_0000_0000_0000_0000_0000_0000_0000])
    ensures FundEach(AcceptedFounder(id, true, 1), [0x8000_0000_0000_0000_0000_0000_0000_0000, 0x8000_0000_0000_0000_0000_0000_0000_0000])
         == Err(AlreadyFunded)
  {
  }

  /** Five contributions of 1000 against a promise of 5000: unfunded after four,
      funded after the fifth. */
  lemma FundedAtFifthStep(id: AccountId)
    ensures FundEach(AcceptedFounder(id, true, 5000), [1000, 1000, 1000, 1000]).Ok?
    ensures !FundEach(AcceptedFounder(id, true, 5000), [1000, 1000, 1000, 1000]).value.IsFunded()
    ensures FundEach(AcceptedFounder(id, true, 5000), [1000, 1000, 1000, 1000, 1000]).Ok?
    ensures FundEach(AcceptedFounder(id, true, 5000), [1000, 1000, 1000, 1000, 1000]).value.IsFunded()
  {
  }

  /** The record a row of the `has_pending_activity` table tests ends with: a
      non-initial founder promising 5000, with the row's vote and funded amount.
      `TableFounderAsTestsBuildIt` shows it is the record the tests build. */
  function TableFounder(id: AccountId, required: bool, vote: Vote, funded: u128): Record
  {
    Record(id, false, required, vote, 5000, funded)
  }

  /** The tests build each row's founder with `new` and a promise of 5000; when
      the row funds 5000 they set the vote to Accepted and call `fund(5000)`; then
      they set the row's vote. Both ways give `TableFounder`. */
  lemma TableFounderAsTestsBuildIt(id: AccountId, required: bool, vote: Vote)
    ensures New(id, required, 5000).value.(vote := vote) == TableFounder(id, required, vote, 0)
    ensures New(id, required, 5000).value.(vote := Accepted).Fund(5000).Ok?
    ensures New(id, required, 5000).value.(vote := Accepted).Fund(5000).value.(vote := vote)
         == TableFounder(id, required, vote, 5000)
  {
  }

  lemma PendingActivityTable(id: AccountId)
    ensures TableFounder(id, true, Pending, 0).HasPendingActivity()
    ensures TableFounder(id, true, Accepted, 0).HasPendingActivity()
    ensures !TableFounder(id, true, Accepted, 5000).HasPendingActivity()
    ensures !TableFounder(id, true, Rejected, 0).HasPendingActivity()
    ensures !TableFounder(id, true, Rejected, 5000).HasPendingActivity()
    ensures !TableFounder(id, false, Pending, 0).HasPendingActivity()
    ensures TableFounder(id, false, Accepted, 0).HasPendingActivity()
    ensures !TableFounder(id, false, Accepted, 5000).HasPendingActivity()
    ensures !TableFounder(id, false, Rejected, 0).HasPendingActivity()
    ensures !TableFounder(id, false, Rejected, 5000).HasPendingActivity()
  {
  }

  /** The vote and funding predicates as the tests pin them: `is_accepted` and
      `is_rejected` for each vote, and `has_funds` before and after a contribution. */
  lemma PredicateTable(id: AccountId, required: bool)
    ensures TableFounder(id, required, Accepted, 0).IsAccepted()
    ensures !TableFounder(id, required, Pending, 0).IsAccepted()
    ensures !TableFounder(id, required, Rejected, 0).IsAccepted()
    ensures TableFounder(id, required, Rejected, 0).IsRejected()
    ensures !TableFounder(id, required, Pending, 0).IsRejected()
    ensures !TableFounder(id, required, Accepted, 0).IsRejected()
    ensures !New(id, required, 5000).value.HasFunds()
    ensures AcceptedFounder(id, required, 5000).Fund(100).value.HasFunds()
  {
  }

  /** The status report of the initial founder right after creation with a
      promise of 5000. */
  lemma DescribeFreshInitialFounder(id: AccountId)
    ensures Record(id, true, true, Pending, 5000, 0).Describe()
         == Description(true, true, false, false, 5000, 0)
  {
  }

  /** A founder record held in a mutable place, as a Rust binding of type
      `Founder` is; `fund` and `initial_founder` update it in place. */
  class Founder {
    var id: AccountId
    var initial: bool
    var required: bool
    var vote: Vote
    var amountPromised: u128
    var amountFunded: u128

    /** The record currently held. */
    function Value(): Record
      reads this
    {
      Record(id, initial, required, vote, amountPromised, amountFunded)
    }

    /** Holds the given record. */
    constructor (r: Record)
      ensures Value() == r
    {
      id := r.id;
      initial := r.initial;
      required := r.required;
      vote := r.vote;
      amountPromised := r.amountPromised;
      amountFunded := r.amountFunded;
    }

    /** The founder who creates the tribe: built by checked construction as a
        required founder, then marked initial. Fails exactly as `New` does. */
    static method InitialFounder(id: AccountId, amountPromised: u128) returns (o: Result<Founder, string>)
      ensures o.Ok? <==> amountPromised > 0
      ensures o.Ok? ==> fresh(o.value)
      ensures o.Ok? ==> o.value.Value() == Record(id, true, true, Pending, amountPromised, 0)
      ensures o.Ok? ==> o.value.Value().HasPendingActivity() && !o.value.Value().HasFunds()
      ensures o.Err? ==> o.error == New(id, true, amountPromised).error == AmountPromisedZero
    {
      match New(id, true, amountPromised)
      case Ok(r) =>
        var f := new Founder(r);
        f.initial := true;
        o := Ok(f);
      case Err(e) =>
        o := Err(e);
    }

    /** Contributes `amount`: on success the funded amount grows by exactly
        `amount` and the new total is returned; on failure the record is left as
        it was. Nothing but the funded amount ever changes. */
    method Fund(amount: u128) returns (o: Result<u128, FundFailure>)
      requires Value().FundFits(amount)
      modifies this
      ensures old(Value()).Fund(amount).Ok? ==>
        Value() == old(Value()).Fund(amount).value && o == Ok(amountFunded)
      ensures old(Value()).Fund(amount).Err? ==>
        Value() == old(Value()) && o == Err(old(Value()).Fund(amount).error)
      ensures o.Ok? ==> amountFunded == old(amountFunded) + amount
      ensures Value().(amountFunded := old(amountFunded)) == old(Value())
      ensures amountFunded >= old(amountFunded)
    {
      if amount == 0 {
        return Err(ZeroAmount);
      }
      if !Value().IsAccepted() {
        return Err(NotAccepted);
      } else if Value().IsFunded() {
        return Err(AlreadyFunded);
      } else {
        amountFunded := amountFunded + amount;
      }
      o := Ok(amountFunded);
    }
  }
}
