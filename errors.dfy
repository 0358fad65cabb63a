/** The tribe error taxonomy and the user-visible message of each kind. */
module Errors {

  datatype Option<T> = None | Some(value: T)

  /** The thirteen error kinds, in declaration order. */
  datatype TribeError =
    | ActiveTribeCannotAcceptFounderAction
    | AmountPromisedIsZero
    | CanNotInviteInitialFounder
    | FounderAlreadyInvited
    | FounderListNotFound
    | FounderRejectedInvitation
    | FounderVoteActionPending
    | FundingAlreadyCompleted
    | FundingAmountMustBeGreaterThanZero
    | NotAFounder
    | NotInitialFounder
    | TribeIsDefunct
    | TribeIsLocked

  /** The message of an error kind. The match is exhaustive, so every kind has one. */
  function Fmt(e: TribeError): string
  {
    match e
    case ActiveTribeCannotAcceptFounderAction => "Active tribe cannot accept founder action"
    case AmountPromisedIsZero => "Amount promised in pico must be greater than 0"
    case CanNotInviteInitialFounder => "The initial founder can not be invited to join their own tribe"
    case FounderAlreadyInvited => "AccountId already exists as a Founder"
    case FounderListNotFound => "Tribe list of founders  not found"
    case FounderRejectedInvitation => "Founder already rejected invitation to tribe"
    case FounderVoteActionPending => "Founder has not taken an action on pending invitation"
    case FundingAlreadyCompleted => "Founder has already completed funding"
    case FundingAmountMustBeGreaterThanZero => "Funding amount must be greater than zero amount"
    case NotAFounder => "AccountId is not a Founder"
    case NotInitialFounder => "AccountId is not the Initial Founder"
    case TribeIsDefunct => "Tribe is defunct and cannot accept any more activity"
    case TribeIsLocked => "Tribe is locked due to founder activity"
  }

  /** The error kind a message belongs to, if any: the inverse of `Fmt`. The
      messages have distinct lengths except two of length 37, which differ in
      their first character, so the length (and that character) pick the only
      candidate, which is then compared in full. */
  function KindOf(msg: string): Option<TribeError>
  {
    match |msg|
    case 41 => Confirm(msg, ActiveTribeCannotAcceptFounderAction)
    case 46 => Confirm(msg, AmountPromisedIsZero)
    case 62 => Confirm(msg, CanNotInviteInitialFounder)
    case 37 => Confirm(msg, if msg[0] == 'A' then FounderAlreadyInvited else FundingAlreadyCompleted)
    case 33 => Confirm(msg, FounderListNotFound)
    case 44 => Confirm(msg, FounderRejectedInvitation)
    case 53 => Confirm(msg, FounderVoteActionPending)
    case 47 => Confirm(msg, FundingAmountMustBeGreaterThanZero)
    case 26 => Confirm(msg, NotAFounder)
    case 36 => Confirm(msg, NotInitialFounder)
    case 52 => Confirm(msg, TribeIsDefunct)
    case 39 => Confirm(msg, TribeIsLocked)
    case _ => None
  }

  /** `Some(candidate)` when `msg` is exactly the candidate's message. */
  function Confirm(msg: string, candidate: TribeError): Option<TribeError>
  {
    if msg == Fmt(candidate) then Some(candidate) else None
  }

  /** Errors of roster lookup and invitation. */
  predicate IsRosterError(e: TribeError)
  {
    e.CanNotInviteInitialFounder? || e.FounderAlreadyInvited? || e.FounderListNotFound?
    || e.NotAFounder? || e.NotInitialFounder?
  }

  /** Errors of pledging, voting and funding. */
  predicate IsFundingError(e: TribeError)
  {
    e.AmountPromisedIsZero? || e.FounderRejectedInvitation? || e.FounderVoteActionPending?
    || e.FundingAlreadyCompleted? || e.FundingAmountMustBeGreaterThanZero?
  }

  lemma RosterRoundTrip(e: TribeError)
    requires IsRosterError(e)
    ensures KindOf(Fmt(e)) == Some(e)
  {
  }

  lemma FundingRoundTrip(e: TribeError)
    requires IsFundingError(e)
    ensures KindOf(Fmt(e)) == Some(e)
  {
  }

  /** The remaining kinds are the lifecycle errors: an active, defunct or locked tribe. */
  lemma LifecycleRoundTrip(e: TribeError)
    requires !IsRosterError(e) && !IsFundingError(e)
    ensures e.ActiveTribeCannotAcceptFounderAction? || e.TribeIsDefunct? || e.TribeIsLocked?
    ensures KindOf(Fmt(e)) == Some(e)
  {
  }

  /** `KindOf` inverts `Fmt`. */
  lemma FmtRoundTrip(e: TribeError)
    ensures KindOf(Fmt(e)) == Some(e)
  {
    if IsRosterError(e) {
      RosterRoundTrip(e);
    } else if IsFundingError(e) {
      FundingRoundTrip(e);
    } else {
      LifecycleRoundTrip(e);
    }
  }

  /** Distinct kinds have distinct messages, so a message identifies its kind. */
  lemma FmtInjective(a: TribeError, b: TribeError)
    ensures Fmt(a) == Fmt(b) <==> a == b
  {
    if Fmt(a) == Fmt(b) {
      FmtRoundTrip(a);
      FmtRoundTrip(b);
    }
  }

  /** The FounderListNotFound message keeps two consecutive spaces after "founders". */
  lemma FounderListNotFoundDoubleSpace()
    ensures |Fmt(FounderListNotFound)| == 33
    ensures Fmt(FounderListNotFound)[14..22] == "founders"
    ensures Fmt(FounderListNotFound)[22] == ' ' && Fmt(FounderListNotFound)[23] == ' '
  {
  }

  /** The messages of the lifecycle errors, verbatim as the tests assert them. */
  lemma LifecycleMessages()
    ensures Fmt(ActiveTribeCannotAcceptFounderAction) == "Active tribe cannot accept founder action"
    ensures Fmt(TribeIsDefunct) == "Tribe is defunct and cannot accept any more activity"
    ensures Fmt(TribeIsLocked) == "Tribe is locked due to founder activity"
  {
  }

  /** The messages of the roster errors, verbatim as the tests assert them. */
  lemma RosterMessages()
    ensures Fmt(CanNotInviteInitialFounder) == "The initial founder can not be invited to join their own tribe"
    ensures Fmt(FounderAlreadyInvited) == "AccountId already exists as a Founder"
    ensures Fmt(FounderListNotFound) == "Tribe list of founders  not found"
    ensures Fmt(NotAFounder) == "AccountId is not a Founder"
    ensures Fmt(NotInitialFounder) == "AccountId is not the Initial Founder"
  {
  }

  /** The messages of the funding errors, verbatim as the tests assert them. */
  lemma FundingMessages()
    ensures Fmt(AmountPromisedIsZero) == "Amount promised in pico must be greater than 0"
    ensures Fmt(FounderRejectedInvitation) == "Founder already rejected invitation to tribe"
    ensures Fmt(FounderVoteActionPending) == "Founder has not taken an action on pending invitation"
    ensures Fmt(FundingAlreadyCompleted) == "Founder has already completed funding"
    ensures Fmt(FundingAmountMustBeGreaterThanZero) == "Funding amount must be greater than zero amount"
  {
  }
}
