/** The vote button under a submission: a count and whether the signed-in
    user has voted, toggled by inserting or deleting the user's vote row. */
module Voting {
  import opened Common

  /** The part of the component's state the toggle changes. */
  datatype VoteState = VoteState(votes: int, hasVoted: bool)

  /** The state after a vote request: a successful request flips
      `hasVoted` and moves the count by one in the matching direction; a
      failed one changes nothing. */
  function AfterVote(s: VoteState, succeeded: bool): (t: VoteState)
    ensures !succeeded ==> t == s
    ensures succeeded ==> t.hasVoted == !s.hasVoted
    ensures succeeded ==> t.votes == if s.hasVoted then s.votes - 1 else s.votes + 1
  {
    if !succeeded then s
    else if s.hasVoted then VoteState(s.votes - 1, false)
    else VoteState(s.votes + 1, true)
  }

  /** Two successful toggles give back the original state. */
  lemma ToggleTwiceRestores(s: VoteState)
    ensures AfterVote(AfterVote(s, true), true) == s
  {
  }

  /** The shown count stays the other voters' count plus this user's vote:
      every request, successful or not, keeps that relation. */
  lemma VoteCountTracksOwnVote(s: VoteState, others: int, succeeded: bool)
    requires s.votes == others + (if s.hasVoted then 1 else 0)
    ensures AfterVote(s, succeeded).votes == others + (if AfterVote(s, succeeded).hasVoted then 1 else 0)
  {
  }

  /** The answer to "has this user voted on this submission?": a row, no
      usable row (error code PGRST116, which `single()` reports for zero
      rows and for several rows alike, with no data), or any other
      failure. */
  datatype VoteLookup = VoteRow | NoVoteRow | LookupFailed

  /** The toast `handleVote` shows. */
  datatype VoteNotice = AuthenticationRequired | VoteRemoved | VoteAdded | VoteFailed

  /** The `VotingSystem` component's state. */
  class VotingSystem {
    var votes: int
    var hasVoted: bool
    var loading: bool

    /** `initialVotes` is None when it is undefined or NaN; a falsy value
        starts the count at 0. */
    constructor (initialVotes: Option<int>)
      ensures votes == (if initialVotes.Some? then initialVotes.value else 0)
      ensures !hasVoted && !loading
    {
      votes := if initialVotes.Some? && initialVotes.value != 0 then initialVotes.value else 0;
      hasVoted := false;
      loading := false;
    }

    function State(): VoteState
      reads this
    {
      VoteState(votes, hasVoted)
    }

    /** The button is disabled while a request is in flight. */
    predicate ButtonEnabled()
      reads this
    {
      !loading
    }

    /** `checkUserVote`: only a definite answer updates `hasVoted`. */
    method CheckUserVote(signedIn: bool, lookup: VoteLookup)
      modifies this
      ensures signedIn && lookup != LookupFailed ==> hasVoted == (lookup == VoteRow)
      ensures !(signedIn && lookup != LookupFailed) ==> hasVoted == old(hasVoted)
      ensures votes == old(votes) && loading == old(loading)
    {
      if !signedIn {
        return;
      }
      if lookup == LookupFailed {
        return;
      }
      hasVoted := lookup == VoteRow;
    }

    /** The first half of `handleVote`: without a user nothing changes and
        no request starts; otherwise `loading` is set. The handler's
        closure keeps the `hasVoted` of the click (`wasVoted`), which
        decides between delete and insert. */
    method BeginVote(signedIn: bool) returns (started: bool, wasVoted: bool)
      modifies this
      ensures started == signedIn
      ensures wasVoted == old(hasVoted)
      ensures loading == (signedIn || old(loading))
      ensures State() == old(State())
    {
      wasVoted := hasVoted;
      if !signedIn {
        return false, wasVoted;
      }
      loading := true;
      started := true;
    }

    /** The second half, once the delete (`wasVoted`) or the insert has
        answered: a success sets `hasVoted` to the opposite of the click's
        value and moves the current count by one; `loading` is cleared
        whatever the outcome. */
    method FinishVote(wasVoted: bool, succeeded: bool) returns (notice: VoteNotice)
      modifies this
      ensures succeeded ==> hasVoted == !wasVoted && votes == old(votes) + (if wasVoted then -1 else 1)
      ensures !succeeded ==> State() == old(State())
      ensures wasVoted == old(hasVoted) ==> State() == AfterVote(old(State()), succeeded)
      ensures !loading
      ensures notice == if !succeeded then VoteFailed else if wasVoted then VoteRemoved else VoteAdded
    {
      notice := VoteFailed;
      if wasVoted {
        if succeeded {
          votes := votes - 1;
          hasVoted := false;
          notice := VoteRemoved;
        }
      } else {
        if succeeded {
          votes := votes + 1;
          hasVoted := true;
          notice := VoteAdded;
        }
      }
      loading := false;
    }

    /** `handleVote` from click to completion, with nothing in between. */
    method HandleVote(signedIn: bool, succeeded: bool) returns (notice: VoteNotice)
      requires ButtonEnabled()
      modifies this
      ensures State() == if signedIn then AfterVote(old(State()), succeeded) else old(State())
      ensures ButtonEnabled()
      ensures !signedIn ==> notice == AuthenticationRequired
      ensures signedIn ==> (notice == VoteFailed <==> !succeeded)
    {
      var started, wasVoted := BeginVote(signedIn);
      if started {
        notice := FinishVote(wasVoted, succeeded);
      } else {
        notice := AuthenticationRequired;
      }
    }
  }

  /** A vote lookup answering while an insert is in flight: the click saw
      no vote, so the insert path runs and its success still adds one and
      sets `hasVoted`, although the lookup has set it in between. */
  method RecheckDuringInsert(initial: int) returns (votes: int, hasVoted: bool, notice: VoteNotice)
    ensures votes == initial + 1 && hasVoted && notice == VoteAdded
  {
    var button := new VotingSystem(Some(initial));
    var started, wasVoted := button.BeginVote(true);
    button.CheckUserVote(true, VoteRow);
    notice := button.FinishVote(wasVoted, true);
    votes, hasVoted := button.votes, button.hasVoted;
  }
}
