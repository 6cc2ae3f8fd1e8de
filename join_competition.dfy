/** The competition list: each battle's time-window classification, its
    join button, the page's statistics, and the set of battles the user has
    joined. Times are integer timestamps; `now` is the clock reading. */
module JoinCompetitionPage {
  import opened Common

  /** A row of `battles`, with the columns the rules read. */
  datatype Battle = Battle(
    id: string,
    title: string,
    startTime: int,
    endTime: int,
    maxParticipants: int,
    currentParticipants: int,
    status: string)

  /** The badge `getStatusBadge` renders. */
  datatype StatusBadge = UpcomingBadge | ActiveBadge | EndedBadge

  /** The icon `getStatusIcon` renders. */
  datatype StatusIcon = ClockIcon | TargetIcon | CheckCircleIcon

  /** `getStatusBadge`: decided by the clock and the window alone; the
      stored status column is not consulted. */
  function BadgeFor(now: int, b: Battle): (badge: StatusBadge)
    ensures badge == UpcomingBadge <==> now < b.startTime
    ensures badge == ActiveBadge <==> b.startTime <= now <= b.endTime
    ensures badge == EndedBadge <==> now >= b.startTime && now > b.endTime
  {
    if now < b.startTime then UpcomingBadge
    else if now >= b.startTime && now <= b.endTime then ActiveBadge
    else EndedBadge
  }

  /** `getStatusIcon`: the same three comparisons, another picture. */
  function IconFor(now: int, b: Battle): (icon: StatusIcon)
    ensures icon == ClockIcon <==> now < b.startTime
    ensures icon == TargetIcon <==> b.startTime <= now <= b.endTime
    ensures icon == CheckCircleIcon <==> now >= b.startTime && now > b.endTime
  {
    if now < b.startTime then ClockIcon
    else if now >= b.startTime && now <= b.endTime then TargetIcon
    else CheckCircleIcon
  }

  /** The icon and the badge tell the same phase when both are computed
      at the same instant. */
  lemma IconAgreesWithBadge(now: int, b: Battle)
    ensures IconFor(now, b) == ClockIcon <==> BadgeFor(now, b) == UpcomingBadge
    ensures IconFor(now, b) == TargetIcon <==> BadgeFor(now, b) == ActiveBadge
    ensures IconFor(now, b) == CheckCircleIcon <==> BadgeFor(now, b) == EndedBadge
  {
  }

  /** The stored status column plays no part in the classification. */
  lemma StatusColumnIgnored(now: int, b: Battle, status: string)
    ensures BadgeFor(now, b.(status := status)) == BadgeFor(now, b)
    ensures IconFor(now, b.(status := status)) == IconFor(now, b)
  {
  }

  /** `isBattleJoinable`: inside the window (both ends included) and not
      full. */
  predicate IsJoinable(now: int, b: Battle)
    ensures IsJoinable(now, b) <==> BadgeFor(now, b) == ActiveBadge && b.currentParticipants < b.maxParticipants
  {
    now >= b.startTime && now <= b.endTime && b.currentParticipants < b.maxParticipants
  }

  /** At one instant, a joinable battle carries the Active badge. */
  lemma JoinableIsActive(now: int, b: Battle)
    requires IsJoinable(now, b)
    ensures BadgeFor(now, b) == ActiveBadge
  {
  }

  /** The position of a phase in time: upcoming, running, over. */
  function IconPhase(icon: StatusIcon): nat {
    match icon
    case ClockIcon => 0
    case TargetIcon => 1
    case CheckCircleIcon => 2
  }

  function BadgePhase(badge: StatusBadge): nat {
    match badge
    case UpcomingBadge => 0
    case ActiveBadge => 1
    case EndedBadge => 2
  }

  /** A card reads the clock once for its icon and again, later, for its
      badge. With a clock that does not go back, the badge never shows an
      earlier phase than the icon. */
  lemma BadgeNeverBehindIcon(b: Battle, iconNow: int, badgeNow: int)
    requires iconNow <= badgeNow
    ensures IconPhase(IconFor(iconNow, b)) <= BadgePhase(BadgeFor(badgeNow, b))
  {
  }

  /** The separate clock readings of one card can disagree: the window
      closes between the icon and the badge, or opens between the badge
      and the button. */
  lemma ClockReadsMayDisagree(b: Battle, t1: int, t2: int, joined: set<string>, joining: Option<string>)
    ensures b.startTime <= t1 <= b.endTime < t2 ==>
      IconFor(t1, b) == TargetIcon && BadgeFor(t2, b) == EndedBadge
    ensures t1 < b.startTime <= t2 <= b.endTime && b.currentParticipants < b.maxParticipants && b.id !in joined ==>
      BadgeFor(t1, b) == UpcomingBadge && ButtonFor(t2, b, joined, joining).Join?
  {
  }

  /** The button at the bottom of a battle card. */
  datatype JoinButton = AlreadyJoined | Join(joining: bool) | NotStarted | Ended

  function ButtonFor(now: int, b: Battle, joined: set<string>, joiningBattle: Option<string>): (btn: JoinButton)
    ensures btn == AlreadyJoined <==> b.id in joined
    ensures btn.Join? <==> b.id !in joined && IsJoinable(now, b)
    ensures btn.Join? ==> (btn.joining <==> joiningBattle == Some(b.id))
    ensures btn == NotStarted <==> b.id !in joined && !IsJoinable(now, b) && now < b.startTime
    ensures btn == Ended <==> b.id !in joined && !IsJoinable(now, b) && now >= b.startTime
  {
    if b.id in joined then AlreadyJoined
    else if IsJoinable(now, b) then Join(joiningBattle == Some(b.id))
    else if now < b.startTime then NotStarted
    else Ended
  }

  /** A full battle that is still running is labelled "Ended". */
  lemma FullRunningBattleShowsEnded(now: int, b: Battle, joined: set<string>, joining: Option<string>)
    requires b.startTime <= now <= b.endTime && b.currentParticipants >= b.maxParticipants
    requires b.id !in joined
    ensures BadgeFor(now, b) == ActiveBadge
    ensures ButtonFor(now, b, joined, joining) == Ended
  {
  }

  /** `battles.filter(isBattleJoinable)`, in list order. */
  function JoinableBattles(now: int, bs: seq<Battle>): (r: seq<Battle>)
    ensures |r| <= |bs|
  {
    if bs == [] then []
    else if IsJoinable(now, bs[0]) then [bs[0]] + JoinableBattles(now, bs[1..])
    else JoinableBattles(now, bs[1..])
  }

  /** The filter keeps only joinable battles of the list, and keeps every
      joinable one. */
  lemma {:induction false} JoinableBattlesSpec(now: int, bs: seq<Battle>)
    ensures forall b :: b in JoinableBattles(now, bs) ==> IsJoinable(now, b) && b in bs
    ensures forall b :: b in bs && IsJoinable(now, b) ==> b in JoinableBattles(now, bs)
  {
    if bs != [] {
      JoinableBattlesSpec(now, bs[1..]);
      assert bs == [bs[0]] + bs[1..];
    }
  }

  /** The filter splits over a concatenation of lists. */
  lemma {:induction false} JoinableBattlesAppend(now: int, a: seq<Battle>, b: seq<Battle>)
    ensures JoinableBattles(now, a + b) == JoinableBattles(now, a) + JoinableBattles(now, b)
  {
    if a != [] {
      assert (a + b)[1..] == a[1..] + b;
      JoinableBattlesAppend(now, a[1..], b);
    } else {
      assert a + b == b;
    }
  }

  /** The positions of the joinable battles in the list. */
  function JoinableIndices(now: int, bs: seq<Battle>): set<int> {
    set i | 0 <= i < |bs| && IsJoinable(now, bs[i])
  }

  /** The "Active Battles" card counts one battle per joinable position. */
  lemma {:induction false} JoinableCount(now: int, bs: seq<Battle>)
    ensures |JoinableBattles(now, bs)| == |JoinableIndices(now, bs)|
  {
    if bs != [] {
      var init := bs[..|bs| - 1];
      var last := bs[|bs| - 1];
      JoinableCount(now, init);
      assert bs == init + [last];
      JoinableBattlesAppend(now, init, [last]);
      assert [last][1..] == [];
      var extra: set<int> := if IsJoinable(now, last) then {|init|} else {};
      assert JoinableIndices(now, bs) == JoinableIndices(now, init) + extra;
      assert |init| !in JoinableIndices(now, init);
    }
  }

  /** `battles.reduce((sum, b) => sum + b.current_participants, 0)`. */
  function TotalParticipants(bs: seq<Battle>): (total: int)
    ensures (forall j :: 0 <= j < |bs| ==> bs[j].currentParticipants >= 0) ==> total >= 0
  {
    if bs == [] then 0 else bs[0].currentParticipants + TotalParticipants(bs[1..])
  }

  /** The sum splits over a concatenation of lists. */
  lemma {:induction false} TotalParticipantsAppend(a: seq<Battle>, b: seq<Battle>)
    ensures TotalParticipants(a + b) == TotalParticipants(a) + TotalParticipants(b)
  {
    if a != [] {
      assert (a + b)[1..] == a[1..] + b;
      TotalParticipantsAppend(a[1..], b);
    } else {
      assert a + b == b;
    }
  }

  /** With no negative counts, the total bounds every battle's count. */
  lemma {:induction false} TotalBoundsEach(bs: seq<Battle>, i: int)
    requires forall j :: 0 <= j < |bs| ==> bs[j].currentParticipants >= 0
    requires 0 <= i < |bs|
    ensures bs[i].currentParticipants <= TotalParticipants(bs)
  {
    if i > 0 {
      TotalBoundsEach(bs[1..], i - 1);
    }
  }

  /** The three statistic cards: active battles, total participants and
      the user's battles. */
  datatype Stats = Stats(activeBattles: nat, totalParticipants: int, yourBattles: nat)

  /** What `joinBattle` reports in its toast. */
  datatype JoinNotice = AuthenticationRequired | AlreadyJoinedNotice | JoinedNotice | JoinFailed(description: string)

  /** The insert into `battle_participants`: accepted, or an error with
      its Postgres code and message. */
  datatype InsertResult = Inserted | InsertError(code: string, message: string)

  const UniqueViolation: string := "23505"
  const DefaultLoadError: string := "Failed to load competitions."
  const DefaultJoinError: string := "Failed to join competition."

  /** The `JoinCompetition` component's state. */
  class JoinCompetitionState {
    var battles: seq<Battle>
    var loading: bool
    var error: Option<string>
    var joiningBattle: Option<string>
    var userParticipations: set<string>

    constructor ()
      ensures battles == [] && loading && error == None
      ensures joiningBattle == None && userParticipations == {}
    {
      battles := [];
      loading := true;
      error := None;
      joiningBattle := None;
      userParticipations := {};
    }

    /** The part of `fetchBattles` that runs before its first `await`:
        the statistic cards show spinners and the error is cleared. */
    method StartFetch()
      modifies this
      ensures loading && error == None
      ensures battles == old(battles)
      ensures joiningBattle == old(joiningBattle) && userParticipations == old(userParticipations)
    {
      loading := true;
      error := None;
    }

    /** The rest of `fetchBattles`, once the query has answered: on
        failure the list is kept and the message shown. */
    method FinishFetch(result: Response<seq<Battle>>)
      modifies this
      ensures !loading
      ensures result.Ok? ==> battles == result.value && error == old(error)
      ensures result.Err? ==>
        battles == old(battles) && error == Some(if result.message != "" then result.message else DefaultLoadError)
      ensures joiningBattle == old(joiningBattle) && userParticipations == old(userParticipations)
    {
      if result.Ok? {
        battles := result.value;
      } else {
        error := Some(if result.message != "" then result.message else DefaultLoadError);
      }
      loading := false;
    }

    /** `fetchBattles` from start to end. */
    method FetchBattles(result: Response<seq<Battle>>)
      modifies this
      ensures !loading
      ensures result.Ok? ==> battles == result.value && error == None
      ensures result.Err? ==>
        battles == old(battles) && error == Some(if result.message != "" then result.message else DefaultLoadError)
      ensures joiningBattle == old(joiningBattle) && userParticipations == old(userParticipations)
    {
      StartFetch();
      FinishFetch(result);
    }

    /** `fetchUserParticipations`: replaces the set with the ids the
        database holds for the user; without a user or on failure it
        keeps the set. */
    method FetchUserParticipations(userId: Option<string>, result: Response<seq<string>>)
      modifies this
      ensures userId.Some? && result.Ok? ==>
        userParticipations == set i | 0 <= i < |result.value| :: result.value[i]
      ensures !(userId.Some? && result.Ok?) ==> userParticipations == old(userParticipations)
      ensures battles == old(battles) && loading == old(loading) && error == old(error)
      ensures joiningBattle == old(joiningBattle)
    {
      if userId.None? {
        return;
      }
      if result.Ok? {
        userParticipations := set i | 0 <= i < |result.value| :: result.value[i];
      }
    }

    /** The first half of `joinBattle`, before the awaits: the card's
        button shows "Joining...". */
    method BeginJoin(battleId: string)
      modifies this
      ensures joiningBattle == Some(battleId)
      ensures userParticipations == old(userParticipations) && battles == old(battles)
      ensures loading == old(loading) && error == old(error)
    {
      joiningBattle := Some(battleId);
    }

    /** The rest of `joinBattle`, once the user lookup and the insert have
        answered. The handler adds the `battleId` it was called with, not
        whatever `joiningBattle` holds by then: only the clicked card's
        button is disabled, so a join on another card may have started in
        between. Only a successful insert adds the id, and it also starts
        fetching the list again (`refresh`): that fetch's first updates are
        applied with the handler's own, so the page is loading again at
        once. */
    method FinishJoin(battleId: string, userPresent: bool, insert: InsertResult) returns (notice: JoinNotice, refresh: bool)
      modifies this
      ensures joiningBattle == None
      ensures notice == JoinedNotice <==> userPresent && insert.Inserted?
      ensures userParticipations == if notice == JoinedNotice
        then old(userParticipations) + {battleId} else old(userParticipations)
      ensures refresh <==> notice == JoinedNotice
      ensures !userPresent ==> notice == AuthenticationRequired
      ensures userPresent && insert.InsertError? && insert.code == UniqueViolation ==> notice == AlreadyJoinedNotice
      ensures userPresent && insert.InsertError? && insert.code != UniqueViolation ==>
        notice == JoinFailed(if insert.message != "" then insert.message else DefaultJoinError)
      ensures battles == old(battles)
      ensures refresh ==> loading && error == None
      ensures !refresh ==> loading == old(loading) && error == old(error)
    {
      refresh := false;
      if !userPresent {
        notice := AuthenticationRequired;
      } else if insert.InsertError? {
        if insert.code == UniqueViolation {
          notice := AlreadyJoinedNotice;
        } else {
          notice := JoinFailed(if insert.message != "" then insert.message else DefaultJoinError);
        }
      } else {
        notice := JoinedNotice;
        userParticipations := userParticipations + {battleId};
        StartFetch();
        refresh := true;
      }
      joiningBattle := None;
    }

    /** `joinBattle` from start to end: the joined set only grows, and
        grows by the battle exactly when the insert succeeded. */
    method JoinBattle(battleId: string, userPresent: bool, insert: InsertResult) returns (notice: JoinNotice)
      modifies this
      ensures old(userParticipations) <= userParticipations
      ensures userParticipations == if userPresent && insert.Inserted?
        then old(userParticipations) + {battleId} else old(userParticipations)
      ensures joiningBattle == None
    {
      BeginJoin(battleId);
      var refresh;
      notice, refresh := FinishJoin(battleId, userPresent, insert);
    }

    /** The statistic cards: a spinner while loading, otherwise the number
        of joinable battles, the participant sum and the joined count. */
    function StatsAt(now: int): (s: Option<Stats>)
      reads this
      ensures s.Some? <==> !loading
      ensures s.Some? ==>
        s.value == Stats(|JoinableIndices(now, battles)|, TotalParticipants(battles), |userParticipations|)
    {
      if loading then None
      else
        JoinableCount(now, battles);
        Some(Stats(|JoinableBattles(now, battles)|, TotalParticipants(battles), |userParticipations|))
    }
  }

  /** Two cards clicked one after the other, both inserts succeeding, and
      the first answer arriving first: each completion adds its own battle,
      so both end up joined and the first completion clears the
      "Joining..." mark while the second insert is still in flight. */
  method OverlappingJoins(a: string, b: string) returns (joined: set<string>, markAfterFirst: Option<string>)
    ensures joined == {a, b}
    ensures markAfterFirst == None
  {
    var page := new JoinCompetitionState();
    page.BeginJoin(a);
    page.BeginJoin(b);
    var _, _ := page.FinishJoin(a, true, Inserted);
    markAfterFirst := page.joiningBattle;
    var _, _ := page.FinishJoin(b, true, Inserted);
    joined := page.userParticipations;
  }

  /** A successful join on a loaded page: the statistic cards show
      spinners until the refreshed list arrives, and then count the new
      list and the joined battle. */
  method JoinThenRefresh(now: int, initial: seq<Battle>, fetched: seq<Battle>, battleId: string)
    returns (during: Option<Stats>, after: Option<Stats>)
    ensures during == None
    ensures after == Some(Stats(|JoinableIndices(now, fetched)|, TotalParticipants(fetched), 1))
  {
    var page := new JoinCompetitionState();
    page.FetchBattles(Ok(initial));
    page.BeginJoin(battleId);
    var _, _ := page.FinishJoin(battleId, true, Inserted);
    during := page.StatsAt(now);
    page.FinishFetch(Ok(fetched));
    after := page.StatsAt(now);
  }
}
