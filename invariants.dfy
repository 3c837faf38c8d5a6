/**
 * What the transitions of Tenzies promise: the effect of each step on its own,
 * the invariant every step keeps, and what a whole event (with the effects it
 * triggers) does to the game and to the player's statistics.
 */
module Invariants {
  import opened Wrappers
  import opened Dice
  import opened Scoring
  import opened Tenzies

  // ---------------------------------------------------------------- one step

  /**
   * Rolling a won or lost game starts a new one: ten fresh unheld dice, the
   * default session (timer 180, no rolls, 15 allowed, idle), no roll counted,
   * and the records of points and progress untouched.
   */
  lemma RollResets(g: GameState, draws: seq<real>, newDraws: seq<real>, newIds: seq<DieId>, now: int)
    requires |draws| == |g.dice| && |newDraws| == DiceCount && |newIds| == DiceCount
    requires GameWon(g.dice) || g.session.status == Lost
    ensures var r := RollStep(g, draws, newDraws, newIds, now);
      && r.dice == AllNewDice(newDraws, newIds) && NoneHeld(r.dice) && Ids(r.dice) == newIds
      && r.session == Session(180, 0, 15, None, Idle)
      && r.crypto == g.crypto && r.progress == g.progress
  {
    AllNewDiceFresh(newDraws, newIds);
  }

  /**
   * A roll of a game in progress with rolls left counts exactly one roll,
   * starts an idle game, loses exactly when the new count reaches maxRolls,
   * rerolls only the unheld dice, and leaves the timer and everything else alone.
   */
  lemma RollCounts(g: GameState, draws: seq<real>, newDraws: seq<real>, newIds: seq<DieId>, now: int)
    requires |draws| == |g.dice| && |newDraws| == DiceCount && |newIds| == DiceCount
    requires !GameWon(g.dice) && g.session.status != Lost && RollsRemaining(g.session) > 0
    ensures var r := RollStep(g, draws, newDraws, newIds, now);
      && r.session.rollCount == g.session.rollCount + 1
      && (r.session.status == Lost <==> r.session.rollCount >= g.session.maxRolls)
      && (g.session.status == Idle && r.session.status != Lost ==> r.session.status == Playing)
      && (g.session.status == Idle ==> r.session.startTime == Some(now))
      && (g.session.status != Idle ==> r.session.startTime == g.session.startTime)
      && (r.session.status != Lost && g.session.status != Idle ==> r.session.status == g.session.status)
      && r.session.timer == g.session.timer && r.session.maxRolls == g.session.maxRolls
      && |r.dice| == |g.dice| && Ids(r.dice) == Ids(g.dice)
      && (forall i :: 0 <= i < |g.dice| && g.dice[i].isHeld ==> r.dice[i] == g.dice[i])
      && (forall i :: 0 <= i < |g.dice| ==> r.dice[i].isHeld == g.dice[i].isHeld)
      && !GameWon(r.dice)
      && r.crypto == g.crypto && r.progress == g.progress
  {
    RerollKeepsHeld(g.dice, draws);
    RerollKeepsWin(g.dice, draws);
  }

  /** With no rolls left (and the game neither won nor lost) the button does nothing. */
  lemma RollExhausted(g: GameState, draws: seq<real>, newDraws: seq<real>, newIds: seq<DieId>, now: int)
    requires |draws| == |g.dice| && |newDraws| == DiceCount && |newIds| == DiceCount
    requires !GameWon(g.dice) && g.session.status != Lost && RollsRemaining(g.session) <= 0
    ensures RollStep(g, draws, newDraws, newIds, now) == g
  {
  }

  /**
   * Holding flips the one matching die while a game is being played and not
   * yet won, and does nothing otherwise; it never changes a value or the
   * session, points or progress.
   */
  lemma HoldEffect(g: GameState, id: DieId)
    ensures var r := HoldStep(g, id);
      && r.session == g.session && r.crypto == g.crypto && r.progress == g.progress
      && |r.dice| == |g.dice| && Ids(r.dice) == Ids(g.dice)
      && (forall i :: 0 <= i < |g.dice| ==> r.dice[i].value == g.dice[i].value)
      && (g.session.status != Playing || GameWon(g.dice) ==> r == g)
      && (g.session.status == Playing && !GameWon(g.dice) ==>
            forall i :: 0 <= i < |g.dice| ==> (r.dice[i].isHeld != g.dice[i].isHeld <==> g.dice[i].id == id))
  {
    ToggleHeldEffect(g.dice, id);
  }

  /**
   * A tick counts the timer down by one second; the tick that would bring it
   * to 0 or below sets it to 0 and loses the game. No tick happens unless a
   * game is being played, the timer is positive and the game is not won.
   */
  lemma TickEffect(g: GameState)
    ensures var r := TickStep(g);
      && r.dice == g.dice && r.crypto == g.crypto && r.progress == g.progress
      && (!TimerRunning(g) ==> r == g)
      && (TimerRunning(g) && g.session.timer > 1 ==> r.session == g.session.(timer := g.session.timer - 1))
      && (TimerRunning(g) && g.session.timer <= 1 ==> r.session == g.session.(timer := 0, status := Lost))
      && (g.session.timer >= 0 ==> r.session.timer >= 0)
  {
  }

  /**
   * The best time after a win: the smaller of the two when a best time is
   * recorded, and the new time when none is, where a recorded 0 counts as
   * none (as JavaScript's truthiness has it). The result never exceeds the
   * new time.
   */
  lemma BestTimeRule(prior: Option<int>, timeUsed: int)
    ensures BestTimeAfter(prior, timeUsed) <= timeUsed
    ensures prior.Some? && prior.value != 0 ==>
      BestTimeAfter(prior, timeUsed) <= prior.value &&
      (BestTimeAfter(prior, timeUsed) == prior.value || BestTimeAfter(prior, timeUsed) == timeUsed)
    ensures prior == None || prior == Some(0) ==> BestTimeAfter(prior, timeUsed) == timeUsed
  {
  }

  /**
   * The win effect fires only when every die is held and they all show the
   * first die's value while the game is being played. It marks the game won,
   * pays calculatePoints(180 - timer, rollCount) into both the airdrop and
   * the total points, counts one more game, win and streak step, and records
   * the best time.
   */
  lemma SettleWinEffect(g: GameState)
    ensures var r := SettleWinStep(g);
      && r.dice == g.dice
      && (!WinPending(g) ==> r == g)
      && (WinPending(g) ==>
            var t := 180 - g.session.timer;
            var points := CalculatePoints(t, g.session.rollCount);
            && r.session == g.session.(status := Won)
            && r.crypto.airdropPoints == g.crypto.airdropPoints + points
            && r.crypto.airdropThreshold == g.crypto.airdropThreshold
            && r.progress.totalPoints == g.progress.totalPoints + points
            && r.progress.totalGames == g.progress.totalGames + 1
            && r.progress.totalWins == g.progress.totalWins + 1
            && r.progress.currentStreak == g.progress.currentStreak + 1
            && r.progress.bestTime == Some(BestTimeAfter(g.progress.bestTime, t)))
      && (g.progress.totalWins <= g.progress.totalGames ==> r.progress.totalWins <= r.progress.totalGames)
  {
  }

  /**
   * The loss effect counts one more game, ends the streak, and leaves the
   * wins, the best time and the points alone.
   */
  lemma SettleLossEffect(g: GameState)
    ensures var r := SettleLossStep(g);
      && r.dice == g.dice && r.session == g.session && r.crypto == g.crypto
      && (g.session.status != Lost ==> r == g)
      && (g.session.status == Lost ==>
            && r.progress.totalGames == g.progress.totalGames + 1
            && r.progress.currentStreak == 0
            && r.progress.totalWins == g.progress.totalWins
            && r.progress.bestTime == g.progress.bestTime
            && r.progress.totalPoints == g.progress.totalPoints)
  {
  }

  // ---------------------------------------------------------- the invariant

  predicate SessionOk(s: Session) {
    && s.maxRolls == MaxRolls
    && 0 <= s.rollCount <= s.maxRolls
    && 0 <= s.timer <= GameSeconds
    && (s.status == Idle ==> s.timer == GameSeconds && s.rollCount == 0 && s.startTime == None)
    && (s.status == Playing || s.status == Won ==> 1 <= s.timer && 1 <= s.rollCount < s.maxRolls && s.startTime.Some?)
  }

  predicate ProgressOk(p: Progress) {
    && 0 <= p.currentStreak <= p.totalWins <= p.totalGames
    && p.totalPoints >= 0
    && (p.bestTime.Some? ==> 0 <= p.bestTime.value <= GameSeconds)
  }

  /**
   * What holds of every state the game can reach: ten dice with faces 0..6,
   * a timer in 0..180, at most maxRolls rolls (and some rolls left while a
   * game is idle or being played), no die held before the first roll, a won
   * status only on a winning board, no more wins than games, a streak no
   * longer than the wins, and the airdrop points equal to the total points.
   */
  predicate Inv(g: GameState) {
    && |g.dice| == DiceCount
    && AllFaces(g.dice)
    && SessionOk(g.session)
    && (g.session.status == Idle ==> NoneHeld(g.dice))
    && (g.session.status == Won ==> GameWon(g.dice))
    && g.crypto.airdropThreshold == AirdropThreshold
    && g.crypto.airdropPoints == g.progress.totalPoints
    && ProgressOk(g.progress)
  }

  /** Between events no win is left unsettled. */
  predicate Settled(g: GameState) {
    !WinPending(g)
  }

  /** An event's random values have the right number and range. */
  predicate EventOk(e: Event) {
    e.RollClicked? ==>
      && |e.draws| == DiceCount && |e.newDraws| == DiceCount && |e.newIds| == DiceCount
      && AreUnitDraws(e.draws) && AreUnitDraws(e.newDraws)
  }

  lemma InitialInv(draws: seq<real>, ids: seq<DieId>)
    requires |draws| == DiceCount && |ids| == DiceCount && AreUnitDraws(draws)
    ensures Inv(Initial(draws, ids)) && Settled(Initial(draws, ids))
  {
    AllNewDiceFresh(draws, ids);
  }

  /** In a reachable state rolls run out only in a lost game. */
  lemma RollsRemainingBounds(g: GameState)
    requires Inv(g)
    ensures 0 <= RollsRemaining(g.session) <= MaxRolls
    ensures RollsRemaining(g.session) == 0 ==> g.session.status == Lost
    ensures g.session.status == Playing ==> g.session.timer > 0
  {
  }

  lemma RollKeepsInv(g: GameState, draws: seq<real>, newDraws: seq<real>, newIds: seq<DieId>, now: int)
    requires Inv(g)
    requires |draws| == |g.dice| && |newDraws| == DiceCount && |newIds| == DiceCount
    requires AreUnitDraws(draws) && AreUnitDraws(newDraws)
    ensures Inv(RollStep(g, draws, newDraws, newIds, now))
  {
    AllNewDiceFresh(newDraws, newIds);
    RerollKeepsHeld(g.dice, draws);
    RerollKeepsWin(g.dice, draws);
  }

  lemma HoldKeepsInv(g: GameState, id: DieId)
    requires Inv(g)
    ensures Inv(HoldStep(g, id))
  {
    ToggleHeldEffect(g.dice, id);
  }

  lemma TickKeepsInv(g: GameState)
    requires Inv(g)
    ensures Inv(TickStep(g))
  {
  }

  /** In a reachable state a win pays between 10 and 58 points: at least one roll was made. */
  lemma WinPoints(g: GameState)
    requires Inv(g) && WinPending(g)
    ensures 10 <= CalculatePoints(TimeUsed(g.session), g.session.rollCount) <= 58
  {
  }

  lemma SettleWinKeepsInv(g: GameState)
    requires Inv(g)
    ensures Inv(SettleWinStep(g)) && Settled(SettleWinStep(g))
  {
    if WinPending(g) {
      WinPoints(g);
      BestTimeRule(g.progress.bestTime, TimeUsed(g.session));
    }
  }

  lemma SettleLossKeepsInv(g: GameState)
    requires Inv(g)
    ensures Inv(SettleLossStep(g))
  {
  }

  // ------------------------------------------------------------ whole events

  /** Where a game stands: not started, under way, or over. */
  function Phase(s: Status): nat {
    match s
    case Idle => 0
    case Playing => 1
    case Won => 2
    case Lost => 2
  }

  predicate Over(g: GameState) {
    g.session.status == Won || g.session.status == Lost
  }

  lemma DispatchKeepsInv(g: GameState, e: Event)
    requires Inv(g) && Settled(g) && EventOk(e)
    ensures Fits(g, e)
    ensures Inv(Dispatch(g, e)) && Settled(Dispatch(g, e))
  {
    var h := Handle(g, e);
    match e {
      case RollClicked(draws, newDraws, newIds, now) => RollKeepsInv(g, draws, newDraws, newIds, now);
      case DieClicked(id) => HoldKeepsInv(g, id);
      case SecondElapsed => TickKeepsInv(g);
    }
    SettleWinKeepsInv(h);
    SettleLossKeepsInv(SettleWinStep(h));
  }

  /**
   * A game's status only moves forward, idle to playing to won or lost, until
   * the roll that starts a new game; a won game never becomes lost or the
   * other way round.
   */
  lemma DispatchStatusOrder(g: GameState, e: Event)
    requires Inv(g) && Settled(g) && EventOk(e)
    ensures Fits(g, e)
    ensures var d := Dispatch(g, e);
      && (Phase(d.session.status) >= Phase(g.session.status) || (Over(g) && d.session.status == Idle))
      && (g.session.status == Won ==> d.session.status in {Won, Idle})
      && (g.session.status == Lost ==> d.session.status in {Lost, Idle})
      && (g.session.status == Idle ==> d.session.status in {Idle, Playing})
  {
    var h := Handle(g, e);
    match e {
      case RollClicked(draws, newDraws, newIds, now) =>
        RerollKeepsWin(g.dice, draws);
        AllNewDiceFresh(newDraws, newIds);
      case DieClicked(id) =>
      case SecondElapsed =>
    }
  }

  /**
   * Every game is counted once, when it ends: an event adds one to the games
   * exactly when it ends a game, one to the wins exactly when it wins one,
   * resets the streak when it loses one, and never takes points away.
   */
  lemma DispatchCountsGames(g: GameState, e: Event)
    requires Inv(g) && Settled(g) && EventOk(e)
    ensures Fits(g, e)
    ensures var d := Dispatch(g, e);
      && d.progress.totalGames == g.progress.totalGames + (if Over(d) && !Over(g) then 1 else 0)
      && d.progress.totalWins == g.progress.totalWins + (if d.session.status == Won && !Over(g) then 1 else 0)
      && (d.session.status == Lost && !Over(g) ==> d.progress.currentStreak == 0)
      && (d.session.status == Won && !Over(g) ==> d.progress.currentStreak == g.progress.currentStreak + 1)
      && (Over(d) == Over(g) ==> d.progress == g.progress && d.crypto == g.crypto)
      && d.crypto.airdropPoints >= g.crypto.airdropPoints
      && (AirdropEligible(g.crypto) ==> AirdropEligible(d.crypto))
  {
    var h := Handle(g, e);
    match e {
      case RollClicked(draws, newDraws, newIds, now) =>
        RerollKeepsWin(g.dice, draws);
        AllNewDiceFresh(newDraws, newIds);
      case DieClicked(id) =>
      case SecondElapsed =>
    }
    if WinPending(h) {
      WinPoints(h);
    }
  }

  // ------------------------------------------------------- runs of events

  predicate AllEventsOk(es: seq<Event>) {
    forall i :: 0 <= i < |es| ==> EventOk(es[i])
  }

  /** The state after a sequence of events, each followed by its effects. */
  function Run(g: GameState, es: seq<Event>): GameState
    requires Inv(g) && Settled(g) && AllEventsOk(es)
    decreases |es|
  {
    if es == [] then g
    else
      DispatchKeepsInv(g, es[0]);
      Run(Dispatch(g, es[0]), es[1..])
  }

  /** The invariant holds after any run of events. */
  lemma {:induction false} RunKeepsInv(g: GameState, es: seq<Event>)
    requires Inv(g) && Settled(g) && AllEventsOk(es)
    ensures Inv(Run(g, es)) && Settled(Run(g, es))
    decreases |es|
  {
    if es != [] {
      DispatchKeepsInv(g, es[0]);
      RunKeepsInv(Dispatch(g, es[0]), es[1..]);
    }
  }

  /**
   * Every state reachable from a first visit keeps the invariant: in
   * particular the timer stays in 0..180, the rolls in 0..15, and the wins
   * never exceed the games.
   */
  lemma ReachableInv(draws: seq<real>, ids: seq<DieId>, es: seq<Event>)
    requires |draws| == DiceCount && |ids| == DiceCount && AreUnitDraws(draws) && AllEventsOk(es)
    ensures Inv(Initial(draws, ids))
    ensures var g := Run(Initial(draws, ids), es);
      && 0 <= g.session.timer <= 180 && 0 <= g.session.rollCount <= g.session.maxRolls == 15
      && 0 <= g.progress.totalWins <= g.progress.totalGames
      && |g.dice| == 10
  {
    InitialInv(draws, ids);
    RunKeepsInv(Initial(draws, ids), es);
  }
}
