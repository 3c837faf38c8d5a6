/**
 * The game state machine of App.jsx as pure functions. The component keeps four
 * records (dice, gameSession, cryptoState, playerProgress); every event handler
 * and every effect there replaces some of them by a new record built from the
 * old one. Each such replacement is one function here; App.Game applies them
 * to its fields.
 */
module Tenzies {
  import opened Wrappers
  import opened Dice
  import opened Scoring

  datatype Status = Idle | Playing | Won | Lost

  /** `gameSession`. `startTime` holds the `Date.now()` of the first roll, or null. */
  datatype Session = Session(timer: int, rollCount: int, maxRolls: int, startTime: Option<int>, status: Status)

  /** `cryptoState`; `tokenSymbol` and `achievements` are never read by the game. */
  datatype CryptoState = CryptoState(airdropPoints: int, airdropThreshold: int)

  /** `playerProgress`; a `bestTime` of null is None. */
  datatype Progress = Progress(totalGames: int, totalWins: int, bestTime: Option<int>, currentStreak: int, totalPoints: int)

  datatype GameState = GameState(dice: seq<Die>, session: Session, crypto: CryptoState, progress: Progress)

  /** The seconds a game lasts, the rolls it allows, and the airdrop threshold. */
  const GameSeconds: int := 180
  const MaxRolls: int := 15
  const AirdropThreshold: int := 100

  /** The session a new game starts with (App.jsx:20-26 and 140-146). */
  const DefaultSession: Session := Session(GameSeconds, 0, MaxRolls, None, Idle)
  const DefaultCrypto: CryptoState := CryptoState(0, AirdropThreshold)
  const DefaultProgress: Progress := Progress(0, 0, None, 0, 0)

  /** The state of a first visit, with nothing saved. */
  function Initial(draws: seq<real>, ids: seq<DieId>): GameState
    requires |draws| == DiceCount && |ids| == DiceCount
  {
    GameState(AllNewDice(draws, ids), DefaultSession, DefaultCrypto, DefaultProgress)
  }

  // The values App.jsx:49-53 derives on every render.

  predicate AirdropEligible(c: CryptoState) {
    c.airdropPoints >= c.airdropThreshold
  }

  function RollsRemaining(s: Session): int {
    s.maxRolls - s.rollCount
  }

  predicate GameActive(s: Session) {
    s.status == Playing
  }

  predicate GameLost(s: Session) {
    s.status == Lost
  }

  // The record updaters.

  /** The first roll of a game starts it (App.jsx:149-153). */
  function StartPlaying(s: Session, now: int): Session {
    s.(status := Playing, startTime := Some(now))
  }

  /** Counting a roll (App.jsx:158-165): the roll that reaches maxRolls loses the game. */
  function CountRoll(s: Session): Session {
    var n := s.rollCount + 1;
    s.(rollCount := n, status := if n >= s.maxRolls then Lost else s.status)
  }

  /** One tick of the countdown (App.jsx:76-81). */
  function TickSession(s: Session): (r: Session)
    ensures r.timer >= 0
    ensures r.timer == Max(0, s.timer - 1)
    ensures r.status == (if r.timer == 0 then Lost else s.status)
    ensures r.rollCount == s.rollCount && r.maxRolls == s.maxRolls && r.startTime == s.startTime
  {
    if s.timer <= 1 then s.(timer := 0, status := Lost) else s.(timer := s.timer - 1)
  }

  /** JavaScript truthiness of `bestTime`: null and 0 are false. */
  predicate Truthy(b: Option<int>) {
    b.Some? && b.value != 0
  }

  /** The best time after a win taking `timeUsed` seconds (App.jsx:96). */
  function BestTimeAfter(prior: Option<int>, timeUsed: int): int {
    if Truthy(prior) then (if prior.value <= timeUsed then prior.value else timeUsed) else timeUsed
  }

  /** The progress updater of a win (App.jsx:93-99). */
  function WinProgress(p: Progress, timeUsed: int, points: int): Progress {
    Progress(p.totalGames + 1, p.totalWins + 1, Some(BestTimeAfter(p.bestTime, timeUsed)),
             p.currentStreak + 1, p.totalPoints + points)
  }

  /** The progress updater of a loss (App.jsx:106-112). */
  function LossProgress(p: Progress): Progress {
    Progress(p.totalGames + 1, p.totalWins, p.bestTime, 0, p.totalPoints)
  }

  // The event handlers and effects, one step of the whole state each.

  /**
   * `rollDice` (App.jsx:137-167). `draws` holds the draw of each die (only the
   * unheld ones use theirs); `newDraws` and `newIds` make the dice of a new
   * game; `now` is `Date.now()`.
   */
  function RollStep(g: GameState, draws: seq<real>, newDraws: seq<real>, newIds: seq<DieId>, now: int): GameState
    requires |draws| == |g.dice| && |newDraws| == DiceCount && |newIds| == DiceCount
  {
    if GameWon(g.dice) || GameLost(g.session) then
      g.(dice := AllNewDice(newDraws, newIds), session := DefaultSession)
    else if RollsRemaining(g.session) > 0 then
      var started := if g.session.status == Idle then StartPlaying(g.session, now) else g.session;
      g.(dice := Reroll(g.dice, draws), session := CountRoll(started))
    else
      g
  }

  /** `hold(id)` (App.jsx:169-175). */
  function HoldStep(g: GameState, id: DieId): GameState {
    if GameActive(g.session) && !GameWon(g.dice) then g.(dice := ToggleHeld(g.dice, id)) else g
  }

  /** The guard under which the countdown interval runs (App.jsx:74). */
  predicate TimerRunning(g: GameState) {
    GameActive(g.session) && g.session.timer > 0 && !GameWon(g.dice)
  }

  /** One firing of the countdown interval (App.jsx:72-85). */
  function TickStep(g: GameState): GameState {
    if TimerRunning(g) then g.(session := TickSession(g.session)) else g
  }

  /** The guard of the win effect (App.jsx:88). */
  predicate WinPending(g: GameState) {
    GameWon(g.dice) && GameActive(g.session)
  }

  /** The seconds of a game already spent (App.jsx:89). */
  function TimeUsed(s: Session): int {
    GameSeconds - s.timer
  }

  /** The win effect (App.jsx:87-102). */
  function SettleWinStep(g: GameState): GameState {
    if WinPending(g) then
      var t := TimeUsed(g.session);
      var points := CalculatePoints(t, g.session.rollCount);
      GameState(g.dice, g.session.(status := Won),
                g.crypto.(airdropPoints := g.crypto.airdropPoints + points),
                WinProgress(g.progress, t, points))
    else
      g
  }

  /** The loss effect (App.jsx:104-114). */
  function SettleLossStep(g: GameState): GameState {
    if GameLost(g.session) then g.(progress := LossProgress(g.progress)) else g
  }

  /** What the player or the clock can do. */
  datatype Event =
    | RollClicked(draws: seq<real>, newDraws: seq<real>, newIds: seq<DieId>, now: int)
    | DieClicked(id: DieId)
    | SecondElapsed

  /** An event carries the random values the state needs. */
  predicate Fits(g: GameState, e: Event) {
    e.RollClicked? ==> |e.draws| == |g.dice| && |e.newDraws| == DiceCount && |e.newIds| == DiceCount
  }

  function Handle(g: GameState, e: Event): GameState
    requires Fits(g, e)
  {
    match e
    case RollClicked(draws, newDraws, newIds, now) => RollStep(g, draws, newDraws, newIds, now)
    case DieClicked(id) => HoldStep(g, id)
    case SecondElapsed => TickStep(g)
  }

  /**
   * The effects that run after an event: the win effect whenever its guard
   * holds, the loss effect when `gameLost` has just become true (its only
   * dependency).
   */
  function RunEffects(before: GameState, after: GameState): GameState {
    var w := SettleWinStep(after);
    if GameLost(w.session) && !GameLost(before.session) then SettleLossStep(w) else w
  }

  /** An event followed by the effects it triggers. */
  function Dispatch(g: GameState, e: Event): GameState
    requires Fits(g, e)
  {
    RunEffects(g, Handle(g, e))
  }
}
