/**
 * The App component as an object: its four pieces of React state are fields,
 * and each event handler or effect is a method that assigns them as the
 * component's setters do, one event at a time. Each method's new state is the
 * matching step of Tenzies applied to the old state, so everything Invariants
 * proves about the steps holds of the object.
 */
module App {
  import opened Wrappers
  import opened Dice
  import opened Scoring
  import opened Tenzies
  import opened Invariants

  class Game {
    var dice: seq<Die>
    var session: Session
    var crypto: CryptoState
    var progress: Progress

    function State(): GameState
      reads this
    {
      GameState(dice, session, crypto, progress)
    }

    ghost predicate Valid()
      reads this
    {
      Inv(State())
    }

    /** A first visit: new dice and the default records (App.jsx:5-47 with nothing saved). */
    constructor (draws: seq<real>, ids: seq<DieId>)
      requires |draws| == DiceCount && |ids| == DiceCount && AreUnitDraws(draws)
      ensures State() == Initial(draws, ids)
      ensures Valid() && Settled(State())
    {
      dice := AllNewDice(draws, ids);
      session := DefaultSession;
      crypto := DefaultCrypto;
      progress := DefaultProgress;
      new;
      InitialInv(draws, ids);
    }

    /** `rollDice` (App.jsx:137-167). */
    method RollDice(draws: seq<real>, newDraws: seq<real>, newIds: seq<DieId>, now: int)
      requires Valid()
      requires |draws| == |dice| && |newDraws| == DiceCount && |newIds| == DiceCount
      requires AreUnitDraws(draws) && AreUnitDraws(newDraws)
      modifies this
      ensures State() == RollStep(old(State()), draws, newDraws, newIds, now)
      ensures Valid()
    {
      RollKeepsInv(State(), draws, newDraws, newIds, now);
      if GameWon(dice) || GameLost(session) {
        dice := AllNewDice(newDraws, newIds);
        session := DefaultSession;
      } else if RollsRemaining(session) > 0 {
        if session.status == Idle {
          session := StartPlaying(session, now);
        }
        dice := Reroll(dice, draws);
        session := CountRoll(session);
      }
    }

    /** `hold(id)` (App.jsx:169-175). */
    method Hold(id: DieId)
      requires Valid()
      modifies this
      ensures State() == HoldStep(old(State()), id)
      ensures Valid()
    {
      HoldKeepsInv(State(), id);
      if GameActive(session) && !GameWon(dice) {
        dice := ToggleHeld(dice, id);
      }
    }

    /** One firing of the countdown interval (App.jsx:74-81). */
    method Tick()
      requires Valid()
      modifies this
      ensures State() == TickStep(old(State()))
      ensures Valid()
    {
      TickKeepsInv(State());
      if GameActive(session) && session.timer > 0 && !GameWon(dice) {
        session := TickSession(session);
      }
    }

    /** The win effect (App.jsx:87-102). */
    method SettleWin()
      requires Valid()
      modifies this
      ensures State() == SettleWinStep(old(State()))
      ensures Valid() && Settled(State())
    {
      SettleWinKeepsInv(State());
      if GameWon(dice) && GameActive(session) {
        var timeUsed := GameSeconds - session.timer;
        var points := CalculatePoints(timeUsed, session.rollCount);
        session := session.(status := Won);
        crypto := crypto.(airdropPoints := crypto.airdropPoints + points);
        progress := WinProgress(progress, timeUsed, points);
      }
    }

    /** The loss effect (App.jsx:104-114). */
    method SettleLoss()
      requires Valid()
      modifies this
      ensures State() == SettleLossStep(old(State()))
      ensures Valid()
    {
      SettleLossKeepsInv(State());
      if GameLost(session) {
        progress := LossProgress(progress);
      }
    }

    /** An event, then the effects whose guards it makes true. */
    method Dispatch(e: Event)
      requires Valid() && Settled(State()) && EventOk(e)
      modifies this
      ensures State() == Tenzies.Dispatch(old(State()), e)
      ensures Valid() && Settled(State())
    {
      var wasLost := GameLost(session);
      match e {
        case RollClicked(draws, newDraws, newIds, now) => RollDice(draws, newDraws, newIds, now);
        case DieClicked(id) => Hold(id);
        case SecondElapsed => Tick();
      }
      SettleWin();
      if GameLost(session) && !wasLost {
        SettleLoss();
      }
    }
  }
}
