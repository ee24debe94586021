/**
 * The game engine `TWRGame`: a class whose handlers are called by the run
 * loop (timers) and by the Bluetooth central (discoveries), each changing
 * the game's fields in place. Every handler is proved to perform the step
 * function of the same name in `TwrSpec` on the game's `View()`.
 */
module TwrGame {
  import opened TwrTypes
  import opened TwrSpec

  /**
   * The first peer the discovered player is equal to: `isMatch[i]` is the
   * outcome of the equality test on peer `i`, and the game keeps the first
   * element of the filtered list.
   */
  function FirstMatch(isMatch: seq<bool>): (r: Option<nat>)
    ensures r.Some? ==> r.value < |isMatch| && isMatch[r.value]
    ensures r.Some? ==> forall j :: 0 <= j < r.value ==> !isMatch[j]
    ensures r.None? <==> forall j :: 0 <= j < |isMatch| ==> !isMatch[j]
  {
    if isMatch == [] then None
    else if isMatch[0] then Some(0)
    else
      match FirstMatch(isMatch[1..])
      case None => None
      case Some(i) => Some(i + 1)
  }

  class TWRGame {
    const player: Player
    const option: GameOption
    var others: seq<Player>
    var state: GameState

    var transition: Option<seq<Interval>>
    var currentTransition: Option<seq<int>>
    var score: int
    var addScore: int
    var flashCount: Option<nat>
    var countDown: Option<nat>
    var startTime: Option<nat>

    var scanTimer: Option<TimerId>
    var updateColorTimer: Option<TimerId>
    var updateScoreTimer: Option<TimerId>
    var flashTimer: Option<TimerId>
    var gameTimer: Option<TimerId>

    /** The main run loop's view of the game's timers. */
    var runLoop: RunLoop

    /** The notifications sent to the delegate, oldest first. */
    var events: seq<Event>

    function View(): GameView
      reads this
    {
      GameView(state, transition, currentTransition, score, addScore, flashCount, countDown, startTime,
           Handles(scanTimer, updateColorTimer, updateScoreTimer, flashTimer, gameTimer),
           runLoop, Statuses(others), events)
    }

    function Config(): GameConfig
      reads this
    {
      GameConfig(option, player.currentColor, Schedules(others))
    }

    ghost predicate Valid()
      reads this
    {
      WellFormed(View())
    }

    /** `timer` is scheduled and calls the handler `sel`: the only way the run loop calls a handler. */
    predicate Fires(timer: TimerId, sel: Selector)
      reads this
    {
      timer in runLoop.live && timer < |runLoop.timers| && runLoop.timers[timer].selector == sel
    }

    constructor (player: Player, others: seq<Player>, option: GameOption)
      ensures Valid()
      ensures View() == Initial(option, Statuses(others))
      ensures this.player == player && this.option == option && this.others == others
    {
      this.player := player;
      this.others := others;
      this.option := option;
      state := Idle;
      transition, currentTransition := None, None;
      score := option.startScore;
      addScore := 0;
      flashCount, countDown, startTime := None, None, None;
      scanTimer, updateColorTimer, updateScoreTimer, flashTimer, gameTimer := None, None, None, None, None;
      runLoop := RunLoop([], {});
      events := [];
    }

    /**
     * Create a repeating timer calling `sel`, keep it in the handle field of
     * `sel` and add it to the main run loop.
     */
    method ArmTimer(sel: Selector, interval: nat)
      modifies this`scanTimer, this`updateColorTimer, this`updateScoreTimer, this`flashTimer, this`gameTimer, this`runLoop
      ensures View() == Armed(old(View()), sel, interval)
      ensures others == old(others)
    {
      var id := |runLoop.timers|;
      match sel {
        case OnCountDown => scanTimer := Some(id);
        case OnUpdateColor => updateColorTimer := Some(id);
        case OnUpdateScore => updateScoreTimer := Some(id);
        case OnFlash => flashTimer := Some(id);
        case OnEnd => gameTimer := Some(id);
      }
      runLoop := RunLoop(runLoop.timers + [Timer(sel, interval)], runLoop.live + {id});
    }

    /** `t?.invalidate()`. */
    method Invalidate(t: Option<TimerId>)
      modifies this`runLoop
      ensures View() == Invalidated(old(View()), t)
      ensures others == old(others)
    {
      if t.Some? {
        runLoop := runLoop.(live := runLoop.live - {t.value});
      }
    }

    /** `delegate?.didX(...)`. */
    method Notify(e: Event)
      modifies this`events
      ensures View() == Notified(old(View()), e)
      ensures others == old(others)
    {
      events := events + [e];
    }

    /** The first half of `start()`: a fresh history, the starting score and full counters. */
    method ResetRound()
      modifies this`transition, this`currentTransition, this`score, this`flashCount, this`countDown
      ensures transition == Some([]) && currentTransition == Some([])
      ensures score == option.startScore && flashCount == Some(0) && countDown == Some(option.countTime)
    {
      transition := Some([]);
      currentTransition := Some([]);
      score := option.startScore;
      flashCount := Some(0);
      countDown := Some(option.countTime);
    }

    /**
     * `start()`: whatever the state, reset the round's bookkeeping and arm a
     * new one-second countdown timer; the previous one is not invalidated.
     */
    method Start()
      requires Valid()
      modifies this
      ensures Valid()
      ensures View() == StartStep(old(View()), old(Config()))
      ensures others == old(others)
    {
      ghost var v0, c0 := View(), Config();
      ResetRound();
      ArmTimer(OnCountDown, 1);

      StepKeepsWellFormed(v0, c0, Action.Start);
    }

    /**
     * `countDown(timer:)`. On a tick that sees zero the game starts, and the
     * decrement of the unsigned counter that follows traps: `trapped` says
     * so, and the counter is left at zero rather than wrapped around.
     */
    method CountDown(timer: TimerId, now: nat) returns (trapped: bool)
      requires Valid() && Fires(timer, OnCountDown) && countDown.Some?
      modifies this
      ensures Valid()
      ensures View() == CountDownStep(old(View()), old(Config()), timer, now)
      ensures others == old(others)
      ensures trapped <==> CountDownTraps(old(View()))
    {
      ghost var v0, c0 := View(), Config();
      state := GameState.CountDown;
      Notify(DidUpdateCountDown(countDown.value));

      if countDown.value == 0 {
        StartGame(timer, now);
        trapped := true;
      } else {
        countDown := Some(countDown.value - 1);
        trapped := false;
      }

      StepKeepsWellFormed(v0, c0, Fire(timer, now));
    }

    /**
     * The zero tick of `countDown(timer:)`: stop the countdown timer, start
     * the game at clock reading `now` and arm the colour, score, flash and
     * game timers.
     */
    method StartGame(timer: TimerId, now: nat)
      modifies this`scanTimer, this`updateColorTimer, this`updateScoreTimer, this`flashTimer, this`gameTimer
      modifies this`runLoop, this`events, this`state, this`startTime
      ensures View() == StartGameStep(old(View()), old(Config()), timer, now)
    {
      Invalidate(Some(timer));

      state := Stated;
      Notify(DidStartGame);
      Notify(DidUpdateColor);
      startTime := Some(now);
      var current := Elapsed(startTime.value, now);

      ArmTimer(OnUpdateColor, player.currentColor(current).time);
      ArmTimer(OnUpdateScore, option.scanInterval);
      ArmTimer(OnFlash, option.flashStartTime(player.currentColor(current).time));
      ArmTimer(OnEnd, option.gameTime);
    }

    /**
     * The first half of `updateColor(timer:)`: record the interval that ends
     * with colour `color` and the samples taken in it, and start a new one.
     */
    method CloseInterval(color: Color)
      requires transition.Some? && currentTransition.Some?
      modifies this`transition, this`currentTransition, this`flashCount
      ensures transition == Some(old(transition).value + [Interval(color, old(currentTransition).value)])
      ensures currentTransition == Some([]) && flashCount == Some(0)
    {
      transition := Some(transition.value + [Interval(color, currentTransition.value)]);

      flashCount := Some(0);
      currentTransition := Some([]);
    }

    /**
     * `updateColor(timer:)`: close the current colour interval and arm new
     * colour and flash timers, leaving the previous ones scheduled.
     */
    method UpdateColor(timer: TimerId, now: nat)
      requires Valid() && Fires(timer, OnUpdateColor)
      requires startTime.Some? && startTime.value <= now && transition.Some? && currentTransition.Some?
      modifies this
      ensures Valid()
      ensures View() == UpdateColorStep(old(View()), old(Config()), now)
      ensures others == old(others)
    {
      ghost var v0, c0 := View(), Config();
      var current := Elapsed(startTime.value, now);
      CloseInterval(player.currentColor(current));
      Notify(DidUpdateColor);

      ArmTimer(OnUpdateColor, player.currentColor(current).time);
      ArmTimer(OnFlash, option.flashStartTime(player.currentColor(current).time));

      StepKeepsWellFormed(v0, c0, Fire(timer, now));
    }

    /** The loop of `updateScore(timer:)`: clear the counted flag of every peer. */
    method ClearCountedScores()
      modifies this`others
      ensures |others| == |old(others)|
      ensures forall j :: 0 <= j < |others| ==> others[j] == old(others[j]).(countedScore := false)
      ensures Statuses(others) == ClearCounted(old(Statuses(others)))
      ensures Schedules(others) == old(Schedules(others))
    {
      var i := 0;
      while i < |others|
        invariant 0 <= i <= |others| == |old(others)|
        invariant forall j :: 0 <= j < i ==> others[j] == old(others[j]).(countedScore := false)
        invariant forall j :: i <= j < |others| ==> others[j] == old(others[j])
      {
        others := others[i := others[i].(countedScore := false)];
        i := i + 1;
      }
      assert Statuses(others) == ClearCounted(old(Statuses(others)));
      assert Schedules(others) == old(Schedules(others));
    }

    /**
     * `updateScore(timer:)`: sample the score into the current interval,
     * reset the discovery bonus and clear every peer's counted flag.
     */
    method UpdateScore(timer: TimerId)
      requires Valid() && Fires(timer, OnUpdateScore) && currentTransition.Some?
      modifies this
      ensures Valid()
      ensures View() == UpdateScoreStep(old(View()))
      ensures Config() == old(Config())
    {
      ghost var v0, c0 := View(), Config();
      currentTransition := Some(currentTransition.value + [score]);
      addScore := 0;
      ClearCountedScores();
      Notify(DidUpdateScore);

      StepKeepsWellFormed(v0, c0, Fire(timer, 0));
    }

    /**
     * `flash(timer:)`: while fewer than `option.flashCount` flashes have
     * been shown in this interval, notify and arm another flash timer;
     * count the tick in every case.
     */
    method Flash(timer: TimerId)
      requires Valid() && Fires(timer, OnFlash) && flashCount.Some?
      modifies this
      ensures Valid()
      ensures View() == FlashStep(old(View()), old(Config()))
      ensures others == old(others)
    {
      ghost var v0, c0 := View(), Config();
      if flashCount.value < option.flashCount {
        Notify(DidFlash);
        ArmTimer(OnFlash, option.flashInterval);
      }

      flashCount := Some(flashCount.value + 1);

      StepKeepsWellFormed(v0, c0, Fire(timer, 0));
    }

    /** `end()`: invalidate the timers the five handles refer to. */
    method End()
      requires Valid()
      modifies this
      ensures Valid()
      ensures View() == EndStep(old(View()))
      ensures others == old(others)
    {
      ghost var v0, c0 := View(), Config();
      Invalidate(scanTimer);
      Invalidate(updateColorTimer);
      Invalidate(updateScoreTimer);
      Invalidate(flashTimer);
      Invalidate(gameTimer);

      StepKeepsWellFormed(v0, c0, Action.End);
    }

    /** `end(timer:)`: `end()`, then tell the delegate the game is over. */
    method EndByTimer(timer: TimerId)
      requires Valid() && Fires(timer, OnEnd)
      modifies this
      ensures Valid()
      ensures View() == EndTickStep(old(View()))
      ensures others == old(others)
    {
      ghost var v0, c0 := View(), Config();
      End();
      Notify(DidEndGame);

      StepKeepsWellFormed(v0, c0, Fire(timer, 0));
    }

    /**
     * The scoring part of `centralManager(_:didDiscoverPeripheral:...)`:
     * `isMatch[i]` tells whether peer `i` equals the discovered player and
     * `rssi` is the signal strength reported with it.
     */
    method DidDiscover(isMatch: seq<bool>, rssi: int, now: nat)
      requires Valid() && |isMatch| == |others|
      requires startTime.Some? && startTime.value <= now
      modifies this
      ensures Valid()
      ensures View() == DiscoverStep(old(View()), old(Config()), now, FirstMatch(isMatch), rssi)
      ensures Config() == old(Config())
      ensures score == old(score)
      ensures FirstMatch(isMatch).None? ==> others == old(others) && addScore == old(addScore)
    {
      ghost var v0, c0 := View(), Config();
      var current := Elapsed(startTime.value, now);
      var found := FirstMatch(isMatch);

      if found.Some? {
        var i := found.value;
        others := others[i := others[i].(rssi := rssi)];

        if others[i].playWith && !others[i].countedScore {
          addScore := addScore - player.currentColor(current).score;
          addScore := addScore + others[i].currentColor(current).score;
        }
      }

      assert View() == DiscoverStep(v0, c0, now, found, rssi);
      StepKeepsWellFormed(v0, c0, Discover(now, found, rssi));
    }
  }
}
