/**
 * Properties of the game engine, stated on the step functions of `TwrSpec`
 * and on runs of inbound actions: what each handler does to the round's
 * bookkeeping, the delegate notifications it sends, the countdown, the
 * flash bound, discovery scoring, and the timers that `end()` leaves
 * scheduled.
 */
module TwrProperties {
  import opened TwrTypes
  import opened TwrSpec

  function Min(a: nat, b: nat): nat
  {
    if a <= b then a else b
  }

  /** No action of `acts` is a call of `start()`. */
  predicate NoRestart(acts: seq<Action>)
  {
    forall i :: 0 <= i < |acts| ==> !acts[i].Start?
  }

  /** `k` copies of `x`. */
  function Repeat<T>(x: T, k: nat): (r: seq<T>)
    ensures |r| == k && forall i :: 0 <= i < k ==> r[i] == x
  {
    seq(k, _ => x)
  }

  /** `timer` firing once at each clock reading of `nows`. */
  function Ticks(timer: TimerId, nows: seq<nat>): (acts: seq<Action>)
    ensures |acts| == |nows| && forall i :: 0 <= i < |nows| ==> acts[i] == Fire(timer, nows[i])
  {
    seq(|nows|, i requires 0 <= i < |nows| => Fire(timer, nows[i]))
  }

  /** The countdown notifications `n, n - 1, ...`, `k` of them. */
  function Countdown(n: nat, k: nat): (es: seq<Event>)
    requires k <= n + 1
    ensures |es| == k && forall i :: 0 <= i < k ==> es[i] == DidUpdateCountDown(n - i)
  {
    seq(k, i requires 0 <= i < k => DidUpdateCountDown(n - i))
  }

  /** No peer has its counted flag set. */
  predicate NoneCounted(ps: seq<PeerStatus>)
  {
    forall j :: 0 <= j < |ps| ==> !ps[j].countedScore
  }

  // ---------------------------------------------------------------------
  // Counting notifications

  lemma {:induction false} CountAppend(e: Event, s: seq<Event>, t: seq<Event>)
    ensures Count(e, s + t) == Count(e, s) + Count(e, t)
    decreases |s|
  {
    if s == [] {
      assert s + t == t;
    } else {
      assert (s + t)[1..] == s[1..] + t;
      CountAppend(e, s[1..], t);
    }
  }

  /** `Count` is the multiplicity of the event in the log. */
  lemma {:induction false} CountIsMultiplicity(e: Event, s: seq<Event>)
    ensures Count(e, s) == multiset(s)[e]
    decreases |s|
  {
    if s != [] {
      assert s == [s[0]] + s[1..];
      CountIsMultiplicity(e, s[1..]);
    }
  }

  /**
   * The notifications each inbound action sends, in order: the delegate
   * protocol of the engine, written per handler.
   */
  function Emitted(v: GameView, cfg: GameConfig, a: Action): seq<Event>
    requires Enabled(v, cfg, a)
  {
    match a
    case Start => []
    case Fire(t, _) =>
      (match v.runLoop.timers[t].selector
       case OnCountDown =>
         [DidUpdateCountDown(v.countDown.value)] + (if v.countDown.value == 0 then [DidStartGame, DidUpdateColor] else [])
       case OnUpdateColor => [DidUpdateColor]
       case OnUpdateScore => [DidUpdateScore]
       case OnFlash => if v.flashCount.value < cfg.option.flashCount then [DidFlash] else []
       case OnEnd => [DidEndGame])
    case Discover(_, _, _) => []
    case End => []
  }

  /** Every handler appends exactly the notifications of the protocol to the log. */
  lemma StepNotifies(v: GameView, cfg: GameConfig, a: Action)
    requires Enabled(v, cfg, a)
    ensures Step(v, cfg, a).events == v.events + Emitted(v, cfg, a)
  {
    if a.Fire? && v.runLoop.timers[a.timer].selector == OnCountDown && v.countDown.value == 0 {
      var n := v.countDown.value;
      assert v.events + [DidUpdateCountDown(n)] + [DidStartGame] + [DidUpdateColor]
          == v.events + ([DidUpdateCountDown(n)] + [DidStartGame, DidUpdateColor]);
    }
  }

  /** A run only ever appends to the notification log. */
  lemma {:induction false} RunExtendsEvents(v: GameView, cfg: GameConfig, acts: seq<Action>)
    requires Defined(v, cfg, acts)
    ensures |Run(v, cfg, acts).events| >= |v.events|
    ensures Run(v, cfg, acts).events[..|v.events|] == v.events
    decreases |acts|
  {
    if acts != [] {
      var u := Step(v, cfg, acts[0]);
      StepNotifies(v, cfg, acts[0]);
      RunExtendsEvents(u, cfg, acts[1..]);
      assert u.events[..|v.events|] == v.events;
    }
  }

  /** No run takes a notification back: every count only grows. */
  lemma RunCountGrows(v: GameView, cfg: GameConfig, acts: seq<Action>, e: Event)
    requires Defined(v, cfg, acts)
    ensures Count(e, Run(v, cfg, acts).events) >= Count(e, v.events)
  {
    var es := Run(v, cfg, acts).events;
    RunExtendsEvents(v, cfg, acts);
    assert es == v.events + es[|v.events|..];
    CountAppend(e, v.events, es[|v.events|..]);
  }

  /** The first step of a run that adds no `e` to the log adds none either, nor does the rest. */
  lemma SplitNoCount(v: GameView, cfg: GameConfig, acts: seq<Action>, e: Event)
    requires acts != [] && Defined(v, cfg, acts)
    requires Count(e, Run(v, cfg, acts).events) == Count(e, v.events)
    ensures Count(e, Step(v, cfg, acts[0]).events) == Count(e, v.events)
    ensures Count(e, Run(Step(v, cfg, acts[0]), cfg, acts[1..]).events) == Count(e, Step(v, cfg, acts[0]).events)
  {
    var u := Step(v, cfg, acts[0]);
    StepNotifies(v, cfg, acts[0]);
    CountAppend(e, v.events, Emitted(v, cfg, acts[0]));
    RunCountGrows(u, cfg, acts[1..], e);
  }

  lemma {:induction false} RunAppend(v: GameView, cfg: GameConfig, xs: seq<Action>, ys: seq<Action>)
    requires Defined(v, cfg, xs) && Defined(Run(v, cfg, xs), cfg, ys)
    ensures Defined(v, cfg, xs + ys)
    ensures Run(v, cfg, xs + ys) == Run(Run(v, cfg, xs), cfg, ys)
    decreases |xs|
  {
    if xs == [] {
      assert xs + ys == ys;
    } else {
      assert (xs + ys)[0] == xs[0];
      assert (xs + ys)[1..] == xs[1..] + ys;
      RunAppend(Step(v, cfg, xs[0]), cfg, xs[1..], ys);
    }
  }

  /** Every reachable state keeps the timer table well formed. */
  lemma {:induction false} RunKeepsWellFormed(v: GameView, cfg: GameConfig, acts: seq<Action>)
    requires WellFormed(v) && Defined(v, cfg, acts)
    ensures WellFormed(Run(v, cfg, acts))
    decreases |acts|
  {
    if acts != [] {
      StepKeepsWellFormed(v, cfg, acts[0]);
      RunKeepsWellFormed(Step(v, cfg, acts[0]), cfg, acts[1..]);
    }
  }

  // ---------------------------------------------------------------------
  // start()

  /**
   * `start()` forgets the round: two states that differ only in their
   * history, samples, score, flash counter and countdown are the same
   * state after it.
   */
  lemma StartForgetsRound(v1: GameView, v2: GameView, cfg: GameConfig)
    requires v1.state == v2.state && v1.addScore == v2.addScore && v1.startTime == v2.startTime
    requires v1.handles == v2.handles && v1.runLoop == v2.runLoop && v1.peers == v2.peers && v1.events == v2.events
    ensures StartStep(v1, cfg) == StartStep(v2, cfg)
  {
  }

  /**
   * What `start()` sets, and what it leaves: the state, the bonus, the
   * notifications and every timer already scheduled, including a countdown
   * timer of an earlier `start()`.
   */
  lemma StartResets(v: GameView, cfg: GameConfig)
    ensures var w := StartStep(v, cfg); var t := |v.runLoop.timers|;
      w.transition == Some([]) && w.currentTransition == Some([]) &&
      w.score == cfg.option.startScore && w.flashCount == Some(0) && w.countDown == Some(cfg.option.countTime) &&
      w.runLoop.timers == v.runLoop.timers + [Timer(OnCountDown, 1)] &&
      w.runLoop.live == v.runLoop.live + {t} && w.handles.scan == Some(t) &&
      w.state == v.state && w.addScore == v.addScore && w.events == v.events && w.peers == v.peers
  {
  }

  /** Calling `start()` twice leaves two countdown timers running on the same counter. */
  lemma RestartLeaksCountDown(v: GameView, cfg: GameConfig)
    ensures var w := StartStep(StartStep(v, cfg), cfg); var t := |v.runLoop.timers|;
      t in w.runLoop.live && t + 1 in w.runLoop.live &&
      w.runLoop.timers[t].selector == OnCountDown && w.runLoop.timers[t + 1].selector == OnCountDown &&
      w.handles.scan == Some(t + 1)
  {
  }

  /**
   * The countdown timer of the first of two `start()` calls is held by no
   * handle, so `end()` leaves it scheduled and it can fire again.
   */
  lemma RestartedCountDownOutlivesEnd(v: GameView, cfg: GameConfig, later: nat)
    requires WellFormed(v)
    ensures var t := |v.runLoop.timers|; var w := EndStep(StartStep(StartStep(v, cfg), cfg));
      t in w.runLoop.live && w.runLoop.timers[t].selector == OnCountDown && Enabled(w, cfg, Fire(t, later))
  {
    var t := |v.runLoop.timers|;
    var x := StartStep(StartStep(v, cfg), cfg);
    EndLive(x);
    assert HandleTargets(Slot(v.handles, OnUpdateColor), OnUpdateColor, v.runLoop.timers);
    assert HandleTargets(Slot(v.handles, OnUpdateScore), OnUpdateScore, v.runLoop.timers);
    assert HandleTargets(Slot(v.handles, OnFlash), OnFlash, v.runLoop.timers);
    assert HandleTargets(Slot(v.handles, OnEnd), OnEnd, v.runLoop.timers);
    assert t !in HandleIds(x.handles);
  }

  // ---------------------------------------------------------------------
  // countDown(timer:)

  /**
   * `k` ticks of a countdown timer on a counter at `n >= k` report
   * `n, n - 1, ..., n - k + 1`, leave the counter at `n - k`, and change
   * nothing else but the state.
   */
  lemma {:induction false} CountDownTicks(v: GameView, cfg: GameConfig, t: TimerId, nows: seq<nat>)
    requires t in v.runLoop.live && t < |v.runLoop.timers| && v.runLoop.timers[t].selector == OnCountDown
    requires v.countDown.Some? && |nows| <= v.countDown.value
    ensures Defined(v, cfg, Ticks(t, nows))
    ensures Run(v, cfg, Ticks(t, nows)) ==
      if nows == [] then v
      else v.(state := CountDown, countDown := Some(v.countDown.value - |nows|),
              events := v.events + Countdown(v.countDown.value, |nows|))
    decreases |nows|
  {
    if nows != [] {
      var n := v.countDown.value;
      var u := Step(v, cfg, Fire(t, nows[0]));
      assert u == v.(state := CountDown, countDown := Some(n - 1), events := v.events + [DidUpdateCountDown(n)]);
      assert Ticks(t, nows)[1..] == Ticks(t, nows[1..]);
      CountDownTicks(u, cfg, t, nows[1..]);
      if nows[1..] == [] {
        assert Countdown(n, 1) == [DidUpdateCountDown(n)];
      } else {
        assert [DidUpdateCountDown(n)] + Countdown(n - 1, |nows| - 1) == Countdown(n, |nows|);
      }
    }
  }

  /**
   * The tick that sees zero starts the game: it reports zero, then the
   * start and the first colour, stops the countdown timer, records the
   * start time and arms the colour, score, flash and game timers with the
   * intervals of the colour at time zero and the options. The counter is
   * still zero: the unsigned decrement that follows traps.
   */
  lemma ZeroTickStartsGame(v: GameView, cfg: GameConfig, t: TimerId, now: nat)
    requires v.countDown == Some(0)
    ensures var w := CountDownStep(v, cfg, t, now); var k := |v.runLoop.timers|; var color := cfg.player(0);
      CountDownTraps(v) &&
      w.state == Stated && w.startTime == Some(now) && w.countDown == Some(0) &&
      w.events == v.events + [DidUpdateCountDown(0), DidStartGame, DidUpdateColor] &&
      w.runLoop.timers == v.runLoop.timers + [Timer(OnUpdateColor, color.time), Timer(OnUpdateScore, cfg.option.scanInterval),
                                              Timer(OnFlash, cfg.option.flashStartTime(color.time)), Timer(OnEnd, cfg.option.gameTime)] &&
      w.runLoop.live == v.runLoop.live - {t} + {k, k + 1, k + 2, k + 3} &&
      w.handles == v.handles.(updateColor := Some(k), updateScore := Some(k + 1), flash := Some(k + 2), game := Some(k + 3)) &&
      w.transition == v.transition && w.currentTransition == v.currentTransition && w.score == v.score &&
      w.flashCount == v.flashCount && w.peers == v.peers
  {
    assert Elapsed(now, now) == 0;
  }

  /**
   * From `start()`, the countdown timer it arms ticks `countTime` times
   * reporting `countTime` down to 1, and its next tick starts the game and
   * traps; `nows` are the clock readings of the ticks.
   */
  lemma StartThenCountDown(v: GameView, cfg: GameConfig, nows: seq<nat>)
    requires WellFormed(v) && |nows| == cfg.option.countTime + 1
    ensures var s := StartStep(v, cfg); var t := |v.runLoop.timers|; var n := cfg.option.countTime;
      Defined(s, cfg, Ticks(t, nows[..n])) &&
      CountDownTraps(Run(s, cfg, Ticks(t, nows[..n]))) &&
      Defined(s, cfg, Ticks(t, nows)) &&
      var w := Run(s, cfg, Ticks(t, nows));
      w.state == Stated && w.startTime == Some(nows[n]) &&
      w.events == v.events + Countdown(n, n + 1) + [DidStartGame, DidUpdateColor] &&
      t !in w.runLoop.live && |w.runLoop.timers| == t + 5 &&
      w.runLoop.live == v.runLoop.live + {t + 1, t + 2, t + 3, t + 4}
  {
    var s := StartStep(v, cfg);
    var t := |v.runLoop.timers|;
    var n := cfg.option.countTime;
    var pre, last := Ticks(t, nows[..n]), [Fire(t, nows[n])];
    StartCountsToZero(v, cfg, nows[..n]);
    var m := Run(s, cfg, pre);
    var w := CountDownStep(m, cfg, t, nows[n]);
    ZeroTickStartsGame(m, cfg, t, nows[n]);
    assert Run(m, cfg, last) == w;
    TicksSplit(t, nows, n);
    assert nows[..n + 1] == nows;
    RunAppend(s, cfg, pre, last);
    CountdownSnoc(n);
  }

  /** The first `countTime` ticks after `start()`: the counter reaches zero, no timer changes. */
  lemma StartCountsToZero(v: GameView, cfg: GameConfig, nows: seq<nat>)
    requires WellFormed(v) && |nows| == cfg.option.countTime
    ensures var s := StartStep(v, cfg); var t := |v.runLoop.timers|;
      Defined(s, cfg, Ticks(t, nows)) &&
      var m := Run(s, cfg, Ticks(t, nows));
      m.countDown == Some(0) && m.events == v.events + Countdown(|nows|, |nows|) &&
      m.runLoop == s.runLoop && m.runLoop.live == v.runLoop.live + {t} && t !in v.runLoop.live &&
      m.runLoop.timers[t].selector == OnCountDown
  {
    var t := |v.runLoop.timers|;
    assert t !in v.runLoop.live;
    CountDownTicks(StartStep(v, cfg), cfg, t, nows);
  }

  lemma TicksSplit(t: TimerId, nows: seq<nat>, n: nat)
    requires n < |nows|
    ensures Ticks(t, nows[..n + 1]) == Ticks(t, nows[..n]) + [Fire(t, nows[n])]
  {
  }

  lemma CountdownSnoc(n: nat)
    ensures Countdown(n, n) + [DidUpdateCountDown(0)] == Countdown(n, n + 1)
  {
  }

  // ---------------------------------------------------------------------
  // updateColor(timer:) and updateScore(timer:)

  /**
   * `updateColor(timer:)` appends exactly one interval to the history, the
   * current colour with the samples taken since the last one, and starts a
   * new interval; the colour and flash timers it replaces stay scheduled.
   */
  lemma UpdateColorAppendsInterval(v: GameView, cfg: GameConfig, now: nat)
    requires UpdateColorDefined(v, now)
    ensures var w := UpdateColorStep(v, cfg, now); var color := cfg.player(Elapsed(v.startTime.value, now));
      w.transition.Some? && |w.transition.value| == |v.transition.value| + 1 &&
      w.transition.value[..|v.transition.value|] == v.transition.value &&
      w.transition.value[|v.transition.value|] == Interval(color, v.currentTransition.value) &&
      w.currentTransition == Some([]) && w.flashCount == Some(0) &&
      w.events == v.events + [DidUpdateColor] &&
      w.runLoop.timers == v.runLoop.timers +
        [Timer(OnUpdateColor, color.time), Timer(OnFlash, cfg.option.flashStartTime(color.time))] &&
      w.runLoop.live == v.runLoop.live + {|v.runLoop.timers|, |v.runLoop.timers| + 1} &&
      w.handles == v.handles.(updateColor := Some(|v.runLoop.timers|), flash := Some(|v.runLoop.timers| + 1)) &&
      w.score == v.score && w.addScore == v.addScore && w.peers == v.peers && w.state == v.state &&
      w.startTime == v.startTime && w.countDown == v.countDown
  {
  }

  /**
   * `updateScore(timer:)` appends the score to the current interval's
   * samples, resets the bonus to zero, clears every peer's counted flag and
   * keeps the rest of each peer.
   */
  lemma UpdateScoreSamples(v: GameView)
    requires v.currentTransition.Some?
    ensures var w := UpdateScoreStep(v);
      w.currentTransition == Some(v.currentTransition.value + [v.score]) &&
      w.addScore == 0 && NoneCounted(w.peers) && |w.peers| == |v.peers| &&
      (forall j :: 0 <= j < |v.peers| ==> w.peers[j].playWith == v.peers[j].playWith && w.peers[j].rssi == v.peers[j].rssi) &&
      w.events == v.events + [DidUpdateScore] &&
      w.score == v.score && w.transition == v.transition && w.runLoop == v.runLoop && w.handles == v.handles
  {
  }

  // ---------------------------------------------------------------------
  // Runs without start(): flashes, history and samples

  /** One step of a run without `start()` and without a colour change. */
  lemma StepFlashes(v: GameView, cfg: GameConfig, a: Action)
    requires Enabled(v, cfg, a) && !a.Start? && v.flashCount.Some?
    requires Count(DidUpdateColor, Step(v, cfg, a).events) == Count(DidUpdateColor, v.events)
    ensures var w := Step(v, cfg, a); var f := cfg.option.flashCount;
      w.flashCount.Some? && w.flashCount.value >= v.flashCount.value &&
      Count(DidFlash, w.events) + Min(v.flashCount.value, f) == Count(DidFlash, v.events) + Min(w.flashCount.value, f)
  {
    var w := Step(v, cfg, a);
    StepNotifies(v, cfg, a);
    CountIsMultiplicity(DidUpdateColor, v.events);
    CountIsMultiplicity(DidUpdateColor, w.events);
    CountIsMultiplicity(DidFlash, v.events);
    CountIsMultiplicity(DidFlash, w.events);
    if a.Fire? && v.runLoop.timers[a.timer].selector == OnFlash {
      assert w == FlashStep(v, cfg);
    } else {
      StepKeepsFlashCount(v, cfg, a);
    }
  }

  /**
   * `flash(timer:)` raises the flash counter by exactly one. Below
   * `option.flashCount` it also notifies and arms a new flash timer in the
   * flash handle, leaving the one it replaces scheduled; at or above it,
   * the counter is all that changes.
   */
  lemma FlashStepBranches(v: GameView, cfg: GameConfig)
    requires v.flashCount.Some?
    ensures var w := FlashStep(v, cfg); var n := v.flashCount.value; var k := |v.runLoop.timers|;
      w.flashCount == Some(n + 1) &&
      (n < cfg.option.flashCount ==>
        w == v.(flashCount := Some(n + 1),
                runLoop := RunLoop(v.runLoop.timers + [Timer(OnFlash, cfg.option.flashInterval)], v.runLoop.live + {k}),
                handles := v.handles.(flash := Some(k)),
                events := v.events + [DidFlash])) &&
      (cfg.option.flashCount <= n ==> w == v.(flashCount := Some(n + 1)))
  {
  }

  /** The steps other than `flash(timer:)` and the colour changes leave the flash counter alone. */
  lemma StepKeepsFlashCount(v: GameView, cfg: GameConfig, a: Action)
    requires Enabled(v, cfg, a) && !a.Start?
    requires !(a.Fire? && v.runLoop.timers[a.timer].selector == OnFlash)
    requires DidUpdateColor !in multiset(Emitted(v, cfg, a))
    ensures Step(v, cfg, a).flashCount == v.flashCount && DidFlash !in multiset(Emitted(v, cfg, a))
  {
  }

  /**
   * Between two colour changes and without `start()`, the flash handler
   * notifies exactly `min(c', F) - min(c, F)` times, where `c` and `c'`
   * are the flash counter before and after and `F` is `option.flashCount`.
   */
  lemma {:induction false} RunFlashes(v: GameView, cfg: GameConfig, acts: seq<Action>)
    requires Defined(v, cfg, acts) && NoRestart(acts) && v.flashCount.Some?
    requires Count(DidUpdateColor, Run(v, cfg, acts).events) == Count(DidUpdateColor, v.events)
    ensures var w := Run(v, cfg, acts); var f := cfg.option.flashCount;
      w.flashCount.Some? && w.flashCount.value >= v.flashCount.value &&
      Count(DidFlash, w.events) + Min(v.flashCount.value, f) == Count(DidFlash, v.events) + Min(w.flashCount.value, f)
    decreases |acts|
  {
    if acts != [] {
      SplitNoCount(v, cfg, acts, DidUpdateColor);
      StepFlashes(v, cfg, acts[0]);
      assert NoRestart(acts[1..]);
      RunFlashes(Step(v, cfg, acts[0]), cfg, acts[1..]);
    }
  }

  /**
   * The flash bound: from an interval's start (flash counter zero), no run
   * without `start()` and without a colour change flashes more than
   * `option.flashCount` times.
   */
  lemma FlashBound(v: GameView, cfg: GameConfig, acts: seq<Action>)
    requires Defined(v, cfg, acts) && NoRestart(acts) && v.flashCount == Some(0)
    requires Count(DidUpdateColor, Run(v, cfg, acts).events) == Count(DidUpdateColor, v.events)
    ensures Count(DidFlash, Run(v, cfg, acts).events) <= Count(DidFlash, v.events) + cfg.option.flashCount
  {
    RunFlashes(v, cfg, acts);
  }

  /** One step of a run without `start()`, on the colour history. */
  lemma StepHistory(v: GameView, cfg: GameConfig, a: Action)
    requires Enabled(v, cfg, a) && !a.Start? && v.transition.Some?
    ensures var w := Step(v, cfg, a);
      w.transition.Some? && v.transition.value <= w.transition.value &&
      |w.transition.value| + Count(DidStartGame, w.events) + Count(DidUpdateColor, v.events) ==
      |v.transition.value| + Count(DidStartGame, v.events) + Count(DidUpdateColor, w.events)
  {
    var w := Step(v, cfg, a);
    StepNotifies(v, cfg, a);
    CountIsMultiplicity(DidUpdateColor, v.events);
    CountIsMultiplicity(DidUpdateColor, w.events);
    CountIsMultiplicity(DidStartGame, v.events);
    CountIsMultiplicity(DidStartGame, w.events);
    if a.Fire? && v.runLoop.timers[a.timer].selector == OnUpdateColor {
      UpdateColorAppendsInterval(v, cfg, a.now);
      assert w == UpdateColorStep(v, cfg, a.now);
    } else if a.Fire? && v.runLoop.timers[a.timer].selector == OnCountDown && v.countDown == Some(0) {
      ZeroTickStartsGame(v, cfg, a.timer, a.now);
      assert w == CountDownStep(v, cfg, a.timer, a.now);
    } else {
      StepKeepsHistory(v, cfg, a);
    }
  }

  /** The steps other than the colour changes leave the history alone and announce no colour. */
  lemma StepKeepsHistory(v: GameView, cfg: GameConfig, a: Action)
    requires Enabled(v, cfg, a) && !a.Start?
    requires !(a.Fire? && v.runLoop.timers[a.timer].selector == OnUpdateColor)
    requires !(a.Fire? && v.runLoop.timers[a.timer].selector == OnCountDown && v.countDown == Some(0))
    ensures Step(v, cfg, a).transition == v.transition
    ensures DidUpdateColor !in multiset(Emitted(v, cfg, a)) && DidStartGame !in multiset(Emitted(v, cfg, a))
  {
  }

  /**
   * Without `start()`, the colour history only grows, by one interval per
   * colour-change notification that is not the game's first.
   */
  lemma {:induction false} RunHistory(v: GameView, cfg: GameConfig, acts: seq<Action>)
    requires Defined(v, cfg, acts) && NoRestart(acts) && v.transition.Some?
    ensures var w := Run(v, cfg, acts);
      w.transition.Some? && v.transition.value <= w.transition.value &&
      |w.transition.value| + Count(DidStartGame, w.events) + Count(DidUpdateColor, v.events) ==
      |v.transition.value| + Count(DidStartGame, v.events) + Count(DidUpdateColor, w.events)
    decreases |acts|
  {
    if acts != [] {
      StepHistory(v, cfg, acts[0]);
      assert NoRestart(acts[1..]);
      RunHistory(Step(v, cfg, acts[0]), cfg, acts[1..]);
    }
  }

  /** One step of a run without `start()` and without a colour change, on the samples. */
  lemma StepSamples(v: GameView, cfg: GameConfig, a: Action)
    requires Enabled(v, cfg, a) && !a.Start? && v.currentTransition.Some?
    requires Count(DidUpdateColor, Step(v, cfg, a).events) == Count(DidUpdateColor, v.events)
    ensures var w := Step(v, cfg, a);
      w.score == v.score && w.currentTransition.Some? &&
      Count(DidUpdateScore, w.events) >= Count(DidUpdateScore, v.events) &&
      w.currentTransition.value ==
        v.currentTransition.value + Repeat(v.score, Count(DidUpdateScore, w.events) - Count(DidUpdateScore, v.events))
  {
    var w := Step(v, cfg, a);
    StepNotifies(v, cfg, a);
    CountIsMultiplicity(DidUpdateColor, v.events);
    CountIsMultiplicity(DidUpdateColor, w.events);
    CountIsMultiplicity(DidUpdateScore, v.events);
    CountIsMultiplicity(DidUpdateScore, w.events);
    if a.Fire? && v.runLoop.timers[a.timer].selector == OnUpdateScore {
      assert w == UpdateScoreStep(v);
      assert Count(DidUpdateScore, w.events) == Count(DidUpdateScore, v.events) + 1;
      assert Repeat(v.score, 1) == [v.score];
    } else {
      StepKeepsSamples(v, cfg, a);
      assert Repeat(v.score, 0) == [];
    }
  }

  /** The steps other than `updateScore(timer:)` and the colour changes leave the samples alone. */
  lemma StepKeepsSamples(v: GameView, cfg: GameConfig, a: Action)
    requires Enabled(v, cfg, a) && !a.Start? && v.currentTransition.Some?
    requires !(a.Fire? && v.runLoop.timers[a.timer].selector == OnUpdateScore)
    requires DidUpdateColor !in multiset(Emitted(v, cfg, a))
    ensures var w := Step(v, cfg, a);
      w.score == v.score && w.currentTransition == v.currentTransition &&
      DidUpdateScore !in multiset(Emitted(v, cfg, a))
  {
  }

  /**
   * Within one colour interval and without `start()`, the samples are the
   * score once per score-update notification. No handler but `start()`
   * changes the score, so every sample is the same value.
   */
  lemma {:induction false} RunSamples(v: GameView, cfg: GameConfig, acts: seq<Action>)
    requires Defined(v, cfg, acts) && NoRestart(acts) && v.currentTransition.Some?
    requires Count(DidUpdateColor, Run(v, cfg, acts).events) == Count(DidUpdateColor, v.events)
    ensures var w := Run(v, cfg, acts);
      w.score == v.score && w.currentTransition.Some? &&
      Count(DidUpdateScore, w.events) >= Count(DidUpdateScore, v.events) &&
      w.currentTransition.value ==
        v.currentTransition.value + Repeat(v.score, Count(DidUpdateScore, w.events) - Count(DidUpdateScore, v.events))
    decreases |acts|
  {
    if acts != [] {
      var u := Step(v, cfg, acts[0]);
      SplitNoCount(v, cfg, acts, DidUpdateColor);
      StepSamples(v, cfg, acts[0]);
      assert NoRestart(acts[1..]);
      RunSamples(u, cfg, acts[1..]);
      var w := Run(v, cfg, acts);
      var i := Count(DidUpdateScore, u.events) - Count(DidUpdateScore, v.events);
      var j := Count(DidUpdateScore, w.events) - Count(DidUpdateScore, u.events);
      assert Repeat(v.score, i) + Repeat(v.score, j) == Repeat(v.score, i + j);
    }
  }

  // ---------------------------------------------------------------------
  // Discovery

  /**
   * A discovery of peer `i` records the signal strength on that peer only,
   * and changes the bonus by the peer's gain exactly when the peer plays
   * and is not yet counted; nothing else changes.
   */
  lemma DiscoverScores(v: GameView, cfg: GameConfig, now: nat, i: nat, rssi: int)
    requires DiscoverDefined(v, cfg, now, Some(i))
    ensures var w := DiscoverStep(v, cfg, now, Some(i), rssi); var p := v.peers[i];
      |w.peers| == |v.peers| && w.peers[i] == p.(rssi := rssi) &&
      (forall j :: 0 <= j < |v.peers| && j != i ==> w.peers[j] == v.peers[j]) &&
      w.addScore == v.addScore + (if p.playWith && !p.countedScore then Gain(cfg, i, Elapsed(v.startTime.value, now)) else 0) &&
      w == v.(peers := w.peers, addScore := w.addScore)
  {
  }

  /** A discovery that matches no peer changes nothing. */
  lemma DiscoverUnknown(v: GameView, cfg: GameConfig, now: nat, rssi: int)
    requires DiscoverDefined(v, cfg, now, None)
    ensures DiscoverStep(v, cfg, now, None, rssi) == v
  {
  }

  /** One step keeps the peers' number, their playing flags and their counted flags cleared. */
  lemma StepKeepsNoneCounted(v: GameView, cfg: GameConfig, a: Action)
    requires Enabled(v, cfg, a) && NoneCounted(v.peers)
    ensures var w := Step(v, cfg, a);
      NoneCounted(w.peers) && |w.peers| == |v.peers| &&
      forall j :: 0 <= j < |v.peers| ==> w.peers[j].playWith == v.peers[j].playWith
  {
  }

  /**
   * No handler ever sets a peer's counted flag: from a state where no peer
   * is counted, none is in any reachable state.
   */
  lemma {:induction false} CountedNeverSet(v: GameView, cfg: GameConfig, acts: seq<Action>)
    requires Defined(v, cfg, acts) && NoneCounted(v.peers)
    ensures var w := Run(v, cfg, acts);
      NoneCounted(w.peers) && |w.peers| == |v.peers| &&
      forall j :: 0 <= j < |v.peers| ==> w.peers[j].playWith == v.peers[j].playWith
    decreases |acts|
  {
    if acts != [] {
      StepKeepsNoneCounted(v, cfg, acts[0]);
      CountedNeverSet(Step(v, cfg, acts[0]), cfg, acts[1..]);
    }
  }

  /**
   * Discovering the same playing, uncounted peer `k` times at the same
   * time adds its gain `k` times: nothing limits a peer to one count.
   */
  lemma {:induction false} RepeatedDiscovery(v: GameView, cfg: GameConfig, now: nat, i: nat, rssi: int, k: nat)
    requires DiscoverDefined(v, cfg, now, Some(i)) && v.peers[i].playWith && !v.peers[i].countedScore
    ensures Defined(v, cfg, Repeat(Discover(now, Some(i), rssi), k))
    ensures Run(v, cfg, Repeat(Discover(now, Some(i), rssi), k)).addScore ==
      v.addScore + k * Gain(cfg, i, Elapsed(v.startTime.value, now))
    decreases k
  {
    if k > 0 {
      var a := Discover(now, Some(i), rssi);
      var u := Step(v, cfg, a);
      DiscoverScores(v, cfg, now, i, rssi);
      assert Repeat(a, k)[1..] == Repeat(a, k - 1);
      RepeatedDiscovery(u, cfg, now, i, rssi, k - 1);
    }
  }

  // ---------------------------------------------------------------------
  // end() and the timers it leaves

  /** After `end()`, no timer a handle refers to is scheduled. */
  lemma EndStopsHandles(v: GameView)
    ensures var w := EndStep(v);
      w.handles == v.handles && w.runLoop.timers == v.runLoop.timers && w.runLoop.live <= v.runLoop.live &&
      forall sel :: Slot(w.handles, sel).Some? ==> Slot(w.handles, sel).value !in w.runLoop.live
  {
    EndLive(v);
  }

  /** `end()` twice is `end()` once. */
  lemma EndIdempotent(v: GameView)
    ensures EndStep(EndStep(v)) == EndStep(v)
  {
    EndLive(v);
    EndLive(EndStep(v));
  }

  /** The game timer's handler runs `end()` and notifies the end of the game exactly once. */
  lemma EndTickNotifiesOnce(v: GameView)
    ensures Count(DidEndGame, EndTickStep(v).events) == Count(DidEndGame, v.events) + 1
    ensures EndTickStep(v) == EndStep(v).(events := v.events + [DidEndGame])
  {
    CountAppend(DidEndGame, v.events, [DidEndGame]);
  }

  /**
   * A colour timer that `updateColor(timer:)` replaced is no longer held by
   * any handle, so `end()` leaves it scheduled and it can fire again.
   */
  lemma ReplacedColorTimerOutlivesEnd(v: GameView, cfg: GameConfig, now: nat, later: nat)
    requires WellFormed(v) && UpdateColorDefined(v, now) && now <= later
    requires v.handles.updateColor.Some? && v.handles.updateColor.value in v.runLoop.live
    ensures var u := v.handles.updateColor.value; var w := EndStep(UpdateColorStep(v, cfg, now));
      u in w.runLoop.live && w.runLoop.timers[u].selector == OnUpdateColor && Enabled(w, cfg, Fire(u, later))
  {
    var u := v.handles.updateColor.value;
    var x := UpdateColorStep(v, cfg, now);
    EndLive(x);
    assert HandleTargets(Slot(v.handles, OnUpdateColor), OnUpdateColor, v.runLoop.timers);
    assert HandleTargets(Slot(v.handles, OnCountDown), OnCountDown, v.runLoop.timers);
    assert HandleTargets(Slot(v.handles, OnUpdateScore), OnUpdateScore, v.runLoop.timers);
    assert HandleTargets(Slot(v.handles, OnEnd), OnEnd, v.runLoop.timers);
    assert u !in HandleIds(x.handles);
  }

  /**
   * The flash timer that `updateColor(timer:)` replaced is no longer held
   * by any handle either, so `end()` leaves it scheduled and it can fire again.
   */
  lemma ColorChangeFlashTimerOutlivesEnd(v: GameView, cfg: GameConfig, now: nat, later: nat)
    requires WellFormed(v) && UpdateColorDefined(v, now)
    requires v.handles.flash.Some? && v.handles.flash.value in v.runLoop.live
    ensures var f := v.handles.flash.value; var w := EndStep(UpdateColorStep(v, cfg, now));
      f in w.runLoop.live && w.runLoop.timers[f].selector == OnFlash && Enabled(w, cfg, Fire(f, later))
  {
    var f := v.handles.flash.value;
    var x := UpdateColorStep(v, cfg, now);
    EndLive(x);
    assert HandleTargets(Slot(v.handles, OnFlash), OnFlash, v.runLoop.timers);
    assert HandleTargets(Slot(v.handles, OnCountDown), OnCountDown, v.runLoop.timers);
    assert HandleTargets(Slot(v.handles, OnUpdateScore), OnUpdateScore, v.runLoop.timers);
    assert HandleTargets(Slot(v.handles, OnEnd), OnEnd, v.runLoop.timers);
    assert f !in HandleIds(x.handles);
  }

  /**
   * A flash timer that `flash(timer:)` replaced is no longer held by the
   * flash handle, so `end()` leaves it scheduled and it can fire again.
   */
  lemma ReplacedFlashTimerOutlivesEnd(v: GameView, cfg: GameConfig)
    requires WellFormed(v) && v.flashCount.Some? && v.flashCount.value < cfg.option.flashCount
    requires v.handles.flash.Some? && v.handles.flash.value in v.runLoop.live
    ensures var f := v.handles.flash.value; var w := EndStep(FlashStep(v, cfg));
      f in w.runLoop.live && w.runLoop.timers[f].selector == OnFlash && Enabled(w, cfg, Fire(f, 0))
  {
    var f := v.handles.flash.value;
    var x := FlashStep(v, cfg);
    EndLive(x);
    assert HandleTargets(Slot(v.handles, OnFlash), OnFlash, v.runLoop.timers);
    assert HandleTargets(Slot(v.handles, OnCountDown), OnCountDown, v.runLoop.timers);
    assert HandleTargets(Slot(v.handles, OnUpdateColor), OnUpdateColor, v.runLoop.timers);
    assert HandleTargets(Slot(v.handles, OnUpdateScore), OnUpdateScore, v.runLoop.timers);
    assert HandleTargets(Slot(v.handles, OnEnd), OnEnd, v.runLoop.timers);
    assert f !in HandleIds(x.handles);
  }
}
