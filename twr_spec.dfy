/**
 * The game engine as a state machine on values. `GameView` is everything the
 * engine's handlers read or write; there is one step function per handler,
 * and `Run` applies a sequence of inbound actions (a call of `start` or
 * `end`, a timer firing on the run loop, a peer discovery).
 */
module TwrSpec {
  import opened TwrTypes

  /** The five timer-handle fields of the game. */
  datatype Handles = Handles(
    scan: Option<TimerId>,
    updateColor: Option<TimerId>,
    updateScore: Option<TimerId>,
    flash: Option<TimerId>,
    game: Option<TimerId>)

  /**
   * The engine's state. `runLoop` holds every timer the engine has created
   * and the ones still scheduled; `events` is the sequence of notifications
   * sent to the delegate.
   */
  datatype GameView = GameView(
    state: GameState,
    transition: Option<seq<Interval>>,
    currentTransition: Option<seq<int>>,
    score: int,
    addScore: int,
    flashCount: Option<nat>,
    countDown: Option<nat>,
    startTime: Option<nat>,
    handles: Handles,
    runLoop: RunLoop,
    peers: seq<PeerStatus>,
    events: seq<Event>)

  /** What the engine is given and never changes: options and colour schedules. */
  datatype GameConfig = GameConfig(option: GameOption, player: nat -> Color, others: seq<nat -> Color>)

  function HandleIds(h: Handles): set<TimerId>
  {
    (if h.scan.Some? then {h.scan.value} else {}) +
    (if h.updateColor.Some? then {h.updateColor.value} else {}) +
    (if h.updateScore.Some? then {h.updateScore.value} else {}) +
    (if h.flash.Some? then {h.flash.value} else {}) +
    (if h.game.Some? then {h.game.value} else {})
  }

  /** The handle field that keeps the timers calling `sel`. */
  function Slot(h: Handles, sel: Selector): Option<TimerId>
  {
    match sel
    case OnCountDown => h.scan
    case OnUpdateColor => h.updateColor
    case OnUpdateScore => h.updateScore
    case OnFlash => h.flash
    case OnEnd => h.game
  }

  /** Store `t` in the handle field of `sel`. */
  function SetSlot(h: Handles, sel: Selector, t: Option<TimerId>): (r: Handles)
    ensures Slot(r, sel) == t
    ensures forall other :: other != sel ==> Slot(r, other) == Slot(h, other)
  {
    match sel
    case OnCountDown => h.(scan := t)
    case OnUpdateColor => h.(updateColor := t)
    case OnUpdateScore => h.(updateScore := t)
    case OnFlash => h.(flash := t)
    case OnEnd => h.(game := t)
  }

  predicate HandleTargets(h: Option<TimerId>, sel: Selector, timers: seq<Timer>)
  {
    h.Some? ==> h.value < |timers| && timers[h.value].selector == sel
  }

  /** Timer ids are table positions, and each handle holds a timer of its own kind. */
  predicate WellFormed(v: GameView)
  {
    (forall t :: t in v.runLoop.live ==> t < |v.runLoop.timers|) &&
    forall sel :: HandleTargets(Slot(v.handles, sel), sel, v.runLoop.timers)
  }

  /** The state right after construction. */
  function Initial(option: GameOption, peers: seq<PeerStatus>): GameView
  {
    GameView(Idle, None, None, option.startScore, 0, None, None, None,
         Handles(None, None, None, None, None), RunLoop([], {}), peers, [])
  }

  /**
   * Create a repeating timer calling `sel`, store it in the handle field of
   * `sel` and add it to the run loop; its id is the number of timers
   * created before it. The timer the field held before is not invalidated.
   */
  function Armed(v: GameView, sel: Selector, interval: nat): GameView
  {
    var id := |v.runLoop.timers|;
    v.(runLoop := RunLoop(v.runLoop.timers + [Timer(sel, interval)], v.runLoop.live + {id}),
       handles := SetSlot(v.handles, sel, Some(id)))
  }

  /** `t?.invalidate()`: remove the timer `t` refers to, if any, from the run loop. */
  function Invalidated(v: GameView, t: Option<TimerId>): GameView
  {
    if t.Some? then v.(runLoop := v.runLoop.(live := v.runLoop.live - {t.value})) else v
  }

  /** Send notification `e` to the delegate. */
  function Notified(v: GameView, e: Event): GameView
  {
    v.(events := v.events + [e])
  }

  /**
   * `start()`: reset the round's bookkeeping and arm a one-second countdown
   * timer, whatever the state.
   */
  function StartStep(v: GameView, cfg: GameConfig): GameView
  {
    var reset := v.(
      transition := Some([]),
      currentTransition := Some([]),
      score := cfg.option.startScore,
      flashCount := Some(0),
      countDown := Some(cfg.option.countTime));
    Armed(reset, OnCountDown, 1)
  }

  /** The countdown tick that sees zero stops at the unsigned decrement that follows. */
  predicate CountDownTraps(v: GameView)
  {
    v.countDown == Some(0)
  }

  /**
   * `countDown(timer:)`, fired by `timer` at clock reading `now`. On zero the
   * game starts. The decrement that follows a zero tick traps; the result is the state
   * at the trap, with the counter still zero.
   */
  function CountDownStep(v: GameView, cfg: GameConfig, timer: TimerId, now: nat): GameView
    requires v.countDown.Some?
  {
    var n := v.countDown.value;
    var ticked := Notified(v.(state := CountDown), DidUpdateCountDown(n));
    if n == 0 then StartGameStep(ticked, cfg, timer, now)
    else
      ticked.(countDown := Some(n - 1))
  }

  /**
   * The zero tick: invalidate the firing `timer`, start the game at `now`
   * and arm the colour, score, flash and game timers. The colour schedule is
   * read at the time elapsed since `now`, measured at `now`.
   */
  function StartGameStep(v: GameView, cfg: GameConfig, timer: TimerId, now: nat): GameView
  {
    var stopped := Invalidated(v, Some(timer));
    var started := Notified(Notified(stopped.(state := Stated), DidStartGame), DidUpdateColor).(startTime := Some(now));
    var color := cfg.player(Elapsed(now, now));
    Armed(Armed(Armed(Armed(started,
      OnUpdateColor, color.time),
      OnUpdateScore, cfg.option.scanInterval),
      OnFlash, cfg.option.flashStartTime(color.time)),
      OnEnd, cfg.option.gameTime)
  }

  /** What `updateColor(timer:)` force-unwraps. */
  predicate UpdateColorDefined(v: GameView, now: nat)
  {
    v.startTime.Some? && v.startTime.value <= now &&
    v.transition.Some? && v.currentTransition.Some?
  }

  /**
   * `updateColor(timer:)` at clock reading `now`: close the current colour
   * interval and arm new colour and flash timers.
   */
  function UpdateColorStep(v: GameView, cfg: GameConfig, now: nat): GameView
    requires UpdateColorDefined(v, now)
  {
    var color := cfg.player(Elapsed(v.startTime.value, now));
    var closed := v.(
      transition := Some(v.transition.value + [Interval(color, v.currentTransition.value)]),
      flashCount := Some(0),
      currentTransition := Some([]));
    Armed(Armed(Notified(closed, DidUpdateColor),
      OnUpdateColor, color.time),
      OnFlash, cfg.option.flashStartTime(color.time))
  }

  function ClearCounted(ps: seq<PeerStatus>): (r: seq<PeerStatus>)
    ensures |r| == |ps|
    ensures forall i :: 0 <= i < |ps| ==> r[i] == ps[i].(countedScore := false)
  {
    seq(|ps|, i requires 0 <= i < |ps| => ps[i].(countedScore := false))
  }

  /** `updateScore(timer:)`: sample the score, reset the bonus, clear the peers' flags. */
  function UpdateScoreStep(v: GameView): GameView
    requires v.currentTransition.Some?
  {
    var sampled := v.(
      currentTransition := Some(v.currentTransition.value + [v.score]),
      addScore := 0,
      peers := ClearCounted(v.peers));
    Notified(sampled, DidUpdateScore)
  }

  /**
   * `flash(timer:)`: below the configured count, notify and arm another
   * flash timer; count the tick in every case.
   */
  function FlashStep(v: GameView, cfg: GameConfig): GameView
    requires v.flashCount.Some?
  {
    var n := v.flashCount.value;
    var shown :=
      if n < cfg.option.flashCount then Armed(Notified(v, DidFlash), OnFlash, cfg.option.flashInterval)
      else v;
    shown.(flashCount := Some(n + 1))
  }

  /** `end()`: invalidate the timers the five handles refer to, one after the other. */
  function EndStep(v: GameView): GameView
  {
    var h := v.handles;
    Invalidated(Invalidated(Invalidated(Invalidated(Invalidated(v,
      h.scan), h.updateColor), h.updateScore), h.flash), h.game)
  }

  /** `end(timer:)`: `end()`, then tell the delegate. */
  function EndTickStep(v: GameView): GameView
  {
    Notified(EndStep(v), DidEndGame)
  }

  /** What the discovery callback force-unwraps, and a match that names a peer. */
  predicate DiscoverDefined(v: GameView, cfg: GameConfig, now: nat, found: Option<nat>)
  {
    v.startTime.Some? && v.startTime.value <= now &&
    (found.Some? ==> found.value < |v.peers| && found.value < |cfg.others|)
  }

  /**
   * The score change a meeting with a peer is worth: the peer's current
   * colour score minus the player's own.
   */
  function Gain(cfg: GameConfig, peer: nat, current: nat): int
    requires peer < |cfg.others|
  {
    cfg.others[peer](current).score - cfg.player(current).score
  }

  /**
   * The scoring part of the discovery callback: `found` is the position of
   * the first peer equal to the discovered one, if any, and `rssi` the
   * signal strength reported with it.
   */
  function DiscoverStep(v: GameView, cfg: GameConfig, now: nat, found: Option<nat>, rssi: int): GameView
    requires DiscoverDefined(v, cfg, now, found)
  {
    var current := Elapsed(v.startTime.value, now);
    match found
    case None => v
    case Some(i) =>
      var p := v.peers[i];
      var w := v.(peers := v.peers[i := p.(rssi := rssi)]);
      if p.playWith && !p.countedScore then
        w.(addScore := v.addScore - cfg.player(current).score + cfg.others[i](current).score)
      else w
  }

  /** An inbound event: a public call, a timer firing, a peer discovery. */
  datatype Action =
    | Start
    | Fire(timer: TimerId, now: nat)
    | Discover(now: nat, found: Option<nat>, rssi: int)
    | End

  /**
   * An action can happen: a fired timer is live, and the handler it calls
   * does not force-unwrap a field that is still nil.
   */
  predicate Enabled(v: GameView, cfg: GameConfig, a: Action)
  {
    match a
    case Start => true
    case Fire(t, now) =>
      t in v.runLoop.live && t < |v.runLoop.timers| &&
      (match v.runLoop.timers[t].selector
       case OnCountDown => v.countDown.Some?
       case OnUpdateColor => UpdateColorDefined(v, now)
       case OnUpdateScore => v.currentTransition.Some?
       case OnFlash => v.flashCount.Some?
       case OnEnd => true)
    case Discover(now, found, _) => DiscoverDefined(v, cfg, now, found)
    case End => true
  }

  function Step(v: GameView, cfg: GameConfig, a: Action): GameView
    requires Enabled(v, cfg, a)
  {
    match a
    case Start => StartStep(v, cfg)
    case Fire(t, now) =>
      (match v.runLoop.timers[t].selector
       case OnCountDown => CountDownStep(v, cfg, t, now)
       case OnUpdateColor => UpdateColorStep(v, cfg, now)
       case OnUpdateScore => UpdateScoreStep(v)
       case OnFlash => FlashStep(v, cfg)
       case OnEnd => EndTickStep(v))
    case Discover(now, found, rssi) => DiscoverStep(v, cfg, now, found, rssi)
    case End => EndStep(v)
  }

  /** Every action of `acts` is enabled in the state the earlier ones lead to. */
  predicate Defined(v: GameView, cfg: GameConfig, acts: seq<Action>)
    decreases |acts|
  {
    acts == [] || (Enabled(v, cfg, acts[0]) && Defined(Step(v, cfg, acts[0]), cfg, acts[1..]))
  }

  function Run(v: GameView, cfg: GameConfig, acts: seq<Action>): GameView
    requires Defined(v, cfg, acts)
    decreases |acts|
  {
    if acts == [] then v else Run(Step(v, cfg, acts[0]), cfg, acts[1..])
  }

  /** A change that creates no timer, moves no handle and schedules nothing keeps the table well formed. */
  lemma FramedKeepsWellFormed(v: GameView, w: GameView)
    requires WellFormed(v)
    requires w.handles == v.handles && w.runLoop.timers == v.runLoop.timers && w.runLoop.live <= v.runLoop.live
    ensures WellFormed(w)
  {
    forall sel ensures HandleTargets(Slot(w.handles, sel), sel, w.runLoop.timers) {
      assert HandleTargets(Slot(v.handles, sel), sel, v.runLoop.timers);
    }
  }

  lemma ArmedKeepsWellFormed(v: GameView, sel: Selector, interval: nat)
    requires WellFormed(v)
    ensures WellFormed(Armed(v, sel, interval))
  {
    var w := Armed(v, sel, interval);
    forall other ensures HandleTargets(Slot(w.handles, other), other, w.runLoop.timers) {
      assert HandleTargets(Slot(v.handles, other), other, v.runLoop.timers);
    }
  }

  lemma EndKeepsWellFormed(v: GameView)
    requires WellFormed(v)
    ensures WellFormed(EndStep(v)) && WellFormed(EndTickStep(v))
  {
    EndLive(v);
    FramedKeepsWellFormed(v, EndStep(v));
    FramedKeepsWellFormed(v, EndTickStep(v));
  }

  lemma CountDownKeepsWellFormed(v: GameView, cfg: GameConfig, t: TimerId, now: nat)
    requires WellFormed(v) && v.countDown.Some?
    ensures WellFormed(CountDownStep(v, cfg, t, now))
  {
    var ticked := Notified(v.(state := CountDown), DidUpdateCountDown(v.countDown.value));
    if v.countDown.value == 0 {
      var started := Notified(Notified(Invalidated(ticked, Some(t)).(state := Stated), DidStartGame), DidUpdateColor).(startTime := Some(now));
      FramedKeepsWellFormed(v, started);
      var color := cfg.player(Elapsed(now, now));
      var s1 := Armed(started, OnUpdateColor, color.time);
      var s2 := Armed(s1, OnUpdateScore, cfg.option.scanInterval);
      var s3 := Armed(s2, OnFlash, cfg.option.flashStartTime(color.time));
      ArmedKeepsWellFormed(started, OnUpdateColor, color.time);
      ArmedKeepsWellFormed(s1, OnUpdateScore, cfg.option.scanInterval);
      ArmedKeepsWellFormed(s2, OnFlash, cfg.option.flashStartTime(color.time));
      ArmedKeepsWellFormed(s3, OnEnd, cfg.option.gameTime);
    } else {
      FramedKeepsWellFormed(v, CountDownStep(v, cfg, t, now));
    }
  }

  lemma UpdateColorKeepsWellFormed(v: GameView, cfg: GameConfig, now: nat)
    requires WellFormed(v) && UpdateColorDefined(v, now)
    ensures WellFormed(UpdateColorStep(v, cfg, now))
  {
    var color := cfg.player(Elapsed(v.startTime.value, now));
    var closed := Notified(v.(
      transition := Some(v.transition.value + [Interval(color, v.currentTransition.value)]),
      flashCount := Some(0),
      currentTransition := Some([])), DidUpdateColor);
    FramedKeepsWellFormed(v, closed);
    ArmedKeepsWellFormed(closed, OnUpdateColor, color.time);
    ArmedKeepsWellFormed(Armed(closed, OnUpdateColor, color.time), OnFlash, cfg.option.flashStartTime(color.time));
  }

  lemma FlashKeepsWellFormed(v: GameView, cfg: GameConfig)
    requires WellFormed(v) && v.flashCount.Some?
    ensures WellFormed(FlashStep(v, cfg))
  {
    if v.flashCount.value < cfg.option.flashCount {
      var u := Notified(v, DidFlash);
      FramedKeepsWellFormed(v, u);
      ArmedKeepsWellFormed(u, OnFlash, cfg.option.flashInterval);
      var x := Armed(u, OnFlash, cfg.option.flashInterval);
      FramedKeepsWellFormed(x, FlashStep(v, cfg));
    } else {
      FramedKeepsWellFormed(v, FlashStep(v, cfg));
    }
  }

  /** Every handler keeps the timer table well formed. */
  lemma StepKeepsWellFormed(v: GameView, cfg: GameConfig, a: Action)
    requires WellFormed(v) && Enabled(v, cfg, a)
    ensures WellFormed(Step(v, cfg, a))
  {
    match a
    case Start =>
      var reset := v.(transition := Some([]), currentTransition := Some([]), score := cfg.option.startScore,
                      flashCount := Some(0), countDown := Some(cfg.option.countTime));
      FramedKeepsWellFormed(v, reset);
      ArmedKeepsWellFormed(reset, OnCountDown, 1);
    case Fire(t, now) =>
      match v.runLoop.timers[t].selector {
      case OnCountDown => CountDownKeepsWellFormed(v, cfg, t, now);
      case OnUpdateColor => UpdateColorKeepsWellFormed(v, cfg, now);
      case OnUpdateScore => FramedKeepsWellFormed(v, UpdateScoreStep(v));
      case OnFlash => FlashKeepsWellFormed(v, cfg);
      case OnEnd => EndKeepsWellFormed(v);
      }
    case Discover(now, found, rssi) => FramedKeepsWellFormed(v, DiscoverStep(v, cfg, now, found, rssi));
    case End => EndKeepsWellFormed(v);
  }

  /** `end()` unschedules exactly the timers the handles refer to, and changes nothing else. */
  lemma EndLive(v: GameView)
    ensures EndStep(v) == v.(runLoop := v.runLoop.(live := v.runLoop.live - HandleIds(v.handles)))
  {
    var h := v.handles;
    var w1 := Invalidated(v, h.scan);
    var w2 := Invalidated(w1, h.updateColor);
    var w3 := Invalidated(w2, h.updateScore);
    var w4 := Invalidated(w3, h.flash);
    var w5 := Invalidated(w4, h.game);
    assert w5.runLoop.live == v.runLoop.live - HandleIds(h);
  }

  /** How many times `e` occurs in `s`. */
  function Count(e: Event, s: seq<Event>): nat
  {
    if s == [] then 0 else (if s[0] == e then 1 else 0) + Count(e, s[1..])
  }
}
