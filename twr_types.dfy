/**
 * Value types shared by the Twinkrun game engine model: the game state,
 * colours and their history, delegate notifications, run-loop timers,
 * players and the game options.
 */
module TwrTypes {

  datatype Option<+T> = None | Some(value: T)

  /** The three states of the engine; there is no end state. */
  datatype GameState = Idle | CountDown | Stated

  /**
   * A colour as returned by the player's colour schedule: `tag` tells the
   * colours apart, `time` is how long the colour lasts and `score` is the
   * value a meeting with a player showing it is worth.
   */
  datatype Color = Color(tag: nat, time: nat, score: int)

  /** One completed colour interval: the colour and the score samples taken while it lasted. */
  datatype Interval = Interval(color: Color, scores: seq<int>)

  /** A notification sent to the game's delegate. */
  datatype Event =
    | DidUpdateCountDown(count: nat)
    | DidStartGame
    | DidUpdateScore
    | DidFlash
    | DidUpdateColor
    | DidEndGame

  /** The handler a run-loop timer calls when it fires. */
  datatype Selector = OnCountDown | OnUpdateColor | OnUpdateScore | OnFlash | OnEnd

  /** Identifier of a timer: its position in the table of created timers. */
  type TimerId = nat

  /** A timer as created: every timer of the game repeats until it is invalidated. */
  datatype Timer = Timer(selector: Selector, interval: nat)

  /**
   * The main run loop, as far as the game's timers go: every timer the game
   * has created, indexed by id, and the ids still scheduled.
   */
  datatype RunLoop = RunLoop(timers: seq<Timer>, live: set<TimerId>)

  /**
   * A player. `currentColor` is the player's colour schedule (a collaborator
   * whose code is not part of this model); the other fields are the ones the
   * game reads and writes on its peers.
   */
  datatype Player = Player(currentColor: nat -> Color, playWith: bool, countedScore: bool, rssi: int)

  /** The part of a peer that the game can change or test. */
  datatype PeerStatus = PeerStatus(playWith: bool, countedScore: bool, rssi: int)

  function Status(p: Player): PeerStatus
  {
    PeerStatus(p.playWith, p.countedScore, p.rssi)
  }

  function Statuses(ps: seq<Player>): (r: seq<PeerStatus>)
    ensures |r| == |ps|
    ensures forall i :: 0 <= i < |ps| ==> r[i] == Status(ps[i])
  {
    seq(|ps|, i requires 0 <= i < |ps| => Status(ps[i]))
  }

  function Schedules(ps: seq<Player>): (r: seq<nat -> Color>)
    ensures |r| == |ps|
    ensures forall i :: 0 <= i < |ps| ==> r[i] == ps[i].currentColor
  {
    seq(|ps|, i requires 0 <= i < |ps| => ps[i].currentColor)
  }

  /**
   * The game options. `flashStartTime`, `flashInterval` and `gameTime` are
   * computed by code outside this model and are taken as given.
   */
  datatype GameOption = GameOption(
    startScore: int,
    countTime: nat,
    scanInterval: nat,
    flashCount: nat,
    flashStartTime: nat -> nat,
    flashInterval: nat,
    gameTime: nat)

  /**
   * The `current` time the game hands to the colour schedules: the seconds
   * elapsed since the game started, divided by 1000 and truncated to an
   * unsigned integer. Clock readings are whole seconds.
   */
  function Elapsed(start: nat, now: nat): (current: nat)
    requires start <= now
    ensures current * 1000 <= now - start < (current + 1) * 1000
  {
    (now - start) / 1000
  }
}
