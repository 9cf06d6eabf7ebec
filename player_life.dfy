/**
 * The life-cycle of a jpacman player as values: its score, remaining lives,
 * alive flag, optional killer, the abstract state of its death animation, the
 * set of registered life observers and, as a record of the outbound events,
 * the multiset of observers that have received `lifeLost` so far.  Every
 * public operation of the player is a member function giving the next state;
 * Run replays a sequence of operations, and the lemmas at the end state what
 * holds over whole sequences.
 */
module PlayerLife {
  import opened Wrappers

  /** Identity of a registered LifeObserver. */
  type ObserverId = nat
  /** Identity of a unit on the board (the ghost that killed the player). */
  type UnitId = nat
  /** Handle of a still sprite image; images are not part of this model. */
  type SpriteId = nat

  datatype Direction = North | South | West | East

  /** The states of the death animation that the player's operations can leave it in. */
  datatype Animation = Stopped | PlayingFromStart

  /** What the player shows: a sprite for its facing direction, or its death animation. */
  datatype Visual = Still(sprite: SpriteId) | DeathAnimation

  /** Lives a new player starts with. */
  const InitialLives: int := 3

  datatype PlayerState = PlayerState(
    score: int,
    lives: int,
    alive: bool,
    killer: Option<UnitId>,
    deathAnimation: Animation,
    observers: set<ObserverId>,
    heard: multiset<ObserverId>)
  {
    /** The death animation is playing whenever the player is dead. */
    ghost predicate DeadShowsDeathAnimation() {
      !alive ==> deathAnimation == PlayingFromStart
    }

    function AddObserver(o: ObserverId): (r: PlayerState)
      ensures r.observers == observers + {o}
      ensures o in observers ==> r == this
      ensures r.(observers := observers) == this
    {
      this.(observers := observers + {o})
    }

    function RemoveObserver(o: ObserverId): (r: PlayerState)
      ensures r.observers == observers - {o}
      ensures o !in observers ==> r == this
      ensures r.(observers := observers) == this
    {
      this.(observers := observers - {o})
    }

    function PlayDeathAnimation(): (r: PlayerState)
      ensures r.deathAnimation == PlayingFromStart
      ensures r.(deathAnimation := deathAnimation) == this
    {
      this.(deathAnimation := PlayingFromStart)
    }

    function SetAlive(isAlive: bool): (r: PlayerState)
      ensures r.alive == isAlive
      ensures isAlive ==> r.killer == None && r.deathAnimation == Stopped
      ensures !isAlive ==> r.killer == killer && r.deathAnimation == PlayingFromStart
      ensures r.(alive := alive, killer := killer, deathAnimation := deathAnimation) == this
    {
      var revived := if isAlive then this.(deathAnimation := Stopped, killer := None) else this;
      var shown := if !isAlive then revived.PlayDeathAnimation() else revived;
      shown.(alive := isAlive)
    }

    function SetKiller(k: Option<UnitId>): (r: PlayerState)
      ensures r.killer == k
      ensures r.(killer := killer) == this
    {
      this.(killer := k)
    }

    function AddPoints(points: int): (r: PlayerState)
      ensures r.score - score == points
      ensures r.(score := score) == this
    {
      this.(score := score + points)
    }

    /** Every registered observer receives `lifeLost` once. */
    function UpdateObservers(): (r: PlayerState)
      ensures forall o :: r.heard[o] == heard[o] + (if o in observers then 1 else 0)
      ensures r.(heard := heard) == this
    {
      this.(heard := heard + multiset(observers))
    }

    function RemoveLife(): (r: PlayerState)
      ensures r.lives == lives - 1
      ensures !r.alive && r.deathAnimation == PlayingFromStart
      ensures r.score == score && r.killer == killer && r.observers == observers
      ensures forall o :: r.heard[o] == heard[o] + (if o in observers then 1 else 0)
    {
      this.(lives := lives - 1).SetAlive(false).UpdateObservers()
    }

    /** What `getSprite` returns when the player faces `direction`; None is Java's null. */
    function CurrentVisual(sprites: map<Direction, SpriteId>, direction: Direction): (r: Option<Visual>)
      ensures r == Some(DeathAnimation) <==> !alive
      ensures alive ==> (r.Some? <==> direction in sprites)
      ensures alive && direction in sprites ==> r == Some(Still(sprites[direction]))
    {
      if alive then (if direction in sprites then Some(Still(sprites[direction])) else None)
      else Some(DeathAnimation)
    }
  }

  function Initial(): (s: PlayerState)
    ensures s.score == 0 && s.lives == 3 && s.alive && s.killer == None
    ensures s.deathAnimation == Stopped && s.observers == {} && s.heard == multiset{}
  {
    PlayerState(0, InitialLives, true, None, Stopped, {}, multiset{})
  }

  /** The public operations of a player. */
  datatype Op =
    | AddObserver(observer: ObserverId)
    | RemoveObserver(observer: ObserverId)
    | PlayDeathAnimation
    | SetAlive(isAlive: bool)
    | SetKiller(killer: Option<UnitId>)
    | RemoveLife
    | AddPoints(points: int)

  function Step(s: PlayerState, op: Op): PlayerState {
    match op
    case AddObserver(o) => s.AddObserver(o)
    case RemoveObserver(o) => s.RemoveObserver(o)
    case PlayDeathAnimation => s.PlayDeathAnimation()
    case SetAlive(b) => s.SetAlive(b)
    case SetKiller(k) => s.SetKiller(k)
    case RemoveLife => s.RemoveLife()
    case AddPoints(p) => s.AddPoints(p)
  }

  function Run(s: PlayerState, ops: seq<Op>): PlayerState
    decreases |ops|
  {
    if ops == [] then s else Run(Step(s, ops[0]), ops[1..])
  }

  /** The number of `removeLife` calls in `ops`. */
  function LivesRemoved(ops: seq<Op>): nat {
    if ops == [] then 0 else (if ops[0] == RemoveLife then 1 else 0) + LivesRemoved(ops[1..])
  }

  /** The sum of the points passed to `addPoints` in `ops`. */
  function PointsAdded(ops: seq<Op>): int {
    if ops == [] then 0 else (if ops[0].AddPoints? then ops[0].points else 0) + PointsAdded(ops[1..])
  }

  /** `n` calls of `removeLife` in a row. */
  function RemoveLives(n: nat): (ops: seq<Op>)
    ensures |ops| == n && forall i :: 0 <= i < n ==> ops[i] == RemoveLife
  {
    seq(n, _ => RemoveLife)
  }

  lemma InitialShowsNoDeathAnimation(sprites: map<Direction, SpriteId>, d: Direction)
    ensures Initial().DeadShowsDeathAnimation()
    ensures Initial().CurrentVisual(sprites, d) != Some(DeathAnimation)
  {
  }

  lemma StepKeepsDeadShowsDeathAnimation(s: PlayerState, op: Op)
    requires s.DeadShowsDeathAnimation()
    ensures Step(s, op).DeadShowsDeathAnimation()
  {
  }

  /** Whatever a caller does, a dead player's death animation is playing. */
  lemma {:induction false} RunKeepsDeadShowsDeathAnimation(s: PlayerState, ops: seq<Op>)
    requires s.DeadShowsDeathAnimation()
    ensures Run(s, ops).DeadShowsDeathAnimation()
    decreases |ops|
  {
    if ops != [] {
      StepKeepsDeadShowsDeathAnimation(s, ops[0]);
      RunKeepsDeadShowsDeathAnimation(Step(s, ops[0]), ops[1..]);
    }
  }

  /** Each `removeLife` costs exactly one life, with no floor; nothing else changes `lives`. */
  lemma {:induction false} RunLives(s: PlayerState, ops: seq<Op>)
    ensures Run(s, ops).lives == s.lives - LivesRemoved(ops)
    decreases |ops|
  {
    if ops != [] {
      RunLives(Step(s, ops[0]), ops[1..]);
    }
  }

  /** The score is the initial score plus every amount passed to `addPoints`, negative ones included. */
  lemma {:induction false} RunScore(s: PlayerState, ops: seq<Op>)
    ensures Run(s, ops).score == s.score + PointsAdded(ops)
    decreases |ops|
  {
    if ops != [] {
      RunScore(Step(s, ops[0]), ops[1..]);
    }
  }

  /** The killer stays as it is until the next `setKiller` or `setAlive(true)`. */
  lemma {:induction false} RunKeepsKiller(s: PlayerState, ops: seq<Op>)
    requires forall i :: 0 <= i < |ops| ==> !ops[i].SetKiller? && ops[i] != SetAlive(true)
    ensures Run(s, ops).killer == s.killer
    decreases |ops|
  {
    if ops != [] {
      RunKeepsKiller(Step(s, ops[0]), ops[1..]);
    }
  }

  lemma SetKillerThenGetKiller(s: PlayerState, k: Option<UnitId>, ops: seq<Op>)
    requires forall i :: 0 <= i < |ops| ==> !ops[i].SetKiller? && ops[i] != SetAlive(true)
    ensures Run(s.SetKiller(k), ops).killer == k
  {
    RunKeepsKiller(s.SetKiller(k), ops);
  }

  /**
   * An observer whose registration the operations leave alone receives one
   * `lifeLost` per `removeLife` if it is registered, and none otherwise.
   */
  lemma {:induction false} RunHeard(s: PlayerState, ops: seq<Op>, o: ObserverId)
    requires forall i :: 0 <= i < |ops| ==> ops[i] != AddObserver(o) && ops[i] != RemoveObserver(o)
    ensures (o in Run(s, ops).observers) == (o in s.observers)
    ensures Run(s, ops).heard[o] == s.heard[o] + (if o in s.observers then LivesRemoved(ops) else 0)
    decreases |ops|
  {
    if ops != [] {
      RunHeard(Step(s, ops[0]), ops[1..], o);
    }
  }

  lemma {:induction false} LivesRemovedByRemoveLives(n: nat)
    ensures LivesRemoved(RemoveLives(n)) == n
  {
    if n > 0 {
      assert RemoveLives(n)[1..] == RemoveLives(n - 1);
      LivesRemovedByRemoveLives(n - 1);
    }
  }

  /** After `n` lost lives a new player has `3 - n` lives, which goes below zero from the fourth. */
  lemma RemoveLivesFromInitial(n: nat)
    ensures Run(Initial(), RemoveLives(n)).lives == 3 - n
    ensures n > 3 ==> Run(Initial(), RemoveLives(n)).lives < 0
  {
    RunLives(Initial(), RemoveLives(n));
    LivesRemovedByRemoveLives(n);
  }

  /** A player that has lost a life is dead, until something calls `setAlive(true)`. */
  lemma {:induction false} RemoveLivesLeavesDead(s: PlayerState, n: nat, sprites: map<Direction, SpriteId>, d: Direction)
    requires n > 0
    ensures !Run(s, RemoveLives(n)).alive
    ensures Run(s, RemoveLives(n)).CurrentVisual(sprites, d) == Some(DeathAnimation)
    decreases n
  {
    if n > 1 {
      assert RemoveLives(n)[1..] == RemoveLives(n - 1);
      RemoveLivesLeavesDead(Step(s, RemoveLife), n - 1, sprites, d);
    }
  }

  /** Three lost lives: no lives left, dead, and a registered observer heard `lifeLost` three times. */
  lemma ThreeLivesLost(o: ObserverId)
    ensures var s := Run(Initial().AddObserver(o), RemoveLives(3));
      s.lives == 0 && !s.alive && s.heard[o] == 3
  {
  }

  /** Removing an observer that was never added changes nothing that a later `removeLife` delivers. */
  lemma RemovingAbsentObserver(s: PlayerState, o: ObserverId)
    requires o !in s.observers
    ensures s.RemoveObserver(o).RemoveLife() == s.RemoveLife()
  {
  }

  lemma AddPointsTwice(s: PlayerState, p: int, q: int)
    ensures s.AddPoints(p).AddPoints(q) == s.AddPoints(p + q)
    ensures s.AddPoints(p).AddPoints(q).score == s.score + p + q
  {
  }

  /** `setAlive(true)` after a death: no killer and a stopped death animation, whatever came before. */
  lemma ReviveClearsDeath(s: PlayerState, k: Option<UnitId>)
    ensures var r := s.SetKiller(k).RemoveLife().SetAlive(true);
      r.alive && r.killer == None && r.deathAnimation == Stopped
  {
  }

  /**
   * Neither "alive implies no killer" nor "alive implies a stopped death
   * animation" is kept by the operations: `setKiller` and
   * `playDeathAnimation` do not look at `alive`.
   */
  lemma AliveWithKillerOrAnimation()
    ensures Run(Initial(), [SetKiller(Some(0))]).alive
    ensures Run(Initial(), [SetKiller(Some(0))]).killer == Some(0)
    ensures Run(Initial(), [PlayDeathAnimation]).alive
    ensures Run(Initial(), [PlayDeathAnimation]).deathAnimation == PlayingFromStart
  {
  }
}
