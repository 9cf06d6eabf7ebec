/**
 * The jpacman `Player` as an object whose methods update its fields in place.
 * Each state-changing operation of `Player` is specified by the PlayerLife
 * member function of the same name: `State()` is the abstract value of the
 * fields, and the operation's postcondition says that the new abstract value is
 * that function applied to the old one. `CallLifeLost`, the loop behind
 * `UpdateObservers`, is specified by the log entries it appends.
 * Calls of `lifeLost` are recorded, with what the called observer would read
 * from the player at that moment, in the field `lifeLostCalls`.
 */
module Level {
  import opened Wrappers
  import opened PlayerLife

  /** One call of `lifeLost`: its receiver and the player's lives and alive flag at that moment. */
  datatype Delivery = Delivery(observer: ObserverId, livesSeen: int, aliveSeen: bool)

  /** The receivers of the calls in `log`, in call order. */
  function Recipients(log: seq<Delivery>): (r: seq<ObserverId>)
    ensures |r| == |log| && forall i :: 0 <= i < |log| ==> r[i] == log[i].observer
  {
    seq(|log|, i requires 0 <= i < |log| => log[i].observer)
  }

  lemma RecipientsAppend(log: seq<Delivery>, d: Delivery)
    ensures Recipients(log + [d]) == Recipients(log) + [d.observer]
  {
  }

  /** Moving `o` from `pending` to `done` keeps them a partition and adds one call to `done`. */
  lemma MoveToDone(done: set<ObserverId>, pending: set<ObserverId>, o: ObserverId)
    requires o in pending && done !! pending
    ensures done + {o} !! pending - {o} && (done + {o}) + (pending - {o}) == done + pending
    ensures |done + {o}| == |done| + 1
    ensures multiset(done + {o}) == multiset(done) + multiset{o}
  {
  }

  /** Appending a call keeps earlier calls and adds its receiver once. */
  lemma AppendCall(before: seq<Delivery>, log: seq<Delivery>, d: Delivery)
    requires |before| <= |log| && log[..|before|] == before
    ensures (log + [d])[..|before|] == before
    ensures multiset(Recipients(log + [d])) == multiset(Recipients(log)) + multiset{d.observer}
  {
    RecipientsAppend(log, d);
    assert (log + [d])[..|before|] == log[..|before|];
  }

  class Player {
    var score: int
    var lives: int
    var observers: set<ObserverId>
    /** The sprite for every direction, fixed at construction. */
    const sprites: map<Direction, SpriteId>
    /** The state of the death animation sprite. */
    var deathAnimation: Animation
    var alive: bool
    var killer: Option<UnitId>
    /** Every `lifeLost` call made so far, oldest first. */
    var lifeLostCalls: seq<Delivery>

    function State(): PlayerState
      reads this
    {
      PlayerState(score, lives, alive, killer, deathAnimation, observers, multiset(Recipients(lifeLostCalls)))
    }

    constructor (spriteMap: map<Direction, SpriteId>)
      ensures State() == Initial()
      ensures sprites == spriteMap && lifeLostCalls == []
    {
      score := 0;
      lives := InitialLives;
      alive := true;
      sprites := spriteMap;
      deathAnimation := Stopped;
      observers := {};
      killer := None;
      lifeLostCalls := [];
    }

    method AddObserver(o: ObserverId)
      modifies this`observers
      ensures State() == old(State()).AddObserver(o)
    {
      observers := observers + {o};
    }

    method RemoveObserver(o: ObserverId)
      modifies this`observers
      ensures State() == old(State()).RemoveObserver(o)
    {
      observers := observers - {o};
    }

    function IsAlive(): (r: bool)
      reads this
      ensures r == State().alive
    {
      alive
    }

    method PlayDeathAnimation()
      modifies this`deathAnimation
      ensures State() == old(State()).PlayDeathAnimation()
    {
      deathAnimation := PlayingFromStart;
    }

    method SetAlive(isAlive: bool)
      modifies this`deathAnimation, this`killer, this`alive
      ensures State() == old(State()).SetAlive(isAlive)
    {
      if isAlive {
        deathAnimation := Stopped;
        killer := None;
      }
      if !isAlive {
        PlayDeathAnimation();
      }
      alive := isAlive;
    }

    function GetKiller(): (r: Option<UnitId>)
      reads this
      ensures r == State().killer
    {
      killer
    }

    method SetKiller(k: Option<UnitId>)
      modifies this`killer
      ensures State() == old(State()).SetKiller(k)
    {
      killer := k;
    }

    /**
     * Loses a life, dies, then calls `lifeLost` on every registered observer;
     * each of those calls already sees the decremented lives and `alive == false`.
     */
    method RemoveLife()
      modifies this`lives, this`deathAnimation, this`killer, this`alive, this`lifeLostCalls
      ensures State() == old(State()).RemoveLife()
      ensures |lifeLostCalls| == |old(lifeLostCalls)| + |observers|
      ensures lifeLostCalls[..|old(lifeLostCalls)|] == old(lifeLostCalls)
      ensures forall i :: |old(lifeLostCalls)| <= i < |lifeLostCalls| ==>
        lifeLostCalls[i].livesSeen == old(lives) - 1 && !lifeLostCalls[i].aliveSeen
    {
      lives := lives - 1;
      SetAlive(false);
      UpdateObservers();
    }

    function GetLives(): (r: int)
      reads this
      ensures r == State().lives
    {
      lives
    }

    function GetScore(): (r: int)
      reads this
      ensures r == State().score
    {
      score
    }

    /** The current sprite; the facing direction belongs to the unit and is passed in. */
    function GetSprite(direction: Direction): (r: Option<Visual>)
      reads this
      ensures r == State().CurrentVisual(sprites, direction)
    {
      if IsAlive() then (if direction in sprites then Some(Still(sprites[direction])) else None)
      else Some(DeathAnimation)
    }

    method AddPoints(points: int)
      modifies this`score
      ensures State() == old(State()).AddPoints(points)
    {
      score := score + points;
    }

    /** Calls `lifeLost` once on every registered observer, in no particular order. */
    method UpdateObservers()
      modifies this`lifeLostCalls
      ensures State() == old(State()).UpdateObservers()
      ensures |lifeLostCalls| == |old(lifeLostCalls)| + |observers|
      ensures lifeLostCalls[..|old(lifeLostCalls)|] == old(lifeLostCalls)
      ensures forall i :: |old(lifeLostCalls)| <= i < |lifeLostCalls| ==>
        lifeLostCalls[i].livesSeen == lives && lifeLostCalls[i].aliveSeen == alive
    {
      CallLifeLost(observers);
    }

    /** The loop of `updateObservers`: one `lifeLost` call for each of `targets`. */
    method CallLifeLost(targets: set<ObserverId>)
      modifies this`lifeLostCalls
      ensures multiset(Recipients(lifeLostCalls)) == multiset(Recipients(old(lifeLostCalls))) + multiset(targets)
      ensures |lifeLostCalls| == |old(lifeLostCalls)| + |targets|
      ensures lifeLostCalls[..|old(lifeLostCalls)|] == old(lifeLostCalls)
      ensures forall i :: |old(lifeLostCalls)| <= i < |lifeLostCalls| ==>
        lifeLostCalls[i].livesSeen == lives && lifeLostCalls[i].aliveSeen == alive
    {
      ghost var before := lifeLostCalls;
      var pending, done := targets, {};
      while pending != {}
        invariant done !! pending && done + pending == targets
        invariant |lifeLostCalls| == |before| + |done|
        invariant lifeLostCalls[..|before|] == before
        invariant multiset(Recipients(lifeLostCalls)) == multiset(Recipients(before)) + multiset(done)
        invariant forall i :: |before| <= i < |lifeLostCalls| ==>
          lifeLostCalls[i].livesSeen == lives && lifeLostCalls[i].aliveSeen == alive
        decreases pending
      {
        var o :| o in pending;
        MoveToDone(done, pending, o);
        AppendCall(before, lifeLostCalls, Delivery(o, lives, alive));
        lifeLostCalls := lifeLostCalls + [Delivery(o, lives, alive)];
        pending, done := pending - {o}, done + {o};
      }
      assert done == targets;
    }
  }

  /** A new player with observer `o` that loses three lives: no lives left, dead, `o` called three times. */
  method LoseThreeLives(o: ObserverId) returns (lives: int, alive: bool, calls: nat)
    ensures lives == 0 && !alive && calls == 3
  {
    var p := new Player(map[]);
    p.AddObserver(o);
    p.RemoveLife();
    p.RemoveLife();
    p.RemoveLife();
    lives := p.GetLives();
    alive := p.IsAlive();
    calls := multiset(Recipients(p.lifeLostCalls))[o];
  }
}
