/**
 * The pure arithmetic of the DQN agent: the 17-slot observation built from
 * a snapshot and a perspective, the shaping reward between two snapshots,
 * greedy action choice over Q-values, the Bellman regression target, and
 * the epsilon schedule. Reals are exact; float32 rounding is not modelled.
 */
module Learning {
  import opened GameTypes

  const StateSize: nat := 17
  const Gamma: real := 0.99
  const EpsilonStart: real := 1.0
  const EpsilonMin: real := 0.01
  const EpsilonDecay: real := 0.995
  const BatchSize: nat := 64
  const MemoryCapacity: nat := 10000

  /** A Python bool converted to a float feature. */
  function Flag(b: bool): real
  {
    if b then 1.0 else 0.0
  }

  function Abs(n: int): nat
  {
    if n < 0 then -n else n
  }

  /** The seven per-fighter features, in the order the network consumes them. */
  function Features(p: PlayerState): (f: seq<real>)
    ensures |f| == 7
  {
    [p.xCoord as real, p.yCoord as real, p.health as real,
     Flag(p.isJumping), Flag(p.isCrouching), Flag(p.isPlayerInMove), p.moveId as real]
  }

  /** (self, opponent) as seen by `playerNumber`: player 1 sees player 1 as self, anyone else player 2. */
  function Perspective(playerNumber: int, g: GameState): (PlayerState, PlayerState)
  {
    if playerNumber == 1 then (g.player1, g.player2) else (g.player2, g.player1)
  }

  /**
   * `get_state`: self's seven features, the opponent's seven, then timer,
   * round-started and round-over.
   */
  function GetState(playerNumber: int, g: GameState): (s: Observation)
    ensures |s| == StateSize
    ensures s[14] == g.timer as real && s[15] == Flag(g.hasRoundStarted) && s[16] == Flag(g.isRoundOver)
    ensures playerNumber == 1 ==> s[..7] == Features(g.player1) && s[7..14] == Features(g.player2)
    ensures playerNumber != 1 ==> s[..7] == Features(g.player2) && s[7..14] == Features(g.player1)
  {
    var (me, opponent) := Perspective(playerNumber, g);
    Features(me) + Features(opponent) + [g.timer as real, Flag(g.hasRoundStarted), Flag(g.isRoundOver)]
  }

  /**
   * Swapping the perspective swaps the self and opponent blocks and leaves
   * the three round slots alone.
   */
  lemma PerspectiveSwap(g: GameState, other: int)
    requires other != 1
    ensures GetState(1, g)[..7] == GetState(other, g)[7..14]
    ensures GetState(1, g)[7..14] == GetState(other, g)[..7]
    ensures GetState(1, g)[14..] == GetState(other, g)[14..]
  {
  }

  /** `health_diff`: the opponent's health change minus one's own. */
  function HealthDiff(playerNumber: int, g: GameState, next: GameState): int
  {
    var (me, opponent) := Perspective(playerNumber, g);
    var (nextMe, nextOpponent) := Perspective(playerNumber, next);
    (nextOpponent.health - opponent.health) - (nextMe.health - me.health)
  }

  /** `dist_diff`: how much the horizontal gap between the fighters shrank. */
  function DistDiff(playerNumber: int, g: GameState, next: GameState): int
  {
    var (me, opponent) := Perspective(playerNumber, g);
    var (nextMe, nextOpponent) := Perspective(playerNumber, next);
    Abs(me.xCoord - opponent.xCoord) - Abs(nextMe.xCoord - nextOpponent.xCoord)
  }

  /** `get_reward`: ten per unit of health difference plus a tenth per unit of distance closed. */
  function GetReward(playerNumber: int, g: GameState, next: GameState): real
  {
    HealthDiff(playerNumber, g, next) as real * 10.0 + DistDiff(playerNumber, g, next) as real * 0.1
  }

  /** Two identical snapshots give no reward. */
  lemma RewardOfNoChange(playerNumber: int, g: GameState)
    ensures GetReward(playerNumber, g, g) == 0.0
  {
  }

  /**
   * As written, losing ten health of one's own with nothing else changing
   * is rewarded with +100: the sign of the health term favours own damage.
   */
  lemma RewardForOwnDamage(playerNumber: int, g: GameState, next: GameState)
    requires Perspective(playerNumber, next).0 == Perspective(playerNumber, g).0.(health := Perspective(playerNumber, g).0.health - 10)
    requires Perspective(playerNumber, next).1 == Perspective(playerNumber, g).1
    ensures GetReward(playerNumber, g, next) == 100.0
  {
  }

  /**
   * The two perspectives on the same pair of snapshots see opposite health
   * terms and the same distance term, so their rewards add up to twice the
   * distance term alone.
   */
  lemma RewardPerspectives(g: GameState, next: GameState, other: int)
    requires other != 1
    ensures HealthDiff(1, g, next) == -HealthDiff(other, g, next)
    ensures DistDiff(1, g, next) == DistDiff(other, g, next)
    ensures GetReward(1, g, next) + GetReward(other, g, next) == DistDiff(1, g, next) as real * 0.2
  {
  }

  /** `max` over a non-empty vector of Q-values. */
  function MaxOf(q: seq<real>): (m: real)
    requires |q| > 0
    ensures exists k :: 0 <= k < |q| && q[k] == m
    ensures forall k :: 0 <= k < |q| ==> q[k] <= m
  {
    if |q| == 1 then q[0]
    else
      var m' := MaxOf(q[..|q| - 1]);
      if q[|q| - 1] > m' then q[|q| - 1] else m'
  }

  /** `argmax` over a non-empty vector: the first index holding the maximum. */
  function ArgMax(q: seq<real>): (a: nat)
    requires |q| > 0
    ensures a < |q|
    ensures forall k :: 0 <= k < |q| ==> q[k] <= q[a]
    ensures forall k :: 0 <= k < a ==> q[k] < q[a]
  {
    if |q| == 1 then 0
    else
      var a' := ArgMax(q[..|q| - 1]);
      if q[|q| - 1] > q[a'] then |q| - 1 else a'
  }

  /** The greedy action's value is the maximal Q-value. */
  lemma ArgMaxAttainsMax(q: seq<real>)
    requires |q| > 0
    ensures q[ArgMax(q)] == MaxOf(q)
  {
    var a := ArgMax(q);
    var k :| 0 <= k < |q| && q[k] == MaxOf(q);
    assert q[k] <= q[a];
  }

  /** `rewards + (1 - dones) * gamma * max(target(next_states))` for one transition. */
  function BellmanTarget(reward: real, done: bool, nextQ: seq<real>): real
    requires |nextQ| > 0
  {
    reward + (1.0 - Flag(done)) * Gamma * MaxOf(nextQ)
  }

  /**
   * A terminal transition's target is its reward; any other transition's is
   * the reward plus the discounted best next value, which bounds the
   * discounted value of every next action.
   */
  lemma BellmanCases(reward: real, done: bool, nextQ: seq<real>)
    requires |nextQ| > 0
    ensures done ==> BellmanTarget(reward, done, nextQ) == reward
    ensures !done ==> BellmanTarget(reward, done, nextQ) == reward + Gamma * nextQ[ArgMax(nextQ)]
    ensures !done ==> forall a :: 0 <= a < |nextQ| ==> reward + Gamma * nextQ[a] <= BellmanTarget(reward, done, nextQ)
  {
    ArgMaxAttainsMax(nextQ);
  }

  /** `max(epsilon_min, epsilon * epsilon_decay)`. */
  function Decay(epsilon: real): (e: real)
    ensures e >= EpsilonMin
    ensures e == EpsilonMin || e == epsilon * EpsilonDecay
    ensures epsilon >= EpsilonMin ==> e <= epsilon
  {
    if EpsilonMin > epsilon * EpsilonDecay then EpsilonMin else epsilon * EpsilonDecay
  }

  /** Epsilon after `n` successful training steps starting from `epsilon`. */
  function EpsilonAfter(epsilon: real, n: nat): real
  {
    if n == 0 then epsilon else Decay(EpsilonAfter(epsilon, n - 1))
  }

  function Pow(b: real, n: nat): real
  {
    if n == 0 then 1.0 else b * Pow(b, n - 1)
  }

  function Max(a: real, b: real): real
  {
    if a >= b then a else b
  }

  lemma {:induction false} PowDecayPositive(n: nat)
    ensures 0.0 < Pow(EpsilonDecay, n) <= 1.0
  {
    if n > 0 {
      PowDecayPositive(n - 1);
    }
  }

  /** From the initial 1.0, epsilon after `n` steps is max(0.01, 0.995^n). */
  lemma {:induction false} EpsilonSchedule(n: nat)
    ensures EpsilonAfter(EpsilonStart, n) == Max(EpsilonMin, Pow(EpsilonDecay, n))
  {
    if n > 0 {
      EpsilonSchedule(n - 1);
      PowDecayPositive(n - 1);
      var p := Pow(EpsilonDecay, n - 1);
      assert Pow(EpsilonDecay, n) == EpsilonDecay * p;
      if p < EpsilonMin {
        assert EpsilonDecay * p < EpsilonMin;
      }
    }
  }

  /** Once at or above the floor, epsilon never rises again and never drops below it. */
  lemma {:induction false} EpsilonNonIncreasing(epsilon: real, m: nat, n: nat)
    requires epsilon >= EpsilonMin
    requires m <= n
    ensures EpsilonMin <= EpsilonAfter(epsilon, n) <= EpsilonAfter(epsilon, m) <= epsilon
  {
    if n > 0 {
      if m == n {
        EpsilonNonIncreasing(epsilon, m - 1, n - 1);
      } else {
        EpsilonNonIncreasing(epsilon, m, n - 1);
      }
    }
  }
}
