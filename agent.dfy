/**
 * The DQN agent: a policy network and a target network, the exploration
 * rate epsilon and the replay memory. The networks themselves are abstract:
 * each is represented by the function it computes from an observation to
 * one Q-value per action, and an optimizer step is represented by the
 * function the policy computes afterwards.
 */
module Agent {
  import opened GameTypes
  import opened Learning
  import opened Replay

  /** What a network computes: one Q-value per action for each observation. */
  type QFunction = Observation -> seq<real>

  /** The network's output layer has `n` units. */
  ghost predicate Shaped(f: QFunction, n: nat)
  {
    forall s :: |f(s)| == n
  }

  /** A persisted checkpoint that loaded successfully. */
  datatype Checkpoint = Checkpoint(policy: QFunction, target: QFunction, epsilon: real)

  /** The regression targets of a batch, evaluated with the target network `target`. */
  function BellmanTargets(batch: seq<Transition>, target: QFunction, n: nat): (ys: seq<real>)
    requires n > 0 && Shaped(target, n)
    ensures |ys| == |batch|
    ensures forall k :: 0 <= k < |batch| && batch[k].done ==> ys[k] == batch[k].reward
    ensures forall k :: 0 <= k < |batch| ==> ys[k] == BellmanTarget(batch[k].reward, batch[k].done, target(batch[k].nextState))
  {
    if |batch| == 0 then []
    else
      var t := batch[|batch| - 1];
      assert |target(t.nextState)| == n;
      BellmanCases(t.reward, t.done, target(t.nextState));
      BellmanTargets(batch[..|batch| - 1], target, n) + [BellmanTarget(t.reward, t.done, target(t.nextState))]
  }

  class DQNAgent {
    const stateSize: nat
    const actionSize: nat
    const playerNumber: int
    const memory: ReplayBuffer
    var epsilon: real
    var policy: QFunction
    var target: QFunction

    ghost predicate Valid()
      reads this, memory, memory.data
    {
      && memory.Valid()
      && memory.capacity == MemoryCapacity
      && actionSize > 0
      && Shaped(policy, actionSize)
      && Shaped(target, actionSize)
    }

    /**
     * Fresh agent: epsilon 1.0, an empty memory of capacity 10000, and the
     * target network loaded from the freshly initialised policy network.
     */
    constructor (stateSize: nat, actionSize: nat, playerNumber: int, initial: QFunction)
      requires actionSize > 0 && Shaped(initial, actionSize)
      ensures Valid() && fresh(memory) && fresh(memory.data)
      ensures this.stateSize == stateSize && this.actionSize == actionSize && this.playerNumber == playerNumber
      ensures epsilon == EpsilonStart && memory.Contents == []
      ensures policy == initial && target == policy
    {
      this.stateSize := stateSize;
      this.actionSize := actionSize;
      this.playerNumber := playerNumber;
      epsilon := EpsilonStart;
      memory := new ReplayBuffer(MemoryCapacity);
      policy := initial;
      target := initial;
    }

    /**
     * Epsilon-greedy choice. `roll` is the draw of `random.random()`: below
     * epsilon some action in range is chosen at random, otherwise the
     * greedy action of the policy network. Either way the index is in range.
     */
    method SelectAction(state: Observation, roll: real) returns (action: int)
      requires Valid()
      ensures 0 <= action < actionSize
      ensures roll >= epsilon ==> forall a :: 0 <= a < actionSize ==> policy(state)[a] <= policy(state)[action]
    {
      if roll < epsilon {
        action :| 0 <= action < actionSize;
        return;
      }
      var q := policy(state);
      assert |q| == actionSize;
      action := ArgMax(q);
    }

    /**
     * One training call. Below 64 stored transitions nothing happens and
     * nothing is returned. Otherwise 64 transitions are sampled from 64
     * distinct positions of the memory (`positions`), their
     * Bellman targets computed with the target network, the policy network
     * replaced by the optimizer's result `stepped`, and epsilon decayed once.
     * The batch targets stand in for the returned loss value.
     */
    method Train(stepped: QFunction) returns (targets: Option<seq<real>>, ghost batch: seq<Transition>, ghost positions: seq<nat>)
      requires Valid() && Shaped(stepped, actionSize)
      modifies this
      ensures Valid()
      ensures target == old(target)
      ensures old(memory.Length()) < BatchSize ==> targets == None && epsilon == old(epsilon) && policy == old(policy)
      ensures old(memory.Length()) >= BatchSize ==>
        && targets.Some? && |batch| == BatchSize && |positions| == BatchSize
        && (forall k :: 0 <= k < BatchSize ==> positions[k] < |memory.Contents| && batch[k] == memory.Contents[positions[k]])
        && (forall j, k :: 0 <= j < k < BatchSize ==> positions[j] != positions[k])
        && targets.value == BellmanTargets(batch, target, actionSize)
        && epsilon == Decay(old(epsilon)) && policy == stepped
    {
      batch, positions := [], [];
      if memory.Length() < BatchSize {
        targets := None;
        return;
      }
      var sampled;
      sampled, positions := memory.Sample(BatchSize);
      batch := sampled;
      targets := Some(BellmanTargets(sampled, target, actionSize));
      policy := stepped;
      epsilon := Decay(epsilon);
    }

    /** `update_target_network`: the target network becomes a copy of the policy network. */
    method UpdateTargetNetwork()
      requires Valid()
      modifies this
      ensures Valid()
      ensures target == policy && policy == old(policy) && epsilon == old(epsilon)
    {
      target := policy;
    }

    /** `load_model` from a checkpoint that loaded: both networks and epsilon are restored. */
    method LoadModel(checkpoint: Checkpoint)
      requires Valid()
      requires Shaped(checkpoint.policy, actionSize) && Shaped(checkpoint.target, actionSize)
      modifies this
      ensures Valid()
      ensures policy == checkpoint.policy && target == checkpoint.target && epsilon == checkpoint.epsilon
    {
      policy := checkpoint.policy;
      target := checkpoint.target;
      epsilon := checkpoint.epsilon;
    }
  }
}
