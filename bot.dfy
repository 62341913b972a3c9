/**
 * The bot: a heuristic mode controller (defensive / aggressive / neutral
 * from the health ratio, with a special-move cooldown), a distance-threshold
 * tactic chooser, the input sequencer that plays special-move macros one
 * token per call through a single shared cursor, and the per-frame
 * orchestration that feeds the DQN agent.
 */
module BotModel {
  import opened GameTypes
  import opened Text
  import opened Learning
  import opened Replay
  import opened Agent
  import opened Macros

  const ActionCount: nat := 12
  const CooldownTicks: int := 30
  const DefensiveRatio: real := 0.5
  const AggressiveRatio: real := 1.5
  const TargetSyncPeriod: nat := 1000
  const SavePeriod: nat := 10000

  /** The ten attribute names the button record has, directions first. */
  const ButtonNames: seq<string> := ["up", "down", "left", "right", "Y", "B", "A", "X", "L", "R"]
  const ActionLetters: seq<string> := ["Y", "B", "A", "X", "L", "R"]

  /** The button combination of each action index, as the dict's (name, value) entries in order. */
  const ButtonCombinations: seq<seq<(string, bool)>> := [
    [("up", true)], [("down", true)], [("left", true)], [("right", true)],
    [("Y", true)], [("B", true)], [("A", true)], [("X", true)], [("L", true)], [("R", true)],
    [("up", true), ("Y", true)], [("down", true), ("B", true)]]

  /**
   * `action_to_buttons`: the combination at index `action`, with Python's
   * negative indexing. Every combination presses one or two of the ten
   * buttons and releases none.
   */
  function ActionToButtons(action: int): (combo: seq<(string, bool)>)
    requires -(ActionCount as int) <= action < ActionCount
    ensures 1 <= |combo| <= 2
    ensures forall k :: 0 <= k < |combo| ==> combo[k].1 && combo[k].0 in ButtonNames
  {
    ButtonCombinations[if action < 0 then action + ActionCount else action]
  }

  /** `setattr(buttons, name, value)` on the record; a name the record lacks is not read by anyone. */
  function SetButton(b: Buttons, name: string, value: bool): Buttons
  {
    match name
    case "up" => b.(up := value)
    case "down" => b.(down := value)
    case "left" => b.(left := value)
    case "right" => b.(right := value)
    case "Y" => b.(Y := value)
    case "B" => b.(B := value)
    case "A" => b.(A := value)
    case "X" => b.(X := value)
    case "L" => b.(L := value)
    case "R" => b.(R := value)
    case _ => b
  }

  /** The attribute `fight` sets for a dict key: action letters keep their case, others are lower-cased. */
  function AttributeName(key: string): string
  {
    if key in ActionLetters then key else Lower(key)
  }

  /** The dict entries set on `b` in order. */
  function ApplyEntries(b: Buttons, entries: seq<(string, bool)>): Buttons
  {
    if |entries| == 0 then b
    else
      var (key, value) := entries[|entries| - 1];
      SetButton(ApplyEntries(b, entries[..|entries| - 1]), AttributeName(key), value)
  }

  /** `getattr(b, name)` for the ten attribute names; any other name reads as unpressed. */
  function FlagOf(b: Buttons, name: string): bool
  {
    match name
    case "up" => b.up
    case "down" => b.down
    case "left" => b.left
    case "right" => b.right
    case "Y" => b.Y
    case "B" => b.B
    case "A" => b.A
    case "X" => b.X
    case "L" => b.L
    case "R" => b.R
    case _ => false
  }

  /** The names of the flags that are set. */
  function Pressed(b: Buttons): set<string>
  {
    set name | name in ButtonNames && FlagOf(b, name)
  }

  /** The keys of a list of dict entries, as a set. */
  function EntryKeys(entries: seq<(string, bool)>): set<string>
  {
    if |entries| == 0 then {} else EntryKeys(entries[..|entries| - 1]) + {entries[|entries| - 1].0}
  }

  /** The ten attribute names are their own attribute names: lower-casing leaves the directions alone. */
  lemma AttributeNameOfButton(name: string)
    requires name in ButtonNames
    ensures AttributeName(name) == name
  {
    if name !in ActionLetters {
      assert name == "up" || name == "down" || name == "left" || name == "right";
      LowerOfLowercase(name);
    }
  }

  /** Pressing one of the ten buttons adds exactly that name to the pressed set. */
  lemma PressOne(b: Buttons, name: string)
    requires name in ButtonNames
    ensures Pressed(SetButton(b, name, true)) == Pressed(b) + {name}
  {
    forall other
      ensures other in Pressed(SetButton(b, name, true)) <==> other in Pressed(b) + {name}
    {
      SetThenFlag(b, name, other);
    }
  }

  /** After pressing one of the ten buttons, that flag reads as set and every other flag as before. */
  lemma SetThenFlag(b: Buttons, name: string, other: string)
    requires name in ButtonNames
    ensures FlagOf(SetButton(b, name, true), other) == (other == name || FlagOf(b, other))
  {
    if name == "up" {
      assert SetButton(b, name, true) == b.(up := true);
      FlagAfterUp(b, other);
    } else if name == "down" {
      assert SetButton(b, name, true) == b.(down := true);
      FlagAfterDown(b, other);
    } else if name == "left" {
      assert SetButton(b, name, true) == b.(left := true);
      FlagAfterLeft(b, other);
    } else if name == "right" {
      assert SetButton(b, name, true) == b.(right := true);
      FlagAfterRight(b, other);
    } else if name == "Y" {
      assert SetButton(b, name, true) == b.(Y := true);
      FlagAfterY(b, other);
    } else if name == "B" {
      assert SetButton(b, name, true) == b.(B := true);
      FlagAfterB(b, other);
    } else if name == "A" {
      assert SetButton(b, name, true) == b.(A := true);
      FlagAfterA(b, other);
    } else if name == "X" {
      assert SetButton(b, name, true) == b.(X := true);
      FlagAfterX(b, other);
    } else if name == "L" {
      assert SetButton(b, name, true) == b.(L := true);
      FlagAfterL(b, other);
    } else {
      assert name == "R";
      assert SetButton(b, name, true) == b.(R := true);
      FlagAfterR(b, other);
    }
  }

  // One lemma per flag: reading every flag after all ten updates in one proof is too costly for the solver.
  lemma FlagAfterUp(b: Buttons, other: string)
    ensures FlagOf(b.(up := true), other) == (other == "up" || FlagOf(b, other))
  {
  }

  lemma FlagAfterDown(b: Buttons, other: string)
    ensures FlagOf(b.(down := true), other) == (other == "down" || FlagOf(b, other))
  {
  }

  lemma FlagAfterLeft(b: Buttons, other: string)
    ensures FlagOf(b.(left := true), other) == (other == "left" || FlagOf(b, other))
  {
  }

  lemma FlagAfterRight(b: Buttons, other: string)
    ensures FlagOf(b.(right := true), other) == (other == "right" || FlagOf(b, other))
  {
  }

  lemma FlagAfterY(b: Buttons, other: string)
    ensures FlagOf(b.(Y := true), other) == (other == "Y" || FlagOf(b, other))
  {
  }

  lemma FlagAfterB(b: Buttons, other: string)
    ensures FlagOf(b.(B := true), other) == (other == "B" || FlagOf(b, other))
  {
  }

  lemma FlagAfterA(b: Buttons, other: string)
    ensures FlagOf(b.(A := true), other) == (other == "A" || FlagOf(b, other))
  {
  }

  lemma FlagAfterX(b: Buttons, other: string)
    ensures FlagOf(b.(X := true), other) == (other == "X" || FlagOf(b, other))
  {
  }

  lemma FlagAfterL(b: Buttons, other: string)
    ensures FlagOf(b.(L := true), other) == (other == "L" || FlagOf(b, other))
  {
  }

  lemma FlagAfterR(b: Buttons, other: string)
    ensures FlagOf(b.(R := true), other) == (other == "R" || FlagOf(b, other))
  {
  }

  /**
   * Entries that each press one of the ten buttons, applied to a released
   * record, press exactly their keys: the upper-case action letters reach
   * the upper-case fields and nothing else is set.
   */
  lemma {:induction false} EntriesPressTheirKeys(entries: seq<(string, bool)>)
    requires forall k :: 0 <= k < |entries| ==> entries[k].1 && entries[k].0 in ButtonNames
    ensures Pressed(ApplyEntries(Released, entries)) == EntryKeys(entries)
  {
    if |entries| > 0 {
      var last := entries[|entries| - 1];
      EntriesPressTheirKeys(entries[..|entries| - 1]);
      AttributeNameOfButton(last.0);
      PressOne(ApplyEntries(Released, entries[..|entries| - 1]), last.0);
    }
  }

  /** The record `fight` builds for an action presses exactly the buttons of that action's combination. */
  lemma ComboPressesItsButtons(action: int)
    requires -(ActionCount as int) <= action < ActionCount
    ensures Pressed(ApplyEntries(Released, ActionToButtons(action))) == EntryKeys(ActionToButtons(action))
  {
    EntriesPressTheirKeys(ActionToButtons(action));
  }

  /**
   * `choose_action`'s thresholds as a table over the horizontal distance:
   * defensive mode takes precedence, then aggressive mode, then neutral.
   */
  function ChooseTactic(defensive: bool, aggressive: bool, me: PlayerState, opponent: PlayerState): (tactic: string)
    ensures tactic in {"block", "move_away", "fireball", "move_close", "dragon_punch", "combo"}
    ensures var d := Abs(opponent.xCoord - me.xCoord);
      && (tactic == "block" <==> defensive && d < 50)
      && (tactic == "move_away" <==> defensive && 50 <= d < 100)
      && (tactic == "fireball" <==> (defensive && d >= 100) || (!defensive && !aggressive && d > 100))
      && (tactic == "dragon_punch" <==> !defensive && aggressive && 50 < d <= 100)
      && (tactic == "move_close" <==> !defensive && ((aggressive && d > 100) || (!aggressive && 50 < d <= 100)))
      && (tactic == "combo" <==> !defensive && d <= 50)
  {
    var distance := Abs(opponent.xCoord - me.xCoord);
    if defensive then
      if distance < 50 then "block" else if distance < 100 then "move_away" else "fireball"
    else if aggressive then
      if distance > 100 then "move_close" else if distance > 50 then "dragon_punch" else "combo"
    else
      if distance > 100 then "fireball" else if distance > 50 then "move_close" else "combo"
  }

  /** The macro `execute_special_move` plays for a move type; an unknown type plays nothing. */
  function SpecialMoveMacro(moveType: string): (macro: seq<string>)
    ensures macro == [] <==> moveType !in {"fireball", "dragon_punch", "spinning_kick"}
  {
    if moveType == "fireball" then Fireball
    else if moveType == "dragon_punch" then DragonPunch
    else if moveType == "spinning_kick" then SpinningKick
    else []
  }

  /** An empty macro leaves the sequencer as it was. */
  lemma EmptyMacroIsNoOp(exeCode: nat, held: map<string, bool>)
    ensures CommandStep(exeCode, held, []) == (exeCode, held)
  {
  }

  /** One tick of the cooldown: down by one while positive. */
  function Tick(cooldown: int): (next: int)
    ensures next <= cooldown
    ensures next == cooldown <==> cooldown <= 0
    ensures cooldown >= 0 ==> next >= 0
  {
    if cooldown > 0 then cooldown - 1 else cooldown
  }

  function TickN(cooldown: int, k: nat): int
  {
    if k == 0 then cooldown else Tick(TickN(cooldown, k - 1))
  }

  /** A non-negative cooldown after `k` ticks is max(0, cooldown - k): it never goes negative. */
  lemma {:induction false} CooldownExpires(cooldown: int, k: nat)
    requires cooldown >= 0
    ensures TickN(cooldown, k) == if cooldown >= k then cooldown - k else 0
  {
    if k > 0 {
      CooldownExpires(cooldown, k - 1);
    }
  }

  /** The replay memory's length after `n` pushes into an empty one: it stops growing at the capacity. */
  function LengthAfter(n: nat): nat
  {
    if n <= MemoryCapacity then n else MemoryCapacity
  }

  /** Pushing the transitions `xs` one at a time into an empty memory leaves `LengthAfter(|xs|)` of them. */
  lemma FillLength<T>(xs: seq<T>)
    ensures |Fill(MemoryCapacity, xs)| == LengthAfter(|xs|)
  {
    FillKeepsNewest(MemoryCapacity, xs);
  }

  /**
   * The number of target synchronisations `fight` performs while the
   * transitions `xs` are pushed one at a time into an empty memory: one for
   * each push after which the memory's length is a multiple of 1000.
   */
  function SyncCount<T>(xs: seq<T>): nat
  {
    if |xs| == 0 then 0
    else SyncCount(xs[..|xs| - 1]) + (if |Fill(MemoryCapacity, xs)| % TargetSyncPeriod == 0 then 1 else 0)
  }

  /** While the memory fills, the target is synchronised once per thousand pushes. */
  lemma {:induction false} SyncWhileFilling<T>(xs: seq<T>)
    requires |xs| <= MemoryCapacity
    ensures SyncCount(xs) == |xs| / TargetSyncPeriod
  {
    if |xs| > 0 {
      SyncWhileFilling(xs[..|xs| - 1]);
      FillLength(xs);
    }
  }

  /** Once the memory is full its length stays 10000, so every further push synchronises. */
  lemma {:induction false} SyncWhenFull<T>(xs: seq<T>)
    requires |xs| >= MemoryCapacity
    ensures SyncCount(xs) == 10 + (|xs| - MemoryCapacity)
  {
    if |xs| == MemoryCapacity {
      SyncWhileFilling(xs);
    } else {
      SyncWhenFull(xs[..|xs| - 1]);
      FillLength(xs);
    }
  }

  /** The outcome of `update_state`: its return value, or the exception it raises. */
  datatype Raised<T> = Returned(value: T) | ZeroDivisionError

  class Bot {
    var playerNumber: int
    const agent: DQNAgent
    var lastState: Option<Observation>
    var lastGameState: Option<GameState>
    var lastAction: Option<int>
    /** The one cursor shared by every macro. */
    var exeCode: nat
    /** The sequencer's button record, attribute name to value (absent reads as not pressed). */
    var buttn: map<string, bool>
    var defensiveMode: bool
    var aggressiveMode: bool
    var specialMoveCooldown: int

    ghost predicate Valid()
      reads this, agent, agent.memory, agent.memory.data
    {
      && agent.Valid()
      && agent.actionSize == ActionCount
      && agent.stateSize == StateSize
      && specialMoveCooldown >= 0
      && !(defensiveMode && aggressiveMode)
      && (lastState.Some? <==> lastAction.Some?)
      && (lastState.Some? <==> lastGameState.Some?)
    }

    /**
     * A new bot: a fresh agent for this player, then the player's own
     * checkpoint if it loads, else the shared default one if it loads,
     * else the fresh networks with epsilon 1.0. `None` stands for a file
     * that is missing or does not load.
     */
    constructor (playerNumber: int, initial: QFunction, playerCheckpoint: Option<Checkpoint>, defaultCheckpoint: Option<Checkpoint>)
      requires Shaped(initial, ActionCount)
      requires playerCheckpoint.Some? ==> Shaped(playerCheckpoint.value.policy, ActionCount) && Shaped(playerCheckpoint.value.target, ActionCount)
      requires defaultCheckpoint.Some? ==> Shaped(defaultCheckpoint.value.policy, ActionCount) && Shaped(defaultCheckpoint.value.target, ActionCount)
      ensures Valid() && fresh(agent) && fresh(agent.memory) && fresh(agent.memory.data)
      ensures this.playerNumber == playerNumber && agent.playerNumber == playerNumber
      ensures lastState == None && lastGameState == None && lastAction == None
      ensures exeCode == 0 && buttn == map[] && !defensiveMode && !aggressiveMode && specialMoveCooldown == 0
      ensures agent.memory.Contents == []
      ensures match playerCheckpoint
        case Some(c) => agent.policy == c.policy && agent.target == c.target && agent.epsilon == c.epsilon
        case None => match defaultCheckpoint
          case Some(c) => agent.policy == c.policy && agent.target == c.target && agent.epsilon == c.epsilon
          case None => agent.policy == initial && agent.target == initial && agent.epsilon == EpsilonStart
    {
      this.playerNumber := playerNumber;
      agent := new DQNAgent(StateSize, ActionCount, playerNumber, initial);
      lastState, lastGameState, lastAction := None, None, None;
      exeCode := 0;
      buttn := map[];
      defensiveMode, aggressiveMode := false, false;
      specialMoveCooldown := 0;
      new;
      if playerCheckpoint.Some? {
        agent.LoadModel(playerCheckpoint.value);
      } else if defaultCheckpoint.Some? {
        agent.LoadModel(defaultCheckpoint.value);
      }
    }

    /** `choose_action` under the bot's current mode flags. */
    function ChooseAction(me: PlayerState, opponent: PlayerState): string
      reads this
    {
      ChooseTactic(defensiveMode, aggressiveMode, me, opponent)
    }

    /**
     * `update_state`: picks (self, opponent) by the player string, sets the
     * modes from the health ratio and ticks the cooldown. With the
     * opponent's health at 0 the division raises and nothing changes.
     */
    method UpdateState(g: GameState, player: string) returns (outcome: Raised<(PlayerState, PlayerState)>)
      requires Valid()
      modifies this`defensiveMode, this`aggressiveMode, this`specialMoveCooldown
      ensures Valid()
      ensures var (me, opponent) := if player == "1" then (g.player1, g.player2) else (g.player2, g.player1);
        if opponent.health == 0 then
          && outcome == ZeroDivisionError
          && defensiveMode == old(defensiveMode) && aggressiveMode == old(aggressiveMode)
          && specialMoveCooldown == old(specialMoveCooldown)
        else
          var ratio := me.health as real / opponent.health as real;
          && outcome == Returned((me, opponent))
          && (defensiveMode <==> ratio < DefensiveRatio)
          && (aggressiveMode <==> ratio > AggressiveRatio)
          && specialMoveCooldown == Tick(old(specialMoveCooldown))
    {
      var me, opponent;
      if player == "1" {
        me, opponent := g.player1, g.player2;
      } else {
        me, opponent := g.player2, g.player1;
      }
      if opponent.health == 0 {
        return ZeroDivisionError;
      }
      var ratio := me.health as real / opponent.health as real;
      if ratio < DefensiveRatio {
        defensiveMode, aggressiveMode := true, false;
      } else if ratio > AggressiveRatio {
        defensiveMode, aggressiveMode := false, true;
      } else {
        defensiveMode, aggressiveMode := false, false;
      }
      if specialMoveCooldown > 0 {
        specialMoveCooldown := specialMoveCooldown - 1;
      }
      return Returned((me, opponent));
    }

    /** `run_command`: one step of the sequencer on macro `com`. */
    method RunCommand(com: seq<string>)
      requires Valid()
      modifies this`exeCode, this`buttn
      ensures Valid()
      ensures (exeCode, buttn) == CommandStep(old(exeCode), old(buttn), com)
    {
      if |com| == 0 {
        return;
      }
      if exeCode >= |com| {
        exeCode := 0;
        return;
      }
      var held := ParseToken(com[exeCode]);
      buttn := held;
      exeCode := exeCode + 1;
    }

    /**
     * `execute_special_move`: refused while the cooldown runs, changing
     * nothing. Otherwise the named macro is stepped once (an unknown name
     * steps nothing) and the cooldown restarts at 30.
     */
    method ExecuteSpecialMove(moveType: string) returns (started: bool)
      requires Valid()
      modifies this`specialMoveCooldown, this`exeCode, this`buttn
      ensures Valid()
      ensures started <==> old(specialMoveCooldown) == 0
      ensures !started ==> specialMoveCooldown == old(specialMoveCooldown) && exeCode == old(exeCode) && buttn == old(buttn)
      ensures started ==> specialMoveCooldown == CooldownTicks
      ensures started ==> (exeCode, buttn) == CommandStep(old(exeCode), old(buttn), SpecialMoveMacro(moveType))
    {
      if specialMoveCooldown > 0 {
        return false;
      }
      if moveType == "fireball" {
        RunCommand(Fireball);
      } else if moveType == "dragon_punch" {
        RunCommand(DragonPunch);
      } else if moveType == "spinning_kick" {
        RunCommand(SpinningKick);
      }
      specialMoveCooldown := CooldownTicks;
      return true;
    }

    /**
     * The learning half of `fight`: store the closed transition, train once,
     * and synchronise the target network when the memory's length is a
     * multiple of 1000.
     */
    method Learn(t: Transition, stepped: QFunction) returns (synced: bool)
      requires Valid() && Shaped(stepped, ActionCount)
      modifies agent, agent.memory, agent.memory.data
      ensures Valid()
      ensures agent.memory.Contents == Window(old(agent.memory.Contents) + [t], MemoryCapacity)
      ensures |agent.memory.Contents| >= BatchSize ==> agent.epsilon == Decay(old(agent.epsilon)) && agent.policy == stepped
      ensures |agent.memory.Contents| < BatchSize ==> agent.epsilon == old(agent.epsilon) && agent.policy == old(agent.policy)
      ensures synced <==> |agent.memory.Contents| % TargetSyncPeriod == 0
      ensures agent.target == if synced then agent.policy else old(agent.target)
    {
      agent.memory.Push(t);
      var loss;
      ghost var batch;
      ghost var positions;
      loss, batch, positions := agent.Train(stepped);
      synced := agent.memory.Length() % TargetSyncPeriod == 0;
      if synced {
        agent.UpdateTargetNetwork();
      }
    }

    /**
     * The deciding half of `fight`: the observation from the agent's
     * perspective, the epsilon-greedy action for it, and that action's
     * button record.
     */
    method Decide(g: GameState, roll: real) returns (currentState: Observation, action: int, buttons: Buttons)
      requires Valid()
      ensures currentState == GetState(agent.playerNumber, g)
      ensures 0 <= action < ActionCount
      ensures roll >= agent.epsilon ==> forall a :: 0 <= a < ActionCount ==> agent.policy(currentState)[a] <= agent.policy(currentState)[action]
      ensures buttons == ApplyEntries(Released, ActionToButtons(action))
    {
      currentState := GetState(agent.playerNumber, g);
      action := agent.SelectAction(currentState, roll);
      buttons := ButtonsFromDict(ActionToButtons(action));
    }

    /** The start of `fight`: the bot takes the player number it is given. */
    method SetPlayer(playerNumber: int)
      requires Valid()
      modifies this`playerNumber
      ensures Valid() && this.playerNumber == playerNumber
    {
      this.playerNumber := playerNumber;
    }

    /**
     * The middle of `fight`: when there is a previous frame, close its
     * transition with this frame's observation and learn from it.
     */
    method Experience(currentState: Observation, g: GameState, stepped: QFunction) returns (synced: bool)
      requires Valid() && Shaped(stepped, ActionCount)
      modifies agent, agent.memory, agent.memory.data
      ensures Valid()
      ensures lastState.Some? && lastAction.Some? ==>
        agent.memory.Contents == Window(old(agent.memory.Contents) + [Transition(
          lastState.value, lastAction.value, GetReward(agent.playerNumber, lastGameState.value, g),
          currentState, g.isRoundOver)], MemoryCapacity)
      ensures !(lastState.Some? && lastAction.Some?) ==> agent.memory.Contents == old(agent.memory.Contents)
      ensures var trained := lastState.Some? && lastAction.Some? && |agent.memory.Contents| >= BatchSize;
        && (trained ==> agent.epsilon == Decay(old(agent.epsilon)) && agent.policy == stepped)
        && (!trained ==> agent.epsilon == old(agent.epsilon) && agent.policy == old(agent.policy))
      ensures synced <==> lastState.Some? && lastAction.Some? && |agent.memory.Contents| % TargetSyncPeriod == 0
      ensures agent.target == if synced then agent.policy else old(agent.target)
    {
      synced := false;
      if lastState.Some? && lastAction.Some? {
        var reward := GetReward(agent.playerNumber, lastGameState.value, g);
        synced := Learn(Transition(lastState.value, lastAction.value, reward, currentState, g.isRoundOver), stepped);
      }
    }

    /** The end of `fight`: this frame becomes the previous one. */
    method Remember(currentState: Observation, g: GameState, action: int)
      requires Valid()
      modifies this`lastState, this`lastGameState, this`lastAction
      ensures Valid()
      ensures lastState == Some(currentState) && lastGameState == Some(g) && lastAction == Some(action)
    {
      lastState := Some(currentState);
      lastGameState := Some(g);
      lastAction := Some(action);
    }

    /**
     * One frame of `fight`: observe, pick an action (`roll` is the
     * exploration draw), build its button record, close and store the
     * previous transition (reward from the previous snapshot to this one,
     * `done` from this snapshot), train, synchronise the target when the
     * memory's length is a multiple of 1000, remember this frame, and
     * report whether the memory's length asks for a save. `stepped` is the
     * policy the optimizer produces if a training step runs.
     */
    method Fight(g: GameState, playerNumber: int, roll: real, stepped: QFunction)
      returns (buttons: Buttons, synced: bool, saved: bool)
      requires Valid() && Shaped(stepped, ActionCount)
      modifies this`playerNumber, this`lastState, this`lastGameState, this`lastAction
      modifies agent, agent.memory, agent.memory.data
      ensures Valid()
      ensures this.playerNumber == playerNumber
      ensures lastState == Some(GetState(agent.playerNumber, g)) && lastGameState == Some(g)
      ensures lastAction.Some? && 0 <= lastAction.value < ActionCount
      ensures buttons == ApplyEntries(Released, ActionToButtons(lastAction.value))
      ensures old(lastState).Some? && old(lastAction).Some? ==>
        agent.memory.Contents == Window(old(agent.memory.Contents) + [Transition(
          old(lastState).value, old(lastAction).value,
          GetReward(agent.playerNumber, old(lastGameState).value, g),
          GetState(agent.playerNumber, g), g.isRoundOver)], MemoryCapacity)
      ensures !(old(lastState).Some? && old(lastAction).Some?) ==> agent.memory.Contents == old(agent.memory.Contents)
      ensures var trained := old(lastState).Some? && old(lastAction).Some? && |agent.memory.Contents| >= BatchSize;
        && (trained ==> agent.epsilon == Decay(old(agent.epsilon)) && agent.policy == stepped)
        && (!trained ==> agent.epsilon == old(agent.epsilon) && agent.policy == old(agent.policy))
      ensures synced <==> old(lastState).Some? && old(lastAction).Some? && |agent.memory.Contents| % TargetSyncPeriod == 0
      ensures agent.target == if synced then agent.policy else old(agent.target)
      ensures saved <==> |agent.memory.Contents| % SavePeriod == 0
    {
      SetPlayer(playerNumber);
      var currentState, action;
      currentState, action, buttons := Decide(g, roll);
      synced := Experience(currentState, g, stepped);
      Remember(currentState, g, action);
      saved := agent.memory.Length() % SavePeriod == 0;
    }
  }

  /**
   * The parsing half of `run_command`: the parts of the token under the
   * cursor applied in order to a cleared record. The token is split on `+`
   * only when it contains one, which comes to the same.
   */
  method ParseToken(current: string) returns (held: map<string, bool>)
    ensures held == TokenEffect(current)
  {
    held := map[];
    if '+' in current {
      var buttons := Split(current, '+');
      for i := 0 to |buttons|
        invariant held == ApplyParts(map[], buttons[..i])
      {
        var button := buttons[i];
        if |button| > 0 && button[0] == '!' {
          held := held[Lower(button[1..]) := false];
        } else {
          held := held[Lower(button) := true];
        }
        assert buttons[..i + 1][..i] == buttons[..i];
      }
      assert buttons[..|buttons|] == buttons;
    } else {
      SinglePartToken(current);
      if |current| > 0 && current[0] == '!' {
        held := held[Lower(current[1..]) := false];
      } else {
        held := held[Lower(current) := true];
      }
    }
  }

  /**
   * The loop of `fight` that copies the combination's entries onto a fresh
   * button record, keeping the case of action letters and lower-casing
   * everything else.
   */
  method ButtonsFromDict(combo: seq<(string, bool)>) returns (buttons: Buttons)
    ensures buttons == ApplyEntries(Released, combo)
  {
    buttons := Released;
    for i := 0 to |combo|
      invariant buttons == ApplyEntries(Released, combo[..i])
    {
      var (button, value) := combo[i];
      if button in ActionLetters {
        buttons := SetButton(buttons, button, value);
      } else {
        buttons := SetButton(buttons, Lower(button), value);
      }
      assert combo[..i + 1][..i] == combo[..i];
    }
    assert combo[..|combo|] == combo;
  }

  /**
   * The snapshot with fighters at x 100 and 300: it is returned as the pair
   * of players and the neutral tactic at distance 200 is a fireball; then
   * health 30 against 100 switches to defensive mode and 100 against 30 to
   * aggressive mode.
   */
  method TestModes()
  {
    var initial: QFunction := (s: Observation) => seq(ActionCount, _ => 0.0);
    var bot := new Bot(1, initial, None, None);
    var p1 := PlayerState(100, 200, 100, false, false, false, 0);
    var p2 := PlayerState(300, 200, 100, false, false, false, 0);
    var g := GameState(p1, p2, 99, true, false);
    var outcome := bot.UpdateState(g, "1");
    assert outcome == Returned((p1, p2));
    assert bot.ChooseAction(p1, p2) == "fireball";
    outcome := bot.UpdateState(g.(player1 := p1.(health := 30)), "1");
    assert bot.defensiveMode && !bot.aggressiveMode;
    outcome := bot.UpdateState(g.(player2 := p2.(health := 30)), "1");
    assert bot.aggressiveMode && !bot.defensiveMode;
  }

  /** A fireball starts the 30-tick cooldown, and a second one during it is refused. */
  method TestSpecialMoveCooldown()
  {
    var initial: QFunction := (s: Observation) => seq(ActionCount, _ => 0.0);
    var bot := new Bot(1, initial, None, None);
    var started := bot.ExecuteSpecialMove("fireball");
    assert started && bot.specialMoveCooldown == 30;
    started := bot.ExecuteSpecialMove("fireball");
    assert !started && bot.specialMoveCooldown == 30;
  }

  /** One call of the sequencer on `[">", "!>", "Y", "!Y"]` presses `>` and neither `right` nor `y`. */
  method TestRunCommand()
  {
    var initial: QFunction := (s: Observation) => seq(ActionCount, _ => 0.0);
    var bot := new Bot(1, initial, None, None);
    SinglePartToken(">");
    assert Lower(">")[0] == LowerChar('>') == '>';
    assert PartName(">") == ">" && !IsRelease(">");
    assert TokenEffect(">") == map[">" := true];
    bot.RunCommand([">", "!>", "Y", "!Y"]);
    assert bot.exeCode == 1 && bot.buttn == map[">" := true];
    assert "right" !in bot.buttn && "y" !in bot.buttn;
  }

  /**
   * A first frame of `fight` on a new bot stores nothing, synchronises
   * nothing and asks for a save, because the empty memory's length is a
   * multiple of 10000.
   */
  method TestFirstFrame()
  {
    var initial: QFunction := (s: Observation) => seq(ActionCount, _ => 0.0);
    var bot := new Bot(1, initial, None, None);
    var g := GameState(PlayerState(100, 200, 100, false, false, false, 0),
                       PlayerState(300, 200, 100, false, false, false, 0), 99, true, false);
    var buttons, synced, saved := bot.Fight(g, 1, 0.5, initial);
    assert bot.agent.memory.Contents == [];
    assert 0 % SavePeriod == 0;
    assert saved && !synced;
    assert bot.lastState == Some(GetState(1, g)) && bot.lastGameState == Some(g);
  }
}
