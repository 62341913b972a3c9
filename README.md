# TurboFighter bot decision layer in Dafny

This project models the decision layer of the TurboFighter Python bot. Each frame, the bot turns one game snapshot into one button command and keeps its deep-Q-learning bookkeeping alongside. The model covers these parts:

- **The heuristic bot** (`bot.dfy`, module `BotModel`, class `Bot`). It has two modes, defensive and aggressive, set from the health ratio of the two fighters, plus a special-move cooldown.
  - A distance-threshold tactic chooser.
  - The 12-entry table from action index to button combination.
  - The per-frame `fight` orchestration. It builds the button record for the chosen action, closes the `(s, a, r, s', done)` transition of the previous frame, trains, synchronises the target network and signals a save.
- **The input sequencer** (`macro.dfy`, module `Macros`, used by `Bot.RunCommand`). A special-move macro is a list of tokens. A token is a list of `+`-separated parts, and a part presses a button, or releases it when it starts with `!`.
  - One call plays the token under a single cursor, `exe_code`, which all macros share.
  - Past the end, the call rewinds the cursor and leaves the held buttons as they were.
  - Attribute names are lower-cased, so `Y` sets `y`.
- **The DQN agent** (`agent.dfy` and `learning.dfy`).
  - The 17-slot observation, seen from the agent's player.
  - The shaping reward.
  - Epsilon-greedy action choice.
  - The `train` guard, the Bellman regression targets and the epsilon decay.
  - Target-network synchronisation and checkpoint loading.

  The networks are abstract functions from an observation to one Q-value per action.
- **The replay memory** (`replay.dfy`, class `ReplayBuffer`). It is a bounded FIFO, Python's `deque(maxlen=10000)`, modelled as a ring buffer over an array. The ghost sequence `Contents` holds its entries, oldest first.
- **The controller's pure parts** (`controller.dfy`). These are the human-readable rendering of a button record and the rule that puts a player's buttons into that player's slot of the outgoing command.
- **Shared pieces.** `text.dfy` holds Python's `split`, `join` and ASCII `lower`. `game.dfy` holds the snapshot, transition, button and command records.

A few behaviours of the code are modelled exactly as written:

- All three macros share one cursor.
- An overrun rewinds the cursor without touching the buttons.
- The sequencer lower-cases action letters, but `fight` keeps them upper-case (`BotModel.ComboPressesItsButtons`, `Macros.LowercasedActionLetter`).
- The sync and save triggers test `len(memory)`, which stops at 10000. From then on every frame synchronises (`BotModel.SyncWhenFull`).
- The reward rewards one's own health loss (`Learning.RewardForOwnDamage`).
- Features and rewards use the agent's player number, fixed at construction, not the number `fight` stores.

Client methods state scenarios as assertions that follow from the contracts.

- From `tests/test_bot.py`:
  - `BotModel.TestModes` covers `test_update_state`, `test_choose_action`, `test_defensive_mode` and `test_aggressive_mode`.
  - The first call in `BotModel.TestSpecialMoveCooldown` covers `test_execute_special_move`.
  - `BotModel.TestRunCommand` covers `test_run_command`.
- Added here, with no test in that file:
  - the second, refused call in `BotModel.TestSpecialMoveCooldown`;
  - `BotModel.TestFirstFrame`, the first `fight` frame of a new bot.

Where the test file and the code disagree, the model follows the code. After one call on `[">", "!>", "Y", "!Y"]`, the test expects `right` and `y` to be set. The code sets only `>`.

## Model

| member | source | states |
|---|---|---|
| Text.Join | PythonAPI/controller.py:74-80 | `sep.join(parts)`: the parts with `sep` between neighbours, the empty string for no parts; `Text.SplitJoin` proves it undoes `Split` |
| Text.Split | PythonAPI/bot.py:223 | `str.split` on the separator: at least one part, no part contains the separator, one part more than there are separators |
| Text.SplitJoin | PythonAPI/bot.py:223 | joining the parts with the separator gives back the token, so splitting loses no character |
| Text.SplitWithoutSeparator | PythonAPI/bot.py:222-233 | a token without `+` splits into itself alone, so the single-part branch of `run_command` agrees with splitting |
| Text.Lower | PythonAPI/bot.py:226-233 | `str.lower()` keeps the length, lower-cases each ASCII letter and leaves no upper-case letter |
| Replay.ReplayBuffer.constructor | PythonAPI/dqn.py:22-23 | a new buffer is empty and has the given capacity |
| Replay.ReplayBuffer.Length | PythonAPI/dqn.py:31-32 | `len(buffer)` is the number of held transitions and never exceeds the capacity |
| Replay.ReplayBuffer.Push | PythonAPI/dqn.py:25-26 | after `append` the contents are the newest `capacity` elements of the old contents followed by the new one, and the length is min(old + 1, capacity) |
| Replay.WindowAppend | PythonAPI/dqn.py:23-26 | evicting before an append and evicting after it give the same contents |
| Replay.FillKeepsNewest | PythonAPI/dqn.py:23-26 | appending a sequence one element at a time to an empty bounded deque leaves exactly its last `capacity` elements in insertion order, oldest evicted first |
| Replay.CapacityThree | PythonAPI/dqn.py:23-26 | with capacity 3, four appends keep the last three |
| Replay.ReplayBuffer.Sample | PythonAPI/dqn.py:28-29 | `random.sample(buffer, n)`, allowed only when n <= len: n transitions read from n distinct positions of the buffer |
| Learning.GetState | PythonAPI/dqn.py:56-88 | 17 slots: the agent's own seven features, then the opponent's seven (player 1 sees player 1 as self, any other number sees player 2), then timer, round started and round over |
| Learning.PerspectiveSwap | PythonAPI/dqn.py:59-85 | switching the player number swaps the two seven-slot blocks and leaves the three round slots alone |
| Learning.GetReward | PythonAPI/dqn.py:90-114 | the reward from the agent player's side: 10 times the health change (the opponent's change minus one's own) plus 0.1 times the drop in distance; the lemmas below state its properties |
| Learning.RewardOfNoChange | PythonAPI/dqn.py:90-114 | two identical snapshots give reward 0 |
| Learning.RewardForOwnDamage | PythonAPI/dqn.py:103-112 | losing ten health of one's own while nothing else changes is rewarded with +100 |
| Learning.RewardPerspectives | PythonAPI/dqn.py:92-112 | the two players' rewards for the same snapshots have opposite health terms and equal distance terms |
| Learning.MaxOf | PythonAPI/dqn.py:146 | the maximum over a non-empty Q-vector is one of its entries and bounds all of them |
| Learning.ArgMax | PythonAPI/dqn.py:122 | `argmax` returns an index in range holding a maximal entry, and no earlier index holds the maximum |
| Learning.ArgMaxAttainsMax | PythonAPI/dqn.py:122 | the greedy action's Q-value is the maximum Q-value |
| Learning.BellmanTarget | PythonAPI/dqn.py:146-147 | reward + (1 - done) * 0.99 * the largest next Q-value; `Learning.BellmanCases` states its two cases |
| Learning.BellmanCases | PythonAPI/dqn.py:146-147 | the Bellman target is the reward for a terminal transition; otherwise it is the reward plus 0.99 times the best next Q-value, and it bounds reward plus 0.99 times every next Q-value |
| Learning.Decay | PythonAPI/dqn.py:157 | one decay step never goes below 0.01, is either 0.01 or 0.995 times epsilon, and never raises an epsilon already at or above 0.01 |
| Learning.EpsilonSchedule | PythonAPI/dqn.py:157 | starting from 1.0, epsilon after N training steps is max(0.01, 0.995^N) |
| Learning.EpsilonNonIncreasing | PythonAPI/dqn.py:157 | from any epsilon at or above 0.01, epsilon never increases and never drops below 0.01 over any number of steps |
| Agent.BellmanTargets | PythonAPI/dqn.py:144-147 | one target per sampled transition: the Bellman target computed with the target network, equal to the reward for terminal transitions |
| Agent.DQNAgent.constructor | PythonAPI/dqn.py:35-54 | epsilon starts at 1.0, the memory is empty with capacity 10000, and the target network equals the policy network |
| Agent.DQNAgent.SelectAction | PythonAPI/dqn.py:116-122 | the action is in [0, action_size) on both branches; on the greedy branch its Q-value is maximal |
| Agent.DQNAgent.Train | PythonAPI/dqn.py:124-159 | below 64 stored transitions: no result and nothing changes; otherwise 64 transitions are read from 64 distinct positions of the memory (sampling without replacement), their Bellman targets come from the target network, the policy becomes the optimizer's result and epsilon decays once; the target network is untouched |
| Agent.DQNAgent.UpdateTargetNetwork | PythonAPI/dqn.py:161-163 | the target network becomes the policy network; nothing else changes |
| Agent.DQNAgent.LoadModel | PythonAPI/dqn.py:175-181 | a loaded checkpoint restores both networks and epsilon |
| Macros.TokenEffect | PythonAPI/bot.py:218-233 | the attributes one token sets on a cleared record: its `+`-separated parts applied left to right; `Macros.TokenEffectMeaning` states the result |
| Macros.CommandStep | PythonAPI/bot.py:210-235 | one sequencer call; for a non-empty macro the cursor stays within the macro and is 0 exactly after an overrun, and an overrun keeps the buttons |
| Macros.ApplyPartsKeys | PythonAPI/bot.py:224-229 | applying parts adds exactly the parts' attribute names to the set attributes |
| Macros.ApplyPartsLastWins | PythonAPI/bot.py:224-229 | the last part naming an attribute decides its value: pressed unless the part starts with `!` |
| Macros.TokenEffectMeaning | PythonAPI/bot.py:218-233 | on the cleared record, a token sets exactly the names of its parts; a part not overridden later leaves its name pressed, or released when it starts with `!` |
| Macros.SinglePartToken | PythonAPI/bot.py:230-233 | a token without `+` acts as its single part |
| Macros.LowercasedActionLetter | PythonAPI/bot.py:226-229 | the token `>+Y` sets the attributes `>` and `y`, not `Y` |
| Macros.Playback | PythonAPI/bot.py:210-235 | from a rewound cursor, the k-th call on an n-token macro (1 <= k <= n) leaves the cursor at k and the buttons of the k-th token |
| Macros.Rewind | PythonAPI/bot.py:214-216 | the call after the last token rewinds the cursor to 0 and keeps the last token's buttons |
| BotModel.ActionToButtons | PythonAPI/bot.py:51-69 | each of the 12 actions (and Python's negative indices) maps to one or two of the ten buttons, all pressed |
| BotModel.EntriesPressTheirKeys | PythonAPI/bot.py:158-164 | entries that press buttons of the record, applied to a released record, press exactly their keys and nothing else |
| BotModel.ComboPressesItsButtons | PythonAPI/bot.py:155-164 | the record `fight` builds for an action presses exactly that action's buttons, the upper-case letters included |
| BotModel.ButtonsFromDict | PythonAPI/bot.py:158-164 | the attribute loop of `fight` yields the dict's entries applied in order to a released record |
| BotModel.ChooseTactic | PythonAPI/bot.py:113-141 | the tactic is one of six strings; for each one, the exact mode and distance conditions that choose it, in both directions |
| BotModel.SpecialMoveMacro | PythonAPI/bot.py:103-108 | the macro played for a move type, which is empty exactly for a type other than fireball, dragon punch and spinning kick |
| BotModel.EmptyMacroIsNoOp | PythonAPI/bot.py:210-212 | stepping an empty macro changes neither the cursor nor the buttons |
| BotModel.Tick | PythonAPI/bot.py:93-94 | one tick never raises the cooldown, leaves it unchanged exactly when it is not positive, and keeps a non-negative cooldown non-negative |
| BotModel.CooldownExpires | PythonAPI/bot.py:93-94 | a non-negative cooldown after k ticks is max(0, cooldown - k), so it never goes negative |
| BotModel.FillLength | PythonAPI/dqn.py:21-26 | after n pushes into the empty bounded memory its length is n, capped at 10000 |
| BotModel.SyncWhileFilling | PythonAPI/bot.py:192-194 | counting one synchronisation for each push after which the memory's length (the length of `Replay.Fill`) is a multiple of 1000, the first n pushes synchronise n / 1000 times while the memory fills |
| BotModel.SyncWhenFull | PythonAPI/bot.py:192-194 | on the same count, once the memory is full its length stays 10000, so every push after the 10000th synchronises |
| BotModel.Bot.constructor | PythonAPI/bot.py:9-49 | a fresh agent for the player, then the player's own checkpoint if it loads, else the default one, else fresh networks with epsilon 1.0; no previous frame, cursor 0, no mode, cooldown 0 |
| BotModel.Bot.UpdateState | PythonAPI/bot.py:71-96 | returns (player1, player2) for `"1"` and the swapped pair otherwise; defensive iff the ratio is below 0.5, aggressive iff above 1.5, never both; the cooldown ticks down by one while positive; with the opponent at zero health it raises and changes nothing |
| BotModel.Bot.ChooseAction | PythonAPI/bot.py:113-141 | the tactic table of `BotModel.ChooseTactic` applied under the bot's current mode flags |
| BotModel.Bot.RunCommand | PythonAPI/bot.py:210-235 | one sequencer step: an empty macro changes nothing; a cursor at or past the end rewinds to 0 and keeps the buttons; otherwise the record is cleared, the token under the cursor applied, and the cursor advanced by one |
| BotModel.Bot.ExecuteSpecialMove | PythonAPI/bot.py:98-111 | refused, changing nothing, while the cooldown runs; otherwise steps the named macro once (an unknown name steps nothing) and restarts the cooldown at 30 |
| BotModel.Bot.Learn | PythonAPI/bot.py:176-194 | the transition is appended to the bounded memory; training runs when the memory then holds at least 64; the target is synchronised exactly when the memory's length is a multiple of 1000 |
| BotModel.ParseToken | PythonAPI/bot.py:218-233 | the token under the cursor, split on `+` when it has one, sets each part's lower-cased name on a cleared record, pressed or released by its `!`, which is the token's effect |
| BotModel.Bot.SetPlayer | PythonAPI/bot.py:146 | the bot takes the given player number and nothing else changes |
| BotModel.Bot.Decide | PythonAPI/bot.py:148-164 | the observation is the agent's own-perspective state, the action is one of the 12 and greedy when the draw is not below epsilon, and the record is that action's buttons |
| BotModel.Bot.Experience | PythonAPI/bot.py:173-195 | with a previous frame, the transition from it to the current observation, with its reward and done flag, is learned from; without one nothing is stored, trained or synchronised |
| BotModel.Bot.Remember | PythonAPI/bot.py:197-200 | the current observation, snapshot and action become the previous frame |
| BotModel.Bot.Fight | PythonAPI/bot.py:143-208 | stores the player number; the returned record is the chosen action's buttons; a transition is stored only when a previous frame exists, with the reward from the previous to the current snapshot and done = round over; the current frame always becomes the previous one; sync and save when the length is a multiple of 1000 and of 10000; the sequencer and the modes are untouched |
| Controller.DirectionLabels | PythonAPI/controller.py:59-62 | the pressed directions in the order Up, Down, Left, Right; empty exactly when no direction is pressed |
| Controller.ActionLabels | PythonAPI/controller.py:65-70 | the pressed action buttons in the order Y, B, A, X, L, R with their move names; empty exactly when none is pressed |
| Controller.Rendering | PythonAPI/controller.py:72-80 | the rendering is "None" exactly when no flag is set; it starts with the "Direction: " segment when a direction is pressed, and with the "Action: " segment when only action buttons are |
| Controller.CollectDirections | PythonAPI/controller.py:59-62 | the appends build the ordered list of pressed directions |
| Controller.CollectActions | PythonAPI/controller.py:65-70 | the appends build the ordered list of pressed action buttons |
| Controller.ButtonStateToString | PythonAPI/controller.py:45-80 | the string built segment by segment is the rendering above |
| Controller.DirectionsListed | PythonAPI/controller.py:59-62 | each direction name is listed exactly when its flag is set |
| Controller.ActionsListed | PythonAPI/controller.py:65-70 | each action button name is listed exactly when its flag is set |
| Controller.EveryActionIsRendered | PythonAPI/controller.py:78-79 | the record `fight` builds for any action never renders as "None" |
| Controller.JumpHeavyPunchRendering | PythonAPI/controller.py:73-80 | action 10 renders as the segment "Direction: Up" followed by the segment "Action: Y(Heavy Punch)", joined by the bar separator |
| Controller.RouteCommand | PythonAPI/controller.py:133-137 | player 1's buttons go into the player slot, any other player's into the player-2 slot, and the other slot stays released |

## Left out

- The neural networks, their forward pass, the MSE loss, back-propagation and the Adam step (dqn.py:9-19, 130-154) are numerics behind library calls.
  - A network is the function it computes.
  - The optimizer's new policy is the parameter `stepped`.
  - `Agent.DQNAgent.Train` returns the batch's Bellman targets instead of the loss value.
- `Agent.DQNAgent.SelectAction`: the random branch's uniform distribution is not modelled, only that it yields some action in range.
  - `random.random()` is the parameter `roll`.
- `Replay.ReplayBuffer.Sample`: the uniform distribution of `random.sample` is not modelled, only that it picks distinct positions.
- float32 rounding of features, rewards, Q-values and epsilon is not modelled. Reals are exact, and the health ratio is an exact quotient.
- Sockets, JSON transport, the main loop, connection flags, threads, `log_action_buttons` and every logger call are I/O.
  - So are the data recorder and the configuration module.
- `torch.save` and `torch.load` are file I/O.
  - `BotModel.Bot.Fight` reports a save through `saved` instead of writing a file.
  - The constructor takes each checkpoint as loaded or not (`None`).
  - A load that fails part-way, after restoring some networks, is not modelled.
- The `Buttons`, `Command` and `GameState` classes are not part of this model. They are records here.
  - `init_buttons` is taken to clear every attribute, so `buttn` becomes the empty map and an absent name reads as not pressed.
  - Setting a name the ten-flag record lacks is ignored.
- The `player` argument of `run_command` and `execute_special_move` is never used, so it is omitted.
  - The fields `fire_code`, `start_fire`, `remaining_code`, `my_command`, `action_history` and `combo_counter` are never read, so they are omitted too.
- `BotModel.Bot.Fight` takes the player number as an integer. The `int()` conversion of the string `process_frame` passes is not modelled.
- `Text.Lower` lower-cases ASCII letters only. Python's `str.lower()` also maps other Unicode letters, which no macro uses.
- `BotModel.Bot.ChooseAction` reads the mode flags and defers to `BotModel.ChooseTactic`, whose contract states the table.
- Default arguments are not modelled, so every caller passes them explicitly.
  - `move_type="fireball"` of `execute_special_move` (bot.py:98).
  - `player_number=1` of the constructor (bot.py:9).
