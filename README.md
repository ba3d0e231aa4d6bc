# Slime learning environment: brain and behaviour rules in Dafny

This project models the two pieces of decision logic of a small browser game
in which slimes wander an 800×600 arena, eat apples and kiwis and fight each
other:

- **the Q-learning brain** (`Brain`, slime_brain.dfy, after `src/SlimeBrain.ts`):
  epsilon-greedy choice among the four actions up, down, left and right;
  building the temporal-difference target vector that the network is fitted
  towards; and the decay of the exploration rate epsilon after each training
  call;
- **the scripted slime** (`SlimeBehavior`, slime.dfy, after `src/Slime.ts`):
  which fruit a slime heads for, the detection-range gate, when the wander
  target is redrawn, how a fight between two slimes ends, and the speed
  penalty for eating a kiwi.

`Wrappers` (wrappers.dfy) holds the `Option` type used for absent fruits and
targets.

The neural network is abstract. `SlimeBrain.model` has type
`QNetwork = StateVector -> QVector`: it is the network's prediction, taking
a 6-value state to 4 action values. A training pass (`model.fit`, one epoch)
is a caller-supplied `FitStep` from the old network, the state and the target
vector to the new network. `Train` is one atomic step that fits the network
and then decays epsilon.

Every `Math.random()` draw is a parameter in `[0, 1)`. The game engine is a
set of inputs and outputs:

- the nearest apple and kiwi (the engine's `physics.closest`) are `Option`
  positions;
- the `moveToObject` call that `update` makes is returned as a `Move`
  (destination and speed);
- the body check of `update` reads the field `hasBody`;
- `destroy()` sets the field `destroyed` and removes the body (`hasBody` becomes false), so a destroyed slime's `update` does nothing.

Distances are compared squared against squared thresholds (150² for the detection
range, 10² for reaching the wander target). The lemmas `DetectionRangeAgrees`,
`WanderReachedAgrees` and `ClosestFruitAgrees` prove that these tests decide
the same way as the Euclidean comparisons in the source.

Constants come from `src/constants.ts` (width 800, height 600, move speed 100,
detection range 150) and `src/SlimeBrain.ts` (state size 6, four actions,
discount 0.95, initial epsilon 1.0, decay 0.995, minimum 0.01, learning rate
0.01).

Two ghost counters tie the mutable numbers to their history. For a brain,
`Valid()` says epsilon is the initial 1.0 decayed `trainSteps` times. For a
slime, `Valid()` says `velocityMultiplier` is 0.9 to the power `penalties`,
and that the wander target is a point of the arena.

**No clamp.** The decay is a conditional multiply, not
`max(epsilonMin, epsilon * epsilonDecay)`: `src/SlimeBrain.ts:77-79`
multiplies only while `epsilon > epsilonMin`. Epsilon can therefore end one
step below the minimum (`DecayCanUndershootMin`), so `epsilonMin <= epsilon`
is not an invariant. The invariant it keeps is
`EPSILON_MIN * EPSILON_DECAY < epsilon <= 1` (`ValidEpsilonInRange`).

## Model

| member | source | states |
|---|---|---|
| `Brain.RandomAction` | src/SlimeBrain.ts:38 | the exploring action floor(r·4) is a valid action index (< 4) for every draw r in [0,1), and it is the integer a with a ≤ 4r < a+1 |
| `Brain.RandomActionInterval` | src/SlimeBrain.ts:38 | exploration is uniform: action a is drawn exactly when r lies in [a/4, (a+1)/4) |
| `Brain.ArgMax` | src/SlimeBrain.ts:41-45 | the greedy index is in range, its value is no smaller than any other, and every lower index has a strictly smaller value (ties go to the lowest index) |
| `Brain.MaxOf` | src/SlimeBrain.ts:60 | max(nextQ) bounds every entry from above and is one of the entries |
| `Brain.ArgMaxAttainsMax` | src/SlimeBrain.ts:44 | the value at the greedy index equals the maximum value |
| `Brain.TdTarget` | src/SlimeBrain.ts:61-69 | the target vector equals the current Q-vector at every index except `action`; there it is `reward` when done, otherwise `reward + 0.95 * nextQ[j]` for some j and at least that for every j (`reward + 0.95 * max(nextQ)`) |
| `Brain.TerminalTargetIgnoresNextState` | src/SlimeBrain.ts:64-65 | on a terminal experience the target vector does not depend on the next state's values |
| `Brain.DecayEpsilon` | src/SlimeBrain.ts:77-79 | one decay never increases epsilon; it strictly decreases it exactly when epsilon > 0.01; it keeps epsilon positive and keeps it at or above 0.01·0.995 |
| `Brain.EpsilonAfterBounds` | src/SlimeBrain.ts:15-17 | after any number of training calls epsilon stays in [0.01·0.995, its starting value] |
| `Brain.EpsilonAboveFloor` | src/SlimeBrain.ts:77-79 | starting strictly above 0.01·0.995, no number of training calls takes epsilon down to 0.01·0.995 |
| `Brain.EpsilonNonIncreasing` | src/SlimeBrain.ts:77-79 | more training calls never give a larger epsilon |
| `Brain.EpsilonSettles` | src/SlimeBrain.ts:77-79 | once epsilon is at or below 0.01, further training calls leave it unchanged |
| `Brain.DecayCanUndershootMin` | src/SlimeBrain.ts:77-79 | the rule is a conditional multiply, not a clamp: 0.01004 > 0.01 decays to below 0.01 |
| `Brain.SlimeBrain.constructor` | src/SlimeBrain.ts:15-21 | a new brain has the given network, epsilon 1.0 and no training history |
| `Brain.SlimeBrain.ChooseAction` | src/SlimeBrain.ts:36-46 | the action is always in 0..3; when the first draw is ≤ epsilon it is the exploring action of the second draw, independent of the network; otherwise its predicted value is maximal and no lower index has an equal value; no field changes |
| `Brain.SlimeBrain.Train` | src/SlimeBrain.ts:52-80 | the network becomes the fit of the old network on (state, TD target built from the old network's predictions); epsilon becomes its one-step decay; the decay history grows by one |
| `Brain.ValidEpsilonInRange` | src/SlimeBrain.ts:15-17 | a brain changed only by training has 0.01·0.995 < epsilon ≤ 1 |
| `Brain.FreshBrainAlwaysExplores` | src/SlimeBrain.ts:15 | with the initial epsilon 1.0 every call takes the exploring branch |
| `SlimeBehavior.SquaredDistance` | src/Slime.ts:81-82 | the squared distance is non-negative and zero between a point and itself |
| `SlimeBehavior.SquaredOrderAgrees` | src/Slime.ts:81-88 | for non-negative distances, comparing squares orders them as the distances do |
| `SlimeBehavior.WanderPoint` | src/Slime.ts:90-93 | a redrawn wander target lies in [0,800)×[0,600) |
| `SlimeBehavior.ClosestFruit` | src/Slime.ts:69-84 | no fruit when both are absent; the only one present when one is absent; with both present the apple exactly when it is strictly closer, so the kiwi on a tie; the result is one of the given fruits |
| `SlimeBehavior.ClosestFruitIsNearest` | src/Slime.ts:75-84 | the chosen fruit is no farther than either fruit present |
| `SlimeBehavior.ClosestFruitAgrees` | src/Slime.ts:81-83 | with both fruits present, the apple is chosen exactly when its Euclidean distance is smaller than the kiwi's |
| `SlimeBehavior.DetectionRangeAgrees` | src/Slime.ts:86-88 | the squared range test holds exactly when the Euclidean distance to the fruit is at most 150 |
| `SlimeBehavior.WanderReachedAgrees` | src/Slime.ts:89 | a present wander target is redrawn exactly when its Euclidean distance is below 10 |
| `SlimeBehavior.KiwiMultiplierBounds` | src/Slime.ts:13 | after any number of kiwi penalties from 1 the multiplier stays in (0, 1] |
| `SlimeBehavior.KiwiMultiplierDecreases` | src/Slime.ts:43-45 | each kiwi penalty strictly lowers the multiplier |
| `SlimeBehavior.FightLoser` | src/Slime.ts:47-58 | a slime is destroyed exactly when the types differ and the draw exceeds 0.5; `this` loses only if it is the passive slime, and `other` loses only if `this` is not |
| `SlimeBehavior.PassiveSlimeLoses` | src/Slime.ts:50-56 | in a fight between a passive and a non-passive slime the passive one is destroyed, whichever of the two runs the handler |
| `SlimeBehavior.Slime.constructor` | src/Slime.ts:16-27 | a new slime has the given position and type, multiplier 1, a body, and a wander target drawn in the arena |
| `SlimeBehavior.Slime.GetSlimeType` | src/Slime.ts:39-41 | a plain accessor for the slime's type (the source's `getSlimeType`); its body is its definition and no property is proved about it |
| `SlimeBehavior.Slime.ApplyKiwiPenalty` | src/Slime.ts:43-45 | the multiplier is multiplied by 0.9, stays positive and strictly decreases; one more penalty is counted |
| `SlimeBehavior.Slime.MoveSpeed` | src/Slime.ts:64 | the speed is 100 · 0.9^penalties, positive and at most 100 |
| `SlimeBehavior.SpeedAfterPenalties` | src/Slime.ts:64 | the speed after n kiwis is 100 · 0.9^n and is strictly higher than after n+1 |
| `SlimeBehavior.Slime.HandleSlimeCollision` | src/Slime.ts:47-59 | the slime named by `FightLoser` is marked destroyed and loses its body, and the other slime's flags are unchanged; same types or a draw ≤ 0.5 change nothing |
| `SlimeBehavior.Slime.Update` | src/Slime.ts:61-99 | no body: no move and no change; otherwise the speed is 100 · multiplier; with no fruit it heads for the unchanged wander target; with the chosen fruit in range it heads for that fruit; otherwise it heads for the wander target, redrawn only when absent or within 10 units |

## Left out

- Network internals (`createModel`, dense layers, the Adam optimiser, `tf.tidy`, tensor disposal): foreign library code with floating-point training. Prediction is the abstract `QNetwork`, and fitting is the abstract `FitStep`.
- The asynchronous `await` in `train`: `Train` is one atomic step. Overlapping training calls are not modelled.
- IEEE floating point: all numbers are `real`. NaN and rounding are not modelled, so neither are argMax or max on NaN.
- `Brain.SlimeBrain.Train`: requires `action < 4`. In the source, a larger index would lengthen the JavaScript array, and fitting would then fail on the shape. The model does not capture that error path.
- The `Valid()` preconditions: the methods assume the class invariant. The source keeps that invariant throughout, except that `epsilon` and `velocityMultiplier` are public fields. The model does not capture writes to them from outside the class.
- Phaser's `physics.closest` over a group, `moveToObject` steering, overlap callbacks, and the rest of what `destroy()` does inside the engine (display list, events): engine code. The nearest fruits are inputs, the move is an output, and destruction is a flag that also drops the body.
- Animation setup in the `Slime` constructor (`anims.create`, `play`, the random animation key) and the `console.log` after a fight: presentation only.
- `src/main.ts` (scene setup, asset loading, game configuration) and `src/utils/ColorPalette.ts` (a colour table): they are not part of this model.
- The agent loop that calls `chooseAction`/`train`, the state encoder (normalised 6-vector, last-state/last-action memory) and the reward table are not part of `src/SlimeBrain.ts` or `src/Slime.ts` and are not modelled.
