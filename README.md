# Behaviour trees and melee combat of the AI game-programming arena

The repository is a Unity arena where two agents fight with swords. One is an
*attacker*, the other a *defender*. Each agent is driven by a behaviour tree
whose leaves call into the agent's combat controller. This project models two
parts of it and proves properties about them.

**The behaviour-tree engine** covers:
- the three-valued `NodeState` (Success, Failure, Running) and the reset cascade of composites and decorators
- Sequence and Selector, both of which resume at the child that was running
- the decorators: Repeat, Inverter, Retry, ForceSuccess, ForceFailure, Timeout, Delay, UntilSuccess and UntilFailure
- the probability gate (RandomDecorator)
- the attacker's WeightedSelector
- the string-keyed Blackboard and the tree's root tick

**The combat state machine** covers:
- the two controllers (`AttackerController` and `DefenderController`): their busy gate and cooldown gates, the action coroutines with their cooldown stamps, invincibility, block-stun, damage clamping, death and `ResetHP`
- the sword hitbox's once-per-activation latch and the dispatch of a strike to the struck agent
- the statistics counters and their derived rates
- the leaf action and condition nodes of both agents' trees, and the 4-direction quantisers
- the two match managers: the batch `CombatSimulationManager` and the interactive `CombatManager`

**How the engine is represented:**
- Coroutines become explicit fields (`coroutine`, holding the suspension point and the time waited so far). `Tick(now, dt)` advances them.
- `Time.time` and `Time.deltaTime` are the parameters `now` and `dt`.
- `Random.value` is a parameter `draw`.
- Unity vectors are reduced to their ground-plane components `Vec2(x, z)`, or to a distance.
- A child node's result for the current tick is a parameter. A composite receives the sequence `outcomes` of its children's results; a decorator receives `childResult`. The child is a `BTNode.Node` object whose `state` field the parent sets or resets.

**How the project is laid out:**
- Each controller has a pure rules module (`AttackerRules`, `DefenderRules`) with a datatype of the controller's state and one function per operation.
- The `AttackerController` and `DefenderController` classes hold the same state as fields. Every method ensures that `View()` of the new state is the rules function applied to the old `View()`.
- The properties are lemmas over the rules functions, most of them about the invariant `Coherent`, which every operation preserves.
- The same split holds for the hitbox, the statistics, the simulation manager and the match manager.

## Model

| member | source | states |
|---|---|---|
| BTNode.Node.constructor | Assets/Scripts/BehaviorTree/Node.cs:15-26 | a new node is in state Running |
| BTNode.Node.Evaluate | Assets/Scripts/BehaviorTree/Node.cs:20 | evaluating a node caches the result in its state and returns it |
| BTNode.Node.Reset | Assets/Scripts/BehaviorTree/Node.cs:22-25 | the base reset puts the node back to Running |
| BTNode.ResetEach | Assets/Scripts/BehaviorTree/Node.cs:54-57 | after the loop every node of the list is Running |
| BTNode.RemoveFirstAbsent | Assets/Scripts/BehaviorTree/Node.cs:47-50 | removing a node that is not a child leaves the list unchanged |
| BTNode.RemoveFirstAt | Assets/Scripts/BehaviorTree/Node.cs:47-50 | removing a node drops exactly its first occurrence; the others keep their order |
| BTNode.CompositeNode.constructor | Assets/Scripts/BehaviorTree/Node.cs:32-40 | a composite starts with the given children, in state Running |
| BTNode.CompositeNode.AddChild | Assets/Scripts/BehaviorTree/Node.cs:42-45 | the child is appended at the end; the earlier children keep their order |
| BTNode.CompositeNode.RemoveChild | Assets/Scripts/BehaviorTree/Node.cs:47-50 | the first occurrence of the child is removed (List.Remove) |
| BTNode.CompositeNode.Reset | Assets/Scripts/BehaviorTree/Node.cs:52-59 | every child is reset to Running, and so is the composite |
| BTNode.DecoratorNode.constructor | Assets/Scripts/BehaviorTree/Node.cs:89-91 | a decorator starts without a child, in state Running |
| BTNode.DecoratorNode.SetChild | Assets/Scripts/BehaviorTree/Node.cs:93-96 | the decorator's child becomes the given node |
| BTNode.DecoratorNode.Reset | Assets/Scripts/BehaviorTree/Node.cs:98-102 | the decorator and, when present, its child are Running afterwards |
| BTSequence.SequenceScanIndex | Assets/Scripts/BehaviorTree/Sequence.cs:12-38 | a Running result records the index of the running child, all children before it since the resume index succeeded; any other result leaves the index at 0 |
| BTSequence.SequenceSucceedsIff | Assets/Scripts/BehaviorTree/Sequence.cs:35-38 | a sequence succeeds exactly when every child from the resume index on succeeds (an empty sequence succeeds) |
| BTSequence.SequenceFailsIff | Assets/Scripts/BehaviorTree/Sequence.cs:23-27 | a sequence fails exactly when some child fails after only successes |
| BTSequence.SequenceResume | Assets/Scripts/BehaviorTree/Sequence.cs:12 | the result depends only on the children from the resume index on; earlier children are not evaluated again |
| BTSequence.SequenceNode.constructor | Assets/Scripts/BehaviorTree/Sequence.cs:6-8 | a new sequence resumes at child 0 |
| BTSequence.SequenceNode.Evaluate | Assets/Scripts/BehaviorTree/Sequence.cs:10-39 | the result and the new index are those of the scan; a terminal result resets every child; a Running result leaves the children it passed Succeeded, the running one Running and the rest untouched |
| BTSequence.SequenceNode.Reset | Assets/Scripts/BehaviorTree/Sequence.cs:41-53 | the index returns to 0 and every child is Running |
| BTSelector.SelectorScanIndex | Assets/Scripts/BehaviorTree/Selector.cs:13-40 | a Running result records the index of the running child, all children before it since the resume index failed; any other result leaves the index at 0 |
| BTSelector.SelectorFailsIff | Assets/Scripts/BehaviorTree/Selector.cs:37-40 | a selector fails exactly when every child from the resume index on fails (an empty selector fails) |
| BTSelector.SelectorSucceedsIff | Assets/Scripts/BehaviorTree/Selector.cs:24-28 | a selector succeeds exactly when some child succeeds after only failures |
| BTSelector.SelectorResume | Assets/Scripts/BehaviorTree/Selector.cs:13 | the result depends only on the children from the resume index on |
| BTSelector.SelectorNode.constructor | Assets/Scripts/BehaviorTree/Selector.cs:7-9 | a new selector resumes at child 0 |
| BTSelector.SelectorNode.Evaluate | Assets/Scripts/BehaviorTree/Selector.cs:11-41 | the result and the new index are those of the scan; a terminal result resets every child; on Running each failed child was reset on its own and the running child is Running, the rest untouched |
| BTSelector.SelectorNode.Reset | Assets/Scripts/BehaviorTree/Selector.cs:43-55 | the index returns to 0 and every child is Running |
| BTDecorators.Invert | Assets/Scripts/BehaviorTree/DecoratorNode.cs:76-89 | Running passes through; a terminal result turns into the other terminal result |
| BTDecorators.ForceSuccessResult | Assets/Scripts/BehaviorTree/DecoratorNode.cs:163-174 | never Failure; Running exactly when the child runs |
| BTDecorators.ForceFailureResult | Assets/Scripts/BehaviorTree/DecoratorNode.cs:189-200 | never Success; Running exactly when the child runs |
| BTDecorators.UntilSuccessResult | Assets/Scripts/BehaviorTree/DecoratorNode.cs:318-337 | never Failure; Success exactly when the child succeeds |
| BTDecorators.UntilFailureResult | Assets/Scripts/BehaviorTree/DecoratorNode.cs:351-370 | never Failure; Success exactly when the child fails |
| BTDecorators.RepeatForeverStopsAsWritten | Assets/Scripts/BehaviorTree/DecoratorNode.cs:33-41 | as written, Repeat(-1) reports Success after the first child success (see Findings) |
| BTDecorators.RepeatTickAsWritten | Assets/Scripts/BehaviorTree/DecoratorNode.cs:17-57 | the tick as written: Success exactly when the count was already reached or a child success reaches it, which for -1 is the first success; Failure exactly when the child fails before that; the count rises by one per child success |
| BTDecorators.RepeatTick | Assets/Scripts/BehaviorTree/DecoratorNode.cs:17-57 | the corrected tick (see Findings): Success only for a finite count once reached; Failure exactly when the child fails before the count is reached; the count rises by one per child success |
| BTDecorators.RepeatTicksAgreeUnlessForever | Assets/Scripts/BehaviorTree/DecoratorNode.cs:33-41 | the as-written and corrected ticks differ exactly on a child success under Repeat(-1) |
| BTDecorators.RepeatRun | Assets/Scripts/BehaviorTree/DecoratorNode.cs:17-57 | successive ticks as written yield one result per child result |
| BTDecorators.RepeatRunIntended | Assets/Scripts/BehaviorTree/DecoratorNode.cs:17-57 | successive corrected ticks yield one result per child result |
| BTDecorators.RepeatForeverNeverSucceeds | Assets/Scripts/BehaviorTree/DecoratorNode.cs:12-57 | corrected version (see Findings): Repeat with count -1 (infinite) never reports Success, whatever the child does |
| BTDecorators.RepeatCountsSuccesses | Assets/Scripts/BehaviorTree/DecoratorNode.cs:33-42 | m child successes from count c raise the count to c+m; the result is Running until the n-th success, which is Success |
| BTDecorators.RepeatStaysDone | Assets/Scripts/BehaviorTree/DecoratorNode.cs:25-29 | once the count is reached every tick succeeds without touching the child or the count |
| BTDecorators.RetryTick | Assets/Scripts/BehaviorTree/DecoratorNode.cs:106-144 | Success exactly on child success; Failure exactly on the failure that reaches maxRetries; a terminal result clears the counter, a retried failure raises it |
| BTDecorators.RetryRun | Assets/Scripts/BehaviorTree/DecoratorNode.cs:106-144 | successive ticks yield one result per child result |
| BTDecorators.RetryGivesUpAfterMax | Assets/Scripts/BehaviorTree/DecoratorNode.cs:125-139 | a run of failures is Running until the maxRetries-th, which is Failure and clears the counter |
| BTDecorators.TimeoutTick | Assets/Scripts/BehaviorTree/DecoratorNode.cs:216-248 | the start time is taken on the first tick; the child is evaluated exactly while elapsed < timeout, otherwise the result is Failure and the timer stops |
| BTDecorators.TimeoutRun | Assets/Scripts/BehaviorTree/DecoratorNode.cs:216-248 | successive ticks yield one result per child result |
| BTDecorators.TimeoutHoldsStart | Assets/Scripts/BehaviorTree/DecoratorNode.cs:218-242 | while the child keeps running within the timeout, the start time is kept and the child's results pass through |
| BTDecorators.DelayTick | Assets/Scripts/BehaviorTree/DecoratorNode.cs:268-298 | the child is evaluated only once elapsed >= delay (or after completion); before that the result is Running |
| BTDecorators.DelayRun | Assets/Scripts/BehaviorTree/DecoratorNode.cs:268-298 | successive ticks yield one result per child result |
| BTDecorators.DelayWaits | Assets/Scripts/BehaviorTree/DecoratorNode.cs:276-292 | before the delay has elapsed every tick is Running and the child is not evaluated |
| BTDecorators.DelayTransparentOnceComplete | Assets/Scripts/BehaviorTree/DecoratorNode.cs:283-297 | once complete, Delay passes every child result through |
| BTDecorators.Repeat.constructor | Assets/Scripts/BehaviorTree/DecoratorNode.cs:12-15 | a new Repeat has count 0 and the given repeat count |
| BTDecorators.Repeat.Evaluate | Assets/Scripts/BehaviorTree/DecoratorNode.cs:17-57 | a missing child gives Failure; otherwise result and count follow the as-written RepeatTickAsWritten and the child is reset except when the count was already reached |
| BTDecorators.Repeat.Reset | Assets/Scripts/BehaviorTree/DecoratorNode.cs:59-63 | the count returns to 0; node and child are Running |
| BTDecorators.Inverter.constructor | Assets/Scripts/BehaviorTree/DecoratorNode.cs:66 | a new Inverter has no child |
| BTDecorators.Inverter.Evaluate | Assets/Scripts/BehaviorTree/DecoratorNode.cs:68-92 | a missing child gives Failure; otherwise the inverted result, and the child is reset |
| BTDecorators.Retry.constructor | Assets/Scripts/BehaviorTree/DecoratorNode.cs:101-104 | a new Retry has no failures counted |
| BTDecorators.Retry.Evaluate | Assets/Scripts/BehaviorTree/DecoratorNode.cs:106-144 | a missing child gives Failure; otherwise result and counter follow RetryTick, and a retried failure resets the child |
| BTDecorators.Retry.Reset | Assets/Scripts/BehaviorTree/DecoratorNode.cs:146-150 | the counter returns to 0; node and child are Running |
| BTDecorators.ForceSuccess.constructor | Assets/Scripts/BehaviorTree/DecoratorNode.cs:153 | a new ForceSuccess has no child |
| BTDecorators.ForceSuccess.Evaluate | Assets/Scripts/BehaviorTree/DecoratorNode.cs:155-175 | a missing child gives Success; otherwise ForceSuccessResult of the child's result |
| BTDecorators.ForceFailure.constructor | Assets/Scripts/BehaviorTree/DecoratorNode.cs:179 | a new ForceFailure has no child |
| BTDecorators.ForceFailure.Evaluate | Assets/Scripts/BehaviorTree/DecoratorNode.cs:181-201 | a missing child gives Failure; otherwise ForceFailureResult of the child's result |
| BTDecorators.Timeout.constructor | Assets/Scripts/BehaviorTree/DecoratorNode.cs:211-214 | a new Timeout is not running |
| BTDecorators.Timeout.Evaluate | Assets/Scripts/BehaviorTree/DecoratorNode.cs:216-248 | a missing child gives Failure; otherwise result, timer and start time follow TimeoutTick, and a timed-out child is reset |
| BTDecorators.Timeout.Reset | Assets/Scripts/BehaviorTree/DecoratorNode.cs:250-254 | the timer stops; node and child are Running |
| BTDecorators.Delay.constructor | Assets/Scripts/BehaviorTree/DecoratorNode.cs:263-266 | a new Delay has no start time and is not complete |
| BTDecorators.Delay.Evaluate | Assets/Scripts/BehaviorTree/DecoratorNode.cs:268-298 | a missing child gives Failure; otherwise result, completion and start time follow DelayTick |
| BTDecorators.Delay.Reset | Assets/Scripts/BehaviorTree/DecoratorNode.cs:300-305 | start time and completion are cleared; node and child are Running |
| BTDecorators.UntilSuccess.constructor | Assets/Scripts/BehaviorTree/DecoratorNode.cs:308 | a new UntilSuccess has no child |
| BTDecorators.UntilSuccess.Evaluate | Assets/Scripts/BehaviorTree/DecoratorNode.cs:310-338 | a missing child gives Failure; a child failure becomes Running with a child reset |
| BTDecorators.UntilFailure.constructor | Assets/Scripts/BehaviorTree/DecoratorNode.cs:341 | a new UntilFailure has no child |
| BTDecorators.UntilFailure.Evaluate | Assets/Scripts/BehaviorTree/DecoratorNode.cs:343-371 | a missing child gives Success; a child success becomes Running with a child reset |
| BTRandom.Clamp01 | Assets/Scripts/BehaviorTree/RandomDecorator.cs:13 | the probability is clamped into [0, 1] and kept when already inside |
| BTRandom.NeverPassesAtZero | Assets/Scripts/BehaviorTree/RandomDecorator.cs:13-20 | with probability <= 0 no draw in (0, 1] passes the gate |
| BTRandom.AlwaysPassesAtOne | Assets/Scripts/BehaviorTree/RandomDecorator.cs:13-20 | with probability >= 1 every draw up to 1 passes the gate |
| BTRandom.RandomDecorator.constructor | Assets/Scripts/BehaviorTree/RandomDecorator.cs:11-15 | the stored probability is the clamped one |
| BTRandom.RandomDecorator.Evaluate | Assets/Scripts/BehaviorTree/RandomDecorator.cs:17-30 | a passing draw gives the child's result; a failing one gives Failure and leaves the child untouched |
| BTRandom.RandomDecorator.Reset | Assets/Scripts/BehaviorTree/RandomDecorator.cs:32-36 | node and child are Running |
| BTTree.Default | Assets/Scripts/BehaviorTree/BehaviorTree.cs:16 | the default of every type is a value of that type |
| BTTree.GetValue | Assets/Scripts/BehaviorTree/BehaviorTree.cs:12-17 | a found value unboxes to the requested type and is the stored one; an absent key reads as the default |
| BTTree.SetValue | Assets/Scripts/BehaviorTree/BehaviorTree.cs:19-22 | the key is added or overwritten with the value; the other entries are unchanged |
| BTTree.HasKey | Assets/Scripts/BehaviorTree/BehaviorTree.cs:24-27 | without the key, every read yields the default of its type |
| BTTree.HasValue | Assets/Scripts/BehaviorTree/BehaviorTree.cs:29-36 | HasValue holds exactly when the key exists and reads back at that type as a non-null value |
| BTTree.GetAfterSet | Assets/Scripts/BehaviorTree/BehaviorTree.cs:12-22 | Get after Set on the same key returns the value set; every other key reads as before |
| BTTree.AbsentReadsDefault | Assets/Scripts/BehaviorTree/BehaviorTree.cs:14-16 | an absent key reads as the type's default and has no value |
| BTTree.HasValueReads | Assets/Scripts/BehaviorTree/BehaviorTree.cs:24-36 | HasValue implies HasKey and a non-null value that Get returns |
| BTTree.GetFailsIff | Assets/Scripts/BehaviorTree/BehaviorTree.cs:14-15 | Get fails exactly when the key holds a value of another type (the invalid cast) |
| BTTree.Blackboard.constructor | Assets/Scripts/BehaviorTree/BehaviorTree.cs:10 | a new blackboard is empty |
| BTTree.Blackboard.Set | Assets/Scripts/BehaviorTree/BehaviorTree.cs:19-22 | Set adds or overwrites the key; other entries are unchanged |
| BTTree.BehaviorTree.constructor | Assets/Scripts/BehaviorTree/BehaviorTree.cs:41 | a new tree has no root |
| BTTree.BehaviorTree.SetRootNode | Assets/Scripts/BehaviorTree/BehaviorTree.cs:58-61 | the root becomes the given node |
| BTTree.BehaviorTree.Update | Assets/Scripts/BehaviorTree/BehaviorTree.cs:48-54 | with a root, the tick evaluates it; with none, nothing is touched |
| BTWeighted.SumDivided | Assets/Scripts/Attacker/AttackerAI/Composites/WeightedSelector.cs:21-24 | dividing every weight by a total divides their sum by it |
| BTWeighted.NormalisedSumToOne | Assets/Scripts/Attacker/AttackerAI/Composites/WeightedSelector.cs:14-24 | after normalisation the weights sum to 1 |
| BTWeighted.PositiveSum | Assets/Scripts/Attacker/AttackerAI/Composites/WeightedSelector.cs:15-19 | positive weights have a positive total, so normalisation is defined |
| BTWeighted.PickFromSpec | Assets/Scripts/Attacker/AttackerAI/Composites/WeightedSelector.cs:53-62 | the cumulative scan from i returns the first index whose cumulative weight reaches the draw, or the last child |
| BTWeighted.PickIsFirstReaching | Assets/Scripts/Attacker/AttackerAI/Composites/WeightedSelector.cs:48-63 | the pick is the first index whose cumulative weight reaches the draw, or the last child when none does |
| BTWeighted.Pick | Assets/Scripts/Attacker/AttackerAI/Composites/WeightedSelector.cs:48-63 | with children the pick is a valid child index; with none it is -1 |
| BTWeighted.PickFrom | Assets/Scripts/Attacker/AttackerAI/Composites/WeightedSelector.cs:52-62 | the walk from position i yields an index at least i below the child count, or the last child; -1 exactly when there are no children |
| BTWeighted.Total | Assets/Scripts/Attacker/AttackerAI/Composites/WeightedSelector.cs:15-19 | the loop computes the sum of the weights |
| BTWeighted.Normalise | Assets/Scripts/Attacker/AttackerAI/Composites/WeightedSelector.cs:21-24 | every weight is divided in place by the old total |
| BTWeighted.WeightedSelector.constructor | Assets/Scripts/Attacker/AttackerAI/Composites/WeightedSelector.cs:10-25 | the weights array is normalised in place and nothing is selected |
| BTWeighted.WeightedSelector.SelectWeightedIndex | Assets/Scripts/Attacker/AttackerAI/Composites/WeightedSelector.cs:48-63 | the loop returns the cumulative pick for the draw |
| BTWeighted.WeightedSelector.Evaluate | Assets/Scripts/Attacker/AttackerAI/Composites/WeightedSelector.cs:27-46 | a new pick only when nothing is selected; the result is the selected child's; the selection is kept while it runs and cleared on a terminal result; an out-of-range pick is an error result; every child other than the evaluated one keeps its state |
| BTWeighted.WeightedSelector.Reset | Assets/Scripts/BehaviorTree/Node.cs:52-59 | the inherited composite reset: node and children Running |
| MovementUtils.GetMoveDirection | Assets/Scripts/Utils/MovementUtils.cs:9-25 | None exactly for magnitude < 0.1; otherwise Right/Left by the sign of x when abs(x) > abs(z), else Forward/Backward by the sign of z |
| MovementUtils.MoveDirectionMatchesQuantiser | Assets/Scripts/Utils/MovementUtils.cs:17-24 | for a non-negligible vector the enum agrees with the controllers' GetClosest4Direction axis |
| Directions.Closest4Direction | Assets/Scripts/Defender/DefenderAI/Actions/CombatActions.cs:160-173 | the result is one of the four unit axes: the axis of the larger component, a tie going to z, a zero component counting as negative |
| Directions.Closest4IsClosest | Assets/Scripts/Attacker/AttackerController.cs:238-251 | no axis has a larger dot product with the vector than the chosen one |
| Directions.Closest4ScaleInvariant | Assets/Scripts/Attacker/AttackerController.cs:238-251 | quantising ignores the vector's length |
| Directions.AwayAxisNeverToward | Assets/Scripts/Defender/DefenderAI/Actions/CombatActions.cs:151-155 | the axis chosen for the away direction never points toward the target |
| Directions.CircleDirection | Assets/Scripts/Defender/DefenderAI/Actions/CombatActions.cs:197-209 | CircleTarget moves right or left, each already one of the four axes |
| Directions.CircleAlternates | Assets/Scripts/Defender/DefenderAI/Actions/CombatActions.cs:208-212 | each circling step reverses the previous one and every second step repeats it |
| CombatCommon.CooldownRemaining | Assets/Scripts/Attacker/AttackerController.cs:98-100 | never negative; zero exactly when the cooldown has elapsed; otherwise the time left until last + cooldown |
| CombatCommon.DamagedHP | Assets/Scripts/Attacker/AttackerController.cs:467 | HP after damage is clamped at 0, never grows, and is 0 exactly when the damage reaches the HP |
| CombatCommon.HPFraction | Assets/Scripts/Attacker/AttackerController.cs:89 | HPPercentage is HP over maxHP, within [0, 1] for HP within [0, maxHP] |
| LeafRules.Outcome | Assets/Scripts/Attacker/AttackerAI/Conditions/CombatConditions.cs:16-253 | a condition node only returns Success or Failure, Success exactly when the condition holds |
| LeafRules.IsInRange | Assets/Scripts/Attacker/AttackerAI/Conditions/CombatConditions.cs:7-30 | a condition result; without a target it fails; with one it succeeds exactly at a distance up to the range |
| LeafRules.IsFarFromTarget | Assets/Scripts/Attacker/AttackerAI/Conditions/CombatConditions.cs:184-209 | a condition result; without both ends it fails; otherwise it succeeds exactly beyond the limit |
| LeafRules.RandomChance | Assets/Scripts/Attacker/AttackerAI/Conditions/CombatConditions.cs:113-128 | succeeds exactly when the draw is at most the probability; with a draw in [0, 1], always from probability 1 and never below 0 |
| LeafRules.FarIsComplementOfInRange | Assets/Scripts/Defender/DefenderAI/Conditions/CombatConditions.cs:150-151 | with a distance, IsFarFromTarget is the exact complement of IsInRange; without one both fail |
| LeafRules.LatchFailsOnlyBeforeStart | Assets/Scripts/Defender/DefenderAI/Actions/CombatActions.cs:23-55 | a started action never fails; Failure happens exactly when not started and the gate is closed, and leaves the latch clear |
| LeafRules.Decide | Assets/Scripts/Defender/DefenderAI/Actions/CombatActions.cs:23-55 | an unstarted latch starts exactly when the gate is open and refuses otherwise; a started one waits exactly while busy and finishes otherwise |
| LeafRules.Decisions | Assets/Scripts/Defender/DefenderAI/Actions/CombatActions.cs:23-55 | successive ticks of the latch yield one decision per observation |
| LeafRules.EverySuccessFollowsAStart | Assets/Scripts/Defender/DefenderAI/Actions/CombatActions.cs:23-55 | every Success is preceded by the tick that started the action, with only Running ticks between |
| SwordHitboxModel.Enable | Assets/Scripts/Combat/SwordHitbox.cs:46-58 | enabling an inactive box arms it with a cleared latch; an active box is left as it is |
| SwordHitboxModel.Disable | Assets/Scripts/Combat/SwordHitbox.cs:60-71 | disabling makes the box inactive and keeps the latch |
| SwordHitboxModel.Trigger | Assets/Scripts/Combat/SwordHitbox.cs:73-150 | a contact strikes exactly when the box is active, not yet latched, not the own root, and an agent is found; an attacker wins over a defender; the box stays active and latches on a strike |
| SwordHitboxModel.AtMostOneStrikePerActivation | Assets/Scripts/Combat/SwordHitbox.cs:103-104 | any sequence of contacts strikes at most once per activation, and not at all once latched |
| SwordHitboxModel.InactiveNeverStrikes | Assets/Scripts/Combat/SwordHitbox.cs:76 | an inactive box strikes nothing |
| SwordHitboxModel.EnableActiveKeepsLatch | Assets/Scripts/Combat/SwordHitbox.cs:48 | re-enabling an active, latched box does not re-arm it |
| SwordHitboxModel.SwordHitbox.constructor | Assets/Scripts/Combat/SwordHitbox.cs:10-13 | a new box is inactive and unlatched, with damage 30 |
| SwordHitboxModel.SwordHitbox.EnableHitbox | Assets/Scripts/Combat/SwordHitbox.cs:46-58 | the box's state becomes Enable of the old one |
| SwordHitboxModel.SwordHitbox.DisableHitbox | Assets/Scripts/Combat/SwordHitbox.cs:60-71 | the box's state becomes Disable of the old one |
| SwordHitboxModel.SwordHitbox.SetDamage | Assets/Scripts/Combat/SwordHitbox.cs:153-156 | the damage becomes the given value |
| SwordHitboxModel.SwordHitbox.Latch | Assets/Scripts/Combat/SwordHitbox.cs:73-150 | the box's state and the strike are those of Trigger |
| SwordStrike.HitAttacker | Assets/Scripts/Combat/SwordHitbox.cs:88-116 | the latch decides the strike; a strike applies the attacker's TakeDamage with the box's damage, otherwise the attacker is unchanged; when the box is not one of the victim's own, the victim's hitboxes are unchanged too |
| SwordStrike.HitDefender | Assets/Scripts/Combat/SwordHitbox.cs:118-147 | the latch decides the strike; a strike applies the defender's TakeDamage and, on a block-stun, stuns the defender's target attacker; when the box belongs to neither agent, both agents' hitboxes are unchanged too |
| CombatStatsModel.RatioBounds | Assets/Scripts/CombatStats.cs:58-61 | a part over a positive whole lies in [0, 1] |
| CombatStatsModel.SuccessRate | Assets/Scripts/CombatStats.cs:58-61 | 0 without attempts; a percentage in [0, 100] when successes do not exceed attempts; 100 when all succeed |
| CombatStatsModel.PerCount | Assets/Scripts/CombatStats.cs:62-67 | 0 without hits or attempts; otherwise the total divided by the count |
| CombatStatsModel.TotalDefensiveActions | Assets/Scripts/CombatStats.cs:65 | never negative for consistent counters |
| CombatStatsModel.AttackToDefenseRatio | Assets/Scripts/CombatStats.cs:66 | float.MaxValue without defensive actions; otherwise attacks over defensive actions |
| CombatStatsModel.HandlersKeepConsistent | Assets/Scripts/Attacker/AttackerController.cs:580-648 | every statistics handler keeps the counters consistent (successes and failures never exceed attempts) and counts one attempt |
| CombatStatsModel.RatesArePercentages | Assets/Scripts/CombatStats.cs:58-61 | for consistent counters every success rate lies in [0, 100] |
| CombatStatsModel.CombatStats.constructor | Assets/Scripts/CombatStats.cs:8-30 | new statistics are all zero |
| CombatStatsModel.CombatStats.Reset | Assets/Scripts/CombatStats.cs:33-55 | every counter and total becomes zero |
| CombatStatsModel.CombatStats.AttackSuccessRate | Assets/Scripts/CombatStats.cs:58 | 0 without attempts; in [0, 100] for consistent counters; 100 when every attack hit |
| CombatStatsModel.CombatStats.BlockSuccessRate | Assets/Scripts/CombatStats.cs:59 | 0 without attempts; in [0, 100] for consistent counters; 100 when every block succeeded |
| CombatStatsModel.CombatStats.DodgeSuccessRate | Assets/Scripts/CombatStats.cs:60 | 0 without attempts; in [0, 100] for consistent counters; 100 when every dodge succeeded |
| CombatStatsModel.CombatStats.KickSuccessRate | Assets/Scripts/CombatStats.cs:61 | 0 without attempts; in [0, 100] for consistent counters; 100 when every kick went through |
| CombatStatsModel.CombatStats.AverageDamagePerHit | Assets/Scripts/CombatStats.cs:62 | 0 without hits; otherwise, times the hits, the damage dealt |
| CombatStatsModel.CombatStats.EfficiencyScore | Assets/Scripts/CombatStats.cs:67 | 0 without attempts; otherwise, times the attempts, the damage dealt |
| CombatStatsModel.CombatStats.OnAttackAttempt | Assets/Scripts/Attacker/AttackerController.cs:580-595 | the counters become those of RecordAttackAttempt: one attempt, a hit with its damage or a miss |
| CombatStatsModel.CombatStats.OnBlockAttempt | Assets/Scripts/Attacker/AttackerController.cs:597-607 | one block attempt, counted as success or failure |
| CombatStatsModel.CombatStats.OnStunCaused | Assets/Scripts/Attacker/AttackerController.cs:609-619 | a caused stun and a taken stun are counted for the named agents |
| CombatStatsModel.CombatStats.OnDodgeAttempt | Assets/Scripts/Attacker/AttackerController.cs:621-629 | one dodge attempt, and a success when it succeeded |
| CombatStatsModel.CombatStats.OnDamageTaken | Assets/Scripts/Attacker/AttackerController.cs:631-637 | the damage is added to the damage taken |
| CombatStatsModel.CombatStats.OnKickAttempt | Assets/Scripts/Attacker/AttackerController.cs:639-647 | one kick attempt, and a kick through defence when it succeeded |
| AttackerRules.Stop | Assets/Scripts/Attacker/AttackerController.cs:201-211 | stopping clears the move direction and the velocity, keeping the yaw |
| AttackerRules.Move | Assets/Scripts/Attacker/AttackerController.cs:176-199 | ignored while busy; a non-negligible direction moves along its closest axis at moveSpeed; a negligible one stops |
| AttackerRules.Attack | Assets/Scripts/Attacker/AttackerController.cs:291-303 | starts exactly when CanAttack holds: swinging, sword armed, attempt counted; otherwise nothing changes |
| AttackerRules.KickAttack | Assets/Scripts/Attacker/AttackerController.cs:305-317 | starts exactly when CanAttack holds: kicking, body turned by 80 degrees, kick attempt counted; otherwise nothing changes |
| AttackerRules.Block | Assets/Scripts/Attacker/AttackerController.cs:377-386 | starts exactly when CanBlock holds: blocking, state Blocking, attempt counted; otherwise nothing changes |
| AttackerRules.Dodge | Assets/Scripts/Attacker/AttackerController.cs:388-402 | the attempt is always counted; it starts exactly when CanDodge holds, invincible and dodging |
| AttackerRules.Update | Assets/Scripts/Attacker/AttackerController.cs:152-174 | a stun that begins this frame is counted once; the stun flag clears once the stun has ended |
| AttackerRules.OnDeath | Assets/Scripts/Attacker/AttackerController.cs:481-489 | death stops the coroutines and clears block, dodge and invincibility, but keeps isAttacking and the hitboxes as they were |
| AttackerRules.TakeDamage | Assets/Scripts/Attacker/AttackerController.cs:457-479 | no effect while invincible, dead or blocking; otherwise HP = max(0, HP - damage), the damage is recorded, and reaching 0 runs OnDeath |
| AttackerRules.ResetHPAsWritten | Assets/Scripts/Attacker/AttackerController.cs:492-519 | as written: full HP, all flags, stun and stamps cleared, stopped, no coroutine, but the hitboxes untouched |
| AttackerRules.ResetHP | Assets/Scripts/Attacker/AttackerController.cs:492-519 | the corrected reset: as written, and both hitboxes disabled |
| AttackerRules.Stun | Assets/Scripts/Attacker/AttackerController.cs:572-577 | after Stun(now, d) the agent is stunned exactly at times before now + d; nothing else changes |
| AttackerRules.InitialCoherent | Assets/Scripts/Attacker/AttackerController.cs:104-127 | the agent as Start leaves it satisfies the invariant |
| AttackerRules.CoherentUnderTick | Assets/Scripts/Attacker/AttackerController.cs:319-455 | advancing the coroutines preserves the invariant (HP within [0, maxHP]; flags, hitboxes and coroutine agree) |
| AttackerRules.CoherentUnderActions | Assets/Scripts/Attacker/AttackerController.cs:291-402 | Attack, KickAttack, Block and Dodge preserve the invariant |
| AttackerRules.CoherentUnderHits | Assets/Scripts/Attacker/AttackerController.cs:457-577 | for non-negative damage, TakeDamage, ResetHP, Stun and Move preserve the invariant |
| AttackerRules.ArmedOnlyWhileSwinging | Assets/Scripts/Attacker/AttackerController.cs:321-373 | in a live agent the sword is armed only while attacking and the kick box only while kicking |
| AttackerRules.StaleSwordAfterResetAsWritten | Assets/Scripts/Attacker/AttackerController.cs:481-519 | as written, a death mid-swing followed by ResetHP leaves an idle agent with an armed sword that still strikes |
| AttackerRules.ResetDisarms | Assets/Scripts/Attacker/AttackerController.cs:492-519 | after the corrected reset neither hitbox strikes, whatever the contacts |
| AttackerRules.GatesClosedWhileBusy | Assets/Scripts/Attacker/AttackerController.cs:253-269 | while busy or dead every gate is closed, and Attack, KickAttack and Block return false with no state change |
| AttackerRules.CooldownMatchesGate | Assets/Scripts/Attacker/AttackerController.cs:98-269 | a cooldown's remaining time is zero exactly when it has elapsed, which for a live idle agent is exactly CanAttack |
| AttackerRules.ResetMakesReady | Assets/Scripts/Attacker/AttackerController.cs:505-508 | the -1000 stamps make every gate open right after a reset at any non-negative time |
| AttackerRules.DeathIsFinal | Assets/Scripts/Attacker/AttackerController.cs:459 | a dead agent takes no further damage |
| AttackerRules.AttackSpacingStep | Assets/Scripts/Attacker/AttackerController.cs:319-343 | one tick preserves the spacing invariant of an attack started at t0 |
| AttackerRules.NextAttackNotBefore | Assets/Scripts/Attacker/AttackerController.cs:334-342 | after an attack started at t0, the gate reopens no earlier than t0 + attackDuration + attackCooldown |
| AttackerRules.KickFacingStep | Assets/Scripts/Attacker/AttackerController.cs:346-375 | one tick preserves the kick facing invariant |
| AttackerRules.KickRestoresFacing | Assets/Scripts/Attacker/AttackerController.cs:348-371 | the kick keeps the body turned by 80 degrees while it runs and restores the original yaw when it ends |
| AttackerRules.KickStartsTurned | Assets/Scripts/Attacker/AttackerController.cs:346-349 | a started kick satisfies the kick facing invariant for its facing |
| AttackerRules.DodgeCoverStep | Assets/Scripts/Attacker/AttackerController.cs:424-455 | one tick preserves the dodge cover invariant |
| AttackerRules.DodgeProtects | Assets/Scripts/Attacker/AttackerController.cs:440-451 | the agent stays invincible through the dodge movement and the 0.1 s grace after it |
| AttackerRules.DodgeStartsCovered | Assets/Scripts/Attacker/AttackerController.cs:388-427 | a started dodge satisfies the dodge cover invariant |
| AttackerControllerModel.AttackerController.constructor | Assets/Scripts/Attacker/AttackerController.cs:104-127 | the controller starts in the Initial state with the given hitboxes |
| AttackerControllerModel.AttackerController.Move | Assets/Scripts/Attacker/AttackerController.cs:176-199 | the new state is AttackerRules.Move of the old |
| AttackerControllerModel.AttackerController.Stop | Assets/Scripts/Attacker/AttackerController.cs:201-211 | the new state is AttackerRules.Stop of the old |
| AttackerControllerModel.AttackerController.Attack | Assets/Scripts/Attacker/AttackerController.cs:291-327 | result and new state are AttackerRules.Attack |
| AttackerControllerModel.AttackerController.KickAttack | Assets/Scripts/Attacker/AttackerController.cs:305-349 | result and new state are AttackerRules.KickAttack |
| AttackerControllerModel.AttackerController.Block | Assets/Scripts/Attacker/AttackerController.cs:377-408 | result and new state are AttackerRules.Block |
| AttackerControllerModel.AttackerController.Dodge | Assets/Scripts/Attacker/AttackerController.cs:388-427 | result and new state are AttackerRules.Dodge |
| AttackerControllerModel.AttackerController.Tick | Assets/Scripts/Attacker/AttackerController.cs:152-455 | a frame: Update, then the suspended coroutine resumes; the new state is AttackerRules.Tick |
| AttackerRules.Tick | Assets/Scripts/Attacker/AttackerController.cs:152-455 | a frame leaves the HP alone, counts a stun once on the frame it begins, and remembers this frame's stun |
| AttackerRules.Resume | Assets/Scripts/Attacker/AttackerController.cs:319-455 | resuming leaves HP, statistics and stun alone; a coroutine ends only from its last wait, and the ended attack, kick, block or dodge clears its flag and stamps its cooldown at the current time (an ended attack or kick also disarms its hitbox) |
| AttackerControllerModel.AttackerController.Update | Assets/Scripts/Attacker/AttackerController.cs:152-174 | the new state is AttackerRules.Update of the old |
| AttackerControllerModel.AttackerController.Resume | Assets/Scripts/Attacker/AttackerController.cs:319-455 | the suspended coroutine advances as AttackerRules.Resume |
| AttackerControllerModel.AttackerController.AttackEnds | Assets/Scripts/Attacker/AttackerController.cs:336-343 | the swing's end: sword disabled, lastAttackTime stamped, idle |
| AttackerControllerModel.AttackerController.KickArms | Assets/Scripts/Attacker/AttackerController.cs:357-362 | the kick box is enabled after the casting delay |
| AttackerControllerModel.AttackerController.KickEnds | Assets/Scripts/Attacker/AttackerController.cs:364-375 | the kick's end: kick box disabled, yaw restored, lastAttackTime stamped, idle |
| AttackerControllerModel.AttackerController.BlockEnds | Assets/Scripts/Attacker/AttackerController.cs:415-421 | the block's end: lastBlockTime stamped, idle |
| AttackerControllerModel.AttackerController.InvincibilityEnds | Assets/Scripts/Attacker/AttackerController.cs:448-450 | invincibility clears 0.1 s after the dodge movement |
| AttackerControllerModel.AttackerController.DodgeEnds | Assets/Scripts/Attacker/AttackerController.cs:451-454 | the dodge's end: lastDodgeTime stamped, not dodging |
| AttackerControllerModel.AttackerController.TakeDamage | Assets/Scripts/Attacker/AttackerController.cs:457-479 | the new state is AttackerRules.TakeDamage of the old |
| AttackerControllerModel.AttackerController.OnDeath | Assets/Scripts/Attacker/AttackerController.cs:481-489 | the new state is AttackerRules.OnDeath of the old |
| AttackerControllerModel.AttackerController.ResetHP | Assets/Scripts/Attacker/AttackerController.cs:492-519 | the corrected reset: AttackerRules.ResetHP (the as-written reset and a disarm) |
| AttackerControllerModel.AttackerController.ResetState | Assets/Scripts/Attacker/AttackerController.cs:492-519 | the reset as written: AttackerRules.ResetHPAsWritten |
| AttackerControllerModel.AttackerController.Disarm | Assets/Scripts/Attacker/AttackerController.cs:336-367 | both hitboxes are disabled |
| AttackerControllerModel.AttackerController.Stun | Assets/Scripts/Attacker/AttackerController.cs:572-577 | the new state is AttackerRules.Stun of the old |
| AttackerControllerModel.AttackerController.ResetStats | Assets/Scripts/Attacker/AttackerController.cs:650-653 | the statistics become zero; nothing else changes |
| DefenderRules.Stop | Assets/Scripts/Defender/DefenderController.cs:188-198 | stopping zeroes the velocity |
| DefenderRules.Move | Assets/Scripts/Defender/DefenderController.cs:163-186 | ignored while busy; a non-negligible direction moves along its closest axis at moveSpeed; a negligible one stops |
| DefenderRules.Attack | Assets/Scripts/Defender/DefenderController.cs:279-318 | starts exactly when CanAttack holds: swinging, sword armed, attempt counted; otherwise nothing changes |
| DefenderRules.Block | Assets/Scripts/Defender/DefenderController.cs:320-358 | starts exactly when CanBlock holds: blocking, movement stopped, attempt counted; otherwise nothing changes |
| DefenderRules.Dodge | Assets/Scripts/Defender/DefenderController.cs:331-373 | the attempt is always counted; it starts exactly when CanDodge holds, invincible and dodging |
| DefenderRules.Update | Assets/Scripts/Defender/DefenderController.cs:143-160 | a set justFinishedBlocking schedules its clearing 0.01 s later, once |
| DefenderRules.OnDeath | Assets/Scripts/Defender/DefenderController.cs:437-445 | death stops every coroutine and clears block, dodge and invincibility, keeping isAttacking and the sword |
| DefenderRules.TakeDamage | Assets/Scripts/Defender/DefenderController.cs:401-431 | no effect while invincible or dead; a block against anything but a kick keeps HP, counts one stun caused and stuns the attacker; otherwise HP = max(0, HP - damage) |
| DefenderRules.ResetHPAsWritten | Assets/Scripts/Defender/DefenderController.cs:447-472 | as written: full HP, all flags including justFinishedBlocking and the stamps cleared, no coroutine, the sword untouched |
| DefenderRules.ResetHP | Assets/Scripts/Defender/DefenderController.cs:447-472 | the corrected reset: as written, and the sword disabled |
| DefenderRules.InitialCoherent | Assets/Scripts/Defender/DefenderController.cs:105-130 | the agent as Start leaves it satisfies the invariant |
| DefenderRules.CoherentUnderTick | Assets/Scripts/Defender/DefenderController.cs:143-398 | advancing the coroutines preserves the invariant |
| DefenderRules.CoherentUnderActions | Assets/Scripts/Defender/DefenderController.cs:279-345 | Attack, Block and Dodge preserve the invariant |
| DefenderRules.CoherentUnderHits | Assets/Scripts/Defender/DefenderController.cs:163-472 | for non-negative damage, TakeDamage, ResetHP and Move preserve the invariant |
| DefenderRules.DodgeAbsorbsEveryHit | Assets/Scripts/Defender/DefenderController.cs:371-403 | the defender is invincible for the whole dodge, so no hit lands and no stun is caused |
| DefenderRules.BlockCounters | Assets/Scripts/Defender/DefenderController.cs:405-419 | blocking a sword keeps HP and stuns; blocking a kick applies the damage and does not stun |
| DefenderRules.StaleSwordAfterResetAsWritten | Assets/Scripts/Defender/DefenderController.cs:437-472 | as written, a death mid-swing followed by ResetHP leaves an idle defender whose armed sword still strikes |
| DefenderRules.ResetDisarms | Assets/Scripts/Defender/DefenderController.cs:447-472 | after the corrected reset the sword strikes nothing |
| DefenderRules.JustFinishedBlockingIsBrief | Assets/Scripts/Defender/DefenderController.cs:150-366 | the block's end sets justFinishedBlocking, and it is clear again once 0.01 s have passed over the next frames |
| DefenderRules.GatesClosedWhileBusy | Assets/Scripts/Defender/DefenderController.cs:241-257 | while busy or dead every gate is closed, and Attack and Block return false with no state change |
| DefenderRules.ResetMakesReady | Assets/Scripts/Defender/DefenderController.cs:459-462 | the -1000 stamps make every gate open right after a reset |
| DefenderRules.BlockSpacingStep | Assets/Scripts/Defender/DefenderController.cs:347-367 | one tick preserves the block spacing invariant |
| DefenderRules.NextBlockNotBefore | Assets/Scripts/Defender/DefenderController.cs:359-366 | after a block started at t0, the gate reopens no earlier than t0 + 1.5 + blockCooldown |
| DefenderControllerModel.DefenderController.constructor | Assets/Scripts/Defender/DefenderController.cs:105-130 | the controller starts in the Initial state with the given sword and target |
| DefenderControllerModel.DefenderController.Move | Assets/Scripts/Defender/DefenderController.cs:163-186 | the new state is DefenderRules.Move of the old |
| DefenderControllerModel.DefenderController.Stop | Assets/Scripts/Defender/DefenderController.cs:188-198 | the new state is DefenderRules.Stop of the old |
| DefenderControllerModel.DefenderController.Attack | Assets/Scripts/Defender/DefenderController.cs:279-299 | result and new state are DefenderRules.Attack |
| DefenderControllerModel.DefenderController.Block | Assets/Scripts/Defender/DefenderController.cs:320-358 | result and new state are DefenderRules.Block |
| DefenderControllerModel.DefenderController.Dodge | Assets/Scripts/Defender/DefenderController.cs:331-373 | result and new state are DefenderRules.Dodge |
| DefenderControllerModel.DefenderController.Tick | Assets/Scripts/Defender/DefenderController.cs:143-398 | a frame: Update, the pending flag clear, then the action coroutine; the new state is DefenderRules.Tick |
| DefenderRules.Tick | Assets/Scripts/Defender/DefenderController.cs:143-398 | a frame leaves HP and statistics alone, and a clearing coroutine started this frame first waits on the next |
| DefenderRules.ResumeClear | Assets/Scripts/Defender/DefenderController.cs:156-160 | only the justFinishedBlocking flag and the clear change; the clear ends exactly when its wait is over, lowering the flag |
| DefenderRules.Resume | Assets/Scripts/Defender/DefenderController.cs:293-398 | resuming leaves HP, statistics and the clear alone; a coroutine ends only from its last wait; the ended attack disarms the sword, the ended block raises justFinishedBlocking, and each stamps its cooldown |
| DefenderControllerModel.DefenderController.Update | Assets/Scripts/Defender/DefenderController.cs:143-154 | the new state is DefenderRules.Update of the old |
| DefenderControllerModel.DefenderController.ResumeClear | Assets/Scripts/Defender/DefenderController.cs:156-160 | the pending justFinishedBlocking clear advances as DefenderRules.ResumeClear |
| DefenderControllerModel.DefenderController.Resume | Assets/Scripts/Defender/DefenderController.cs:293-398 | the suspended action coroutine advances as DefenderRules.Resume |
| DefenderControllerModel.DefenderController.AttackEnds | Assets/Scripts/Defender/DefenderController.cs:308-317 | the swing's end: sword disabled, lastAttackTime stamped, idle |
| DefenderControllerModel.DefenderController.BlockEnds | Assets/Scripts/Defender/DefenderController.cs:362-366 | the block's end: justFinishedBlocking set, lastBlockTime stamped, idle |
| DefenderControllerModel.DefenderController.DodgeEnds | Assets/Scripts/Defender/DefenderController.cs:393-397 | the dodge's end: lastDodgeTime stamped, dodging and invincibility cleared together |
| DefenderControllerModel.DefenderController.TakeDamage | Assets/Scripts/Defender/DefenderController.cs:401-435 | the defender's new state is DefenderRules.TakeDamage; on a block-stun the target attacker is stunned for stunDuration, otherwise unchanged |
| DefenderControllerModel.DefenderController.OnDeath | Assets/Scripts/Defender/DefenderController.cs:437-445 | the new state is DefenderRules.OnDeath of the old |
| DefenderControllerModel.DefenderController.ResetHP | Assets/Scripts/Defender/DefenderController.cs:447-472 | the corrected reset: DefenderRules.ResetHP |
| DefenderControllerModel.DefenderController.ResetState | Assets/Scripts/Defender/DefenderController.cs:447-472 | the reset as written: DefenderRules.ResetHPAsWritten |
| DefenderControllerModel.DefenderController.ResetStats | Assets/Scripts/Defender/DefenderController.cs:512-516 | the statistics become zero; nothing else changes |
| AttackerActions.GetClosest4Direction | Assets/Scripts/Attacker/AttackerAI/Actions/CombatActions.cs:160-176 | the loop returns the first axis, in the order forward, back, left, right, whose dot product is maximal |
| AttackerActions.FirstMaximalAgreesWithClosest4 | Assets/Scripts/Attacker/AttackerAI/Actions/CombatActions.cs:160-176 | for a non-zero vector the dot-product scan picks the same axis as the controllers' quantiser; for the zero vector it picks forward where the quantiser picks back |
| AttackerActions.FirstMaximalUnique | Assets/Scripts/Attacker/AttackerAI/Actions/CombatActions.cs:160-176 | the first maximal axis is unique |
| AttackerActions.AttackAction.constructor | Assets/Scripts/Attacker/AttackerAI/Actions/CombatActions.cs:6-10 | a new node is Running and not started |
| AttackerActions.AttackAction.Evaluate | Assets/Scripts/Attacker/AttackerAI/Actions/CombatActions.cs:12-59 | a missing controller or target gives Failure; otherwise the latch decision: start the attack through the gate, wait while attacking, succeed and clear the latch |
| AttackerActions.AttackAction.Reset | Assets/Scripts/Attacker/AttackerAI/Actions/CombatActions.cs:61-65 | the latch is cleared and the node is Running |
| AttackerActions.BlockAction.constructor | Assets/Scripts/Attacker/AttackerAI/Actions/CombatActions.cs:69-73 | a new node is Running and not started |
| AttackerActions.BlockAction.Evaluate | Assets/Scripts/Attacker/AttackerAI/Actions/CombatActions.cs:75-111 | a missing controller gives Failure; otherwise the latch over CanBlock and isBlocking: Running while blocking, Success once the block ends |
| AttackerActions.BlockAction.Reset | Assets/Scripts/Attacker/AttackerAI/Actions/CombatActions.cs:113-117 | the latch is cleared and the node is Running |
| AttackerActions.BlockActionWaitsForGuard | Assets/Scripts/Attacker/AttackerAI/Actions/CombatActions.cs:96-107 | a started block waits exactly while the agent blocks, in particular during the block coroutine |
| AttackerActions.StartStartsTheAction | Assets/Scripts/Attacker/AttackerAI/Actions/CombatActions.cs:23-94 | a Start decision is an accepted Attack or Block that leaves the agent attacking or blocking |
| AttackerActions.DodgeAway | Assets/Scripts/Attacker/AttackerAI/Actions/CombatActions.cs:141-158 | Failure without controller or target; otherwise it dodges along the first maximal axis away from the target, and succeeds exactly when Dodge returns true |
| AttackerActions.CircleTarget.constructor | Assets/Scripts/Attacker/AttackerAI/Actions/CombatActions.cs:198-203 | circling starts with direction 0 |
| AttackerActions.CircleTarget.Evaluate | Assets/Scripts/Attacker/AttackerAI/Actions/CombatActions.cs:205-216 | Running, moving along the current direction and switching to the other one |
| AttackerActions.MoveToTarget.constructor | Assets/Scripts/Attacker/AttackerAI/Actions/CombatActions.cs:220-222 | a new node is Running |
| AttackerActions.MoveToTarget.Evaluate | Assets/Scripts/Attacker/AttackerAI/Actions/CombatActions.cs:224-246 | Success with Stop within the stop distance, otherwise Running while moving toward the target |
| AttackerActions.MoveToTarget.Reset | Assets/Scripts/Attacker/AttackerAI/Actions/CombatActions.cs:248-254 | the agent is stopped and the node is Running |
| AttackerActions.ApproachMoves | Assets/Scripts/Attacker/AttackerAI/Actions/CombatActions.cs:241-244 | an idle agent told to approach moves, with a velocity that has a positive component toward the target |
| AttackerActions.CounterAttack | Assets/Scripts/Attacker/AttackerAI/Actions/CombatActions.cs:286-308 | never Running: Success exactly when the gate lets Attack start, Failure otherwise or without controller or target |
| AttackerActions.CounterSucceedsMidSwing | Assets/Scripts/Attacker/AttackerAI/Actions/CombatActions.cs:293-308 | the counter reports Success while the swing it started is still running |
| AttackerConditions.IsLowHP | Assets/Scripts/Attacker/AttackerAI/Conditions/CombatConditions.cs:32-54 | a condition result; succeeds exactly for a controller whose HP is at most the threshold times MaxHP |
| AttackerConditions.CanAttack | Assets/Scripts/Attacker/AttackerAI/Conditions/CombatConditions.cs:56-73 | a condition result; succeeds exactly for a present, living, idle controller whose attack cooldown remaining is zero |
| AttackerConditions.CanBlock | Assets/Scripts/Attacker/AttackerAI/Conditions/CombatConditions.cs:75-92 | a condition result; succeeds exactly for a present, living, idle controller whose block cooldown remaining is zero |
| AttackerConditions.CanDodge | Assets/Scripts/Attacker/AttackerAI/Conditions/CombatConditions.cs:94-111 | a condition result; succeeds exactly for a present, living, idle controller whose dodge cooldown remaining is zero |
| AttackerConditions.IsTargetBlocking | Assets/Scripts/Attacker/AttackerAI/Conditions/CombatConditions.cs:130-155 | a condition result; fails without a defender; otherwise succeeds exactly when it blocks |
| AttackerConditions.IsTargetAttacking | Assets/Scripts/Attacker/AttackerAI/Conditions/CombatConditions.cs:157-182 | a condition result; fails without a defender; otherwise succeeds exactly when it attacks |
| AttackerConditions.IsStunned | Assets/Scripts/Attacker/AttackerAI/Conditions/CombatConditions.cs:211-234 | a condition result; succeeds exactly while a stun is set and its end time is still ahead |
| AttackerConditions.IsDead | Assets/Scripts/Attacker/AttackerAI/Conditions/CombatConditions.cs:236-252 | a condition result; succeeds exactly for a present controller at zero HP or below |
| AttackerConditions.IsStunnedAfterStun | Assets/Scripts/Attacker/AttackerAI/Conditions/CombatConditions.cs:211-234 | after Stun(t0, d), IsStunned succeeds exactly before t0 + d |
| AttackerConditions.DeadClosesEveryGate | Assets/Scripts/Attacker/AttackerAI/Conditions/CombatConditions.cs:56-253 | when IsDead succeeds CanAttack, CanBlock and CanDodge fail |
| AttackerConditions.StunLeavesGatesOpen | Assets/Scripts/Attacker/AttackerController.cs:253-269 | a stun does not close a gate that was open |
| AttackerConditions.BlockingTargetCounters | Assets/Scripts/Attacker/AttackerAI/Conditions/CombatConditions.cs:130-155 | when IsTargetBlocking succeeds, a sword hit on the live defender is absorbed and stuns |
| DefenderConditions.IsLowHP | Assets/Scripts/Defender/DefenderAI/Conditions/CombatConditions.cs:32-54 | a condition result; succeeds exactly for a controller whose HP is at most the threshold times MaxHP |
| DefenderConditions.CanAttack | Assets/Scripts/Defender/DefenderAI/Conditions/CombatConditions.cs:56-73 | a condition result; succeeds exactly for a present, living, idle controller whose attack cooldown remaining is zero |
| DefenderConditions.CanBlock | Assets/Scripts/Defender/DefenderAI/Conditions/CombatConditions.cs:75-92 | a condition result; succeeds exactly for a present, living, idle controller whose block cooldown remaining is zero |
| DefenderConditions.CanDodge | Assets/Scripts/Defender/DefenderAI/Conditions/CombatConditions.cs:94-111 | a condition result; succeeds exactly for a present, living, idle controller whose dodge cooldown remaining is zero |
| DefenderConditions.PreemptiveBlock | Assets/Scripts/Defender/DefenderAI/Conditions/CombatConditions.cs:157-198 | a condition result; succeeds exactly within the detection range when the opponent attacks or the distance is at most 2.5 |
| DefenderConditions.TacticalRetreat | Assets/Scripts/Defender/DefenderAI/Conditions/CombatConditions.cs:200-238 | a condition result; succeeds exactly with target and controller present, within the danger range and with HP at most the threshold times MaxHP |
| DefenderConditions.CounterOpportunity | Assets/Scripts/Defender/DefenderAI/Conditions/CombatConditions.cs:240-271 | a condition result; succeeds exactly with target, controller and opponent present, the opponent not attacking, and the controller living, idle and off its attack cooldown |
| DefenderConditions.IsDead | Assets/Scripts/Defender/DefenderAI/Conditions/CombatConditions.cs:273-289 | a condition result; succeeds exactly for a present controller at zero HP or below |
| DefenderConditions.TacticalRetreatIsBoth | Assets/Scripts/Defender/DefenderAI/Conditions/CombatConditions.cs:200-238 | TacticalRetreat succeeds exactly when the target is within the danger range and HP is low |
| DefenderConditions.PreemptiveBlockRange | Assets/Scripts/Defender/DefenderAI/Conditions/CombatConditions.cs:157-198 | it fails beyond the detection range; within it, it succeeds when the opponent attacks or the distance is at most 2.5 |
| DefenderConditions.DeadClosesEveryGate | Assets/Scripts/Defender/DefenderAI/Conditions/CombatConditions.cs:240-290 | when IsDead succeeds every gate fails; CounterOpportunity succeeds only when CanAttack does |
| DefenderActions.AttackAction.constructor | Assets/Scripts/Defender/DefenderAI/Actions/CombatActions.cs:6-10 | a new node is Running and not started |
| DefenderActions.AttackAction.Evaluate | Assets/Scripts/Defender/DefenderAI/Actions/CombatActions.cs:12-59 | a missing controller or target gives Failure; otherwise the latch decision over CanAttack and isAttacking |
| DefenderActions.AttackAction.Reset | Assets/Scripts/Defender/DefenderAI/Actions/CombatActions.cs:61-65 | the latch is cleared and the node is Running |
| DefenderActions.BlockAction.constructor | Assets/Scripts/Defender/DefenderAI/Actions/CombatActions.cs:69-73 | a new node is Running and not started |
| DefenderActions.BlockAction.Evaluate | Assets/Scripts/Defender/DefenderAI/Actions/CombatActions.cs:75-111 | a missing controller gives Failure; otherwise the latch decision over CanBlock and isBlocking |
| DefenderActions.BlockAction.Reset | Assets/Scripts/Defender/DefenderAI/Actions/CombatActions.cs:113-117 | the latch is cleared and the node is Running |
| DefenderActions.AttackActionWaitsForSwing | Assets/Scripts/Defender/DefenderAI/Actions/CombatActions.cs:46-55 | a started attack of a live defender waits exactly while its swing coroutine runs |
| DefenderActions.StartStartsTheAction | Assets/Scripts/Defender/DefenderAI/Actions/CombatActions.cs:23-43 | a Start decision is an accepted Attack or Block that leaves the agent attacking or blocking |
| DefenderActions.DodgeAway | Assets/Scripts/Defender/DefenderAI/Actions/CombatActions.cs:141-174 | Failure without controller or target; otherwise it dodges along the closest axis away from the target, and succeeds exactly when Dodge returns true |
| DefenderActions.CircleTarget.constructor | Assets/Scripts/Defender/DefenderAI/Actions/CombatActions.cs:195-200 | circling starts with direction 0 |
| DefenderActions.CircleTarget.Evaluate | Assets/Scripts/Defender/DefenderAI/Actions/CombatActions.cs:202-213 | Running, moving right then left on successive ticks |
| DefenderActions.MoveToTarget.constructor | Assets/Scripts/Defender/DefenderAI/Actions/CombatActions.cs:217-225 | the node keeps its stop distance |
| DefenderActions.MoveToTarget.Evaluate | Assets/Scripts/Defender/DefenderAI/Actions/CombatActions.cs:227-249 | Success with Stop within the stop distance, otherwise Running while moving toward the target |
| DefenderActions.MoveToTarget.Reset | Assets/Scripts/Defender/DefenderAI/Actions/CombatActions.cs:251-257 | the agent is stopped and the node is Running |
| DefenderActions.PatrolOrWait.constructor | Assets/Scripts/Defender/DefenderAI/Actions/CombatActions.cs:293-306 | the node keeps its ideal distance, dead zone and speed |
| DefenderActions.PatrolOrWait.Evaluate | Assets/Scripts/Defender/DefenderAI/Actions/CombatActions.cs:308-332 | Success with Stop inside the dead zone; otherwise Running, moving toward or away from the target |
| DefenderActions.PatrolSpeedIgnored | Assets/Scripts/Defender/DefenderAI/Actions/CombatActions.cs:323-328 | the speed factor has no effect, since Move normalises its direction |
| DefenderActions.TacticalRetreatAction.constructor | Assets/Scripts/Defender/DefenderAI/Actions/CombatActions.cs:474-483 | a new node is not retreating |
| DefenderActions.TacticalRetreatAction.Evaluate | Assets/Scripts/Defender/DefenderAI/Actions/CombatActions.cs:485-510 | Success with Stop once a retreat distance + 1 away; otherwise Running, retreating along the closest axis away from the target |
| DefenderActions.TacticalRetreatAction.Reset | Assets/Scripts/Defender/DefenderAI/Actions/CombatActions.cs:512-516 | the node is not retreating |
| DefenderActions.RetreatMovesAway | Assets/Scripts/Defender/DefenderAI/Actions/CombatActions.cs:500-506 | a retreating defender's velocity never has a component toward the target |
| DefenderActions.CounterNeedsAFinishedBlock | Assets/Scripts/Defender/DefenderAI/Actions/CombatActions.cs:539-592 | the counter attacks only after a finished block, with the gate open, and only once |
| DefenderActions.FinishedBlockOutlivesFailure | Assets/Scripts/Defender/DefenderAI/Actions/CombatActions.cs:550-575 | a failed attempt keeps blockCompleted, so a later tick with the gate open still counters |
| DefenderActions.CounterSucceedsAfterItsAttack | Assets/Scripts/Defender/DefenderAI/Actions/CombatActions.cs:577-590 | Success only after the started counter has finished swinging, clearing both latches |
| DefenderActions.CounterAfterBlock.constructor | Assets/Scripts/Defender/DefenderAI/Actions/CombatActions.cs:532-537 | both latches start clear |
| DefenderActions.CounterAfterBlock.Evaluate | Assets/Scripts/Defender/DefenderAI/Actions/CombatActions.cs:539-592 | a missing controller or target gives Failure; otherwise result, latches and attack follow CounterStep |
| DefenderActions.CounterAfterBlock.Reset | Assets/Scripts/Defender/DefenderAI/Actions/CombatActions.cs:594-599 | both latches are cleared |
| AgentPair.ResetViews | Assets/Scripts/CombatSimulationManager.cs:119-148 | resetting keeps which agents exist, leaves each present agent at full HP and idle, and leaves its hitboxes as they were (ResetHP as written) |
| AgentPair.ResetViewsIdempotent | Assets/Scripts/CombatSimulationManager.cs:135-145 | resetting twice is resetting once |
| AgentPair.HPOfViews | Assets/Scripts/CombatSimulationManager.cs:160-207 | the agents' HP readings agree with their states, and a missing agent has none |
| AgentPair.ResetAgents | Assets/Scripts/CombatSimulationManager.cs:135-145 | each present agent is reset with ResetHP as written, hitboxes untouched |
| AgentPair.ResetAttacker | Assets/Scripts/CombatSimulationManager.cs:135-139 | a present attacker is reset as AttackerController.ResetHP is written; the defender is unchanged |
| AgentPair.ResetDefender | Assets/Scripts/CombatSimulationManager.cs:141-145 | a present defender is reset as DefenderController.ResetHP is written; the attacker is unchanged |
| SimulationRules.Verdict | Assets/Scripts/CombatSimulationManager.cs:150-175 | the time limit is checked first and gives a draw; then both dead is a draw, one dead the other side's win, none dead no verdict |
| SimulationRules.StartNext | Assets/Scripts/CombatSimulationManager.cs:99-117 | past the total nothing changes; otherwise the combat number advances and a combat runs from now with the winner label cleared; tallies, results and schedule are kept |
| SimulationRules.EndCombat | Assets/Scripts/CombatSimulationManager.cs:177-213 | ending a combat stops it, shows the winner, appends one result and schedules one PrepareNextCombat |
| SimulationRules.CheckCombatEnd | Assets/Scripts/CombatSimulationManager.cs:150-175 | the state changes exactly when one result is appended, and then exactly one restart is scheduled |
| SimulationRules.Kept | Assets/Scripts/CombatSimulationManager.cs:215-222 | the waits still pending are below the delay, and all are kept exactly when none is over |
| SimulationRules.ResumePrepare | Assets/Scripts/CombatSimulationManager.cs:215-222 | the pending waits are those not over, advanced by dt (Kept); with no wait over nothing starts; from a state that can start, a combat starts exactly when some wait is over, and then one is in progress; tallies and results are kept |
| SimulationRules.CountsSum | Assets/Scripts/CombatSimulationManager.cs:184-195 | every result counts for exactly one of attacker, defender and draw |
| SimulationRules.FreshCoherent | Assets/Scripts/CombatSimulationManager.cs:21-32 | the initial state satisfies the invariant (counters equal the tallies of the results, results numbered in increasing order) |
| SimulationRules.EndCombatTallies | Assets/Scripts/CombatSimulationManager.cs:184-209 | EndCombat raises exactly the winner's counter by one and appends one result for the current combat |
| SimulationRules.EndCombatCoherent | Assets/Scripts/CombatSimulationManager.cs:177-213 | EndCombat of a combat in progress preserves the invariant |
| SimulationRules.StartNextCoherent | Assets/Scripts/CombatSimulationManager.cs:99-117 | StartNextCombat preserves the invariant |
| SimulationRules.ResumePrepareCoherent | Assets/Scripts/CombatSimulationManager.cs:215-222 | resuming restarts preserves the invariant |
| SimulationRules.Tick | Assets/Scripts/CombatSimulationManager.cs:43-222 | a frame appends at most one result and only while a combat runs; the schedule becomes the waits still pending plus one new restart when a result was appended; an agent reset means a combat is in progress |
| SimulationRules.ResetSimulation | Assets/Scripts/CombatSimulationManager.cs:250-261 | every counter and the results are cleared and nothing is in progress; pending restarts stay |
| SimulationRules.StartNextDebug | Assets/Scripts/CombatSimulationManager.cs:243-248 | nothing changes while a combat is in progress; otherwise StartNext; afterwards a combat is in progress exactly when one was or one could start |
| SimulationRules.CoherentUnderTick | Assets/Scripts/CombatSimulationManager.cs:43-49 | a frame preserves the invariant |
| SimulationRules.CoherentUnderCommands | Assets/Scripts/CombatSimulationManager.cs:243-261 | StartNextCombat, StartNextCombatDebug and ResetSimulation preserve the invariant |
| SimulationRules.NoCombatPastTotal | Assets/Scripts/CombatSimulationManager.cs:101-105 | no combat starts once the total is reached, and the combat number never passes it |
| SimulationRules.ResultsBounded | Assets/Scripts/CombatSimulationManager.cs:201-209 | there are never more results than combats started |
| SimulationRules.TimeLimitWinsOverDeath | Assets/Scripts/CombatSimulationManager.cs:153-157 | at the time limit the result is a time-limit draw even when an agent is dead |
| SimulationRules.MissingAgentNeverDies | Assets/Scripts/CombatSimulationManager.cs:160-161 | a missing defender counts as alive |
| SimulationRules.ResetClearsTally | Assets/Scripts/CombatSimulationManager.cs:250-261 | ResetSimulation clears every counter and the results |
| CombatSimulationModel.CombatSimulationManager.constructor | Assets/Scripts/CombatSimulationManager.cs:5-32 | the manager starts in the fresh state with the given settings |
| CombatSimulationModel.CombatSimulationManager.StartNextCombat | Assets/Scripts/CombatSimulationManager.cs:99-117 | the new state is StartNext; the agents are reset with ResetHP as written exactly when a combat starts |
| CombatSimulationModel.CombatSimulationManager.BeginCombat | Assets/Scripts/CombatSimulationManager.cs:107-116 | a combat begins: the number advances, the clock starts, the agents are reset with ResetHP as written |
| CombatSimulationModel.CombatSimulationManager.EndCombat | Assets/Scripts/CombatSimulationManager.cs:177-213 | the new state is SimulationRules.EndCombat over the agents' HP |
| CombatSimulationModel.CombatSimulationManager.CheckCombatEnd | Assets/Scripts/CombatSimulationManager.cs:150-175 | the new state is SimulationRules.CheckCombatEnd over the agents' HP |
| CombatSimulationModel.CombatSimulationManager.Tick | Assets/Scripts/CombatSimulationManager.cs:43-222 | a frame: Update, then the restart coroutines pending before it resume; the new state is SimulationRules.Tick and the agents are reset with ResetHP as written exactly when a combat starts |
| CombatSimulationModel.CombatSimulationManager.Update | Assets/Scripts/CombatSimulationManager.cs:43-49 | the check runs only while a combat is in progress |
| CombatSimulationModel.CombatSimulationManager.ResumePending | Assets/Scripts/CombatSimulationManager.cs:215-222 | the due restarts run StartNextCombat, as SimulationRules.ResumePrepare; the agents are reset with ResetHP as written exactly when one starts a combat |
| CombatSimulationModel.CombatSimulationManager.ResetSimulation | Assets/Scripts/CombatSimulationManager.cs:250-261 | the new state is SimulationRules.ResetSimulation |
| CombatSimulationModel.CombatSimulationManager.StartNextCombatDebug | Assets/Scripts/CombatSimulationManager.cs:243-248 | a combat is started only when none is in progress; the agents are reset with ResetHP as written exactly when one starts |
| ManagerRules.AttackerDeathFirst | Assets/Scripts/Managers/CombatManager.cs:98-107 | a dead attacker gives the defender's win whatever the defender's state |
| ManagerRules.Judge | Assets/Scripts/Managers/CombatManager.cs:96-122 | a dead attacker gives the defender's win; otherwise a dead defender the attacker's; no result exactly when both live and the timer is below the limit |
| ManagerRules.Update | Assets/Scripts/Managers/CombatManager.cs:40-124 | nothing changes outside a running combat; inside, the timer advances by dt, the combat stays started and ends exactly on a result |
| ManagerRules.TimeoutByHP | Assets/Scripts/Managers/CombatManager.cs:109-122 | with both alive there is a result exactly at the time limit: the higher HP percentage wins, equal ones draw |
| ManagerRules.PercentageOrdersHP | Assets/Scripts/Managers/CombatManager.cs:112-113 | with equal maxHP, the HP percentages order as the HP values; a missing agent reads 0 |
| ManagerRules.UpdateRunsOnlyWhileRunning | Assets/Scripts/Managers/CombatManager.cs:40-124 | outside a running combat Update changes nothing; inside, the timer advances by dt and the combat ends exactly on a result |
| ManagerRules.EndedStandsStill | Assets/Scripts/Managers/CombatManager.cs:40-47 | after a result, further frames change nothing |
| ManagerRules.StartCombatSpec | Assets/Scripts/Managers/CombatManager.cs:49-69 | the corrected StartCombat: a no-op during a running combat, otherwise a fresh running combat and an agent reset |
| ManagerRules.StartCombatAsWritten | Assets/Scripts/Managers/CombatManager.cs:49-69 | as written: the agents are reset and a fresh combat starts exactly when combatInProgress is clear; otherwise nothing changes |
| ManagerRules.StartCombat | Assets/Scripts/Managers/CombatManager.cs:49-69 | corrected version (see Findings): a fresh combat starts exactly when none is running; otherwise nothing changes |
| ManagerRules.ResetThenStart | Assets/Scripts/Managers/CombatManager.cs:71-88 | ResetCombat clears both flags and the timer, after which StartCombat starts |
| ManagerRules.StartIgnoredAfterEndAsWritten | Assets/Scripts/Managers/CombatManager.cs:49-157 | as written, once a combat ends StartCombat is ignored although the start button is enabled again |
| ManagerRules.StartVersionsAgreeUnlessEnded | Assets/Scripts/Managers/CombatManager.cs:51 | the as-written and corrected StartCombat differ exactly on an ended combat |
| CombatManagerModel.CombatManager.constructor | Assets/Scripts/Managers/CombatManager.cs:19-24 | the manager starts idle with the given time limit |
| CombatManagerModel.CombatManager.StartCombat | Assets/Scripts/Managers/CombatManager.cs:49-69 | the new state is StartCombatAsWritten, ignored whenever combatInProgress is set; the agents are reset with ResetHP as written exactly when it starts |
| CombatManagerModel.CombatManager.ResetCombat | Assets/Scripts/Managers/CombatManager.cs:71-88 | the manager becomes idle and both agents are reset with ResetHP as written |
| CombatManagerModel.CombatManager.Update | Assets/Scripts/Managers/CombatManager.cs:40-47 | state and shown result are ManagerRules.Update over the agents' HP |
| CombatManagerModel.CombatManager.UpdateCombat | Assets/Scripts/Managers/CombatManager.cs:90-124 | the timer advances by dt; the result is Judge of the new timer; a result ends the combat |

## Left out

- The engine: rendering, animator triggers and speeds, Rigidbody physics, colliders and transforms. Rotation toward the target is a `facing` parameter. The dodge's Lerp movement and agent positions are left out; distances and headings are parameters.
- Coroutine scheduling: at most one suspension point of each coroutine resumes per frame, and for `WaitForSeconds(t)` the wait is complete once the accumulated `dt` reaches `t`. The order in which Unity runs coroutines within a frame is not modelled.
- The defender's stacked `justFinishedBlockingCoroutine` starts: `Update` starts a new one every frame while the flag is set. The model keeps one pending clear.
- Float arithmetic: all numbers are exact reals. Rounding, NaN and infinity are not modelled; `float.MaxValue` is a named constant.
- BTWeighted.WeightedSelector.constructor: requires a non-zero weight total, where the source divides by zero and yields NaN or infinite weights.
- BTWeighted.Normalise: requires a non-zero total, for the same reason.
- DefenderControllerModel.DefenderController.TakeDamage: assumes a target attacker is present (its `Valid`). The source reads `targetAttacker.IsKickAttacking` before its null check, so a missing target is an exception there.
- SwordStrike.HitAttacker: does not model the statistics events the hitbox raises (damage taken, a successful attack for the swinger, a failed block for the victim, SwordHitbox.cs:101,107,112). For the attacker this counts its damage a second time, on top of the event its own TakeDamage raises.
- SwordStrike.HitDefender: does not model the same hitbox statistics events (SwordHitbox.cs:132,138,143).
- SwordStrike.HitAttacker and SwordStrike.HitDefender: when the striking box is one of the struck agents' own hitboxes, a contact the root check of SwordHitbox.cs:79 normally rules out, the contract leaves that hitbox's view open.
- The global `CombatEvents` bus is not modelled: each handler is a method on `CombatStats`, called by the operation that raises the event.
- Start, OnDestroy and SetAnimationDurations: component lookup and animation clip lengths. The model uses the default durations from the field initialisers.
- `ValidateComponents`, `GameObject.Find`, the spawn points, `EndSimulation`, the CSV export and every `Debug.Log` are left out.
- The UI of `CombatManager` (HP bars, texts, the start button's `interactable`) is left out, except for the state the start button depends on.
- Actions not named in the model: the defender's MoveAwayFromTarget, DodgeRandom, MoveSideways, MoveToOpenSpace, LureToCenter and AdaptivePositioning, and the attacker's MoveAwayFromTarget, DodgeRandom and FlankAttack. They are further movement recipes over the same `Move`, `Dodge` and quantiser, and they depend on positions and random directions the model does not carry.
- The defender's `currentMoveDirection` and `stateTimer` of both agents are written but read only by animation and UI code.
- A missing (null) child of RandomDecorator and a missing target attacker of the defender are not modelled.
- CombatManagerModel.CombatManager.StartCombat: resets the agents before it sets the flags, where the source sets the flags first. None of these steps reads what another writes, so the order does not change the result.

Observations that are not defects, each proved as a lemma:
- A stun does not close the attacker's gates (`AttackerConditions.StunLeavesGatesOpen`).
- `PatrolOrWait`'s speed has no effect (`DefenderActions.PatrolSpeedIgnored`).
- `CounterAfterBlock` keeps `blockCompleted` after a failed attempt (`DefenderActions.FinishedBlockOutlivesFailure`).
- The batch manager checks the time limit before deaths (`SimulationRules.TimeLimitWinsOverDeath`). The interactive manager checks deaths first (`ManagerRules.AttackerDeathFirst`).
- The attacker's dot-product quantiser picks forward for a zero vector, where the controllers' quantiser picks back (`AttackerActions.FirstMaximalAgreesWithClosest4`).
- `WeightedSelector` inherits Reset from the composite, so a reset keeps its `selectedIndex`.

## Findings

The operations model the program as written; each corrected member stands beside them and is not used by them.

| source | as written | input that shows it | evidently intended | confidence | as-written member | corrected member |
|---|---|---|---|---|---|---|
| Assets/Scripts/BehaviorTree/DecoratorNode.cs:33-41 | after a child success, `currentCount >= repeatCount` is tested without excluding `repeatCount == -1`, so the "infinite" Repeat(-1) reports Success after the first child success | Repeat(-1), count 0, child Success: the result is Success with count 1 | -1 repeats forever: a child success gives Running | not executed | BTDecorators.RepeatForeverStopsAsWritten | BTDecorators.RepeatForeverNeverSucceeds |
| Assets/Scripts/Attacker/AttackerController.cs:481-519 | OnDeath stops the attack coroutine before it disables the sword, and ResetHP does not disable the hitboxes either, so an attacker killed mid-swing respawns idle with an armed sword | a fresh attacker attacks, drops to 20 HP, takes 30 damage, is reset; its sword then strikes a defender collider | ResetHP leaves both hitboxes disabled | not executed | AttackerRules.StaleSwordAfterResetAsWritten | AttackerRules.ResetDisarms |
| Assets/Scripts/Defender/DefenderController.cs:437-472 | the same for the defender: a death mid-swing leaves its sword armed through ResetHP | a fresh defender attacks, drops to 20 HP, takes 30 damage, is reset; its sword then strikes an attacker collider | ResetHP leaves the sword disabled | not executed | DefenderRules.StaleSwordAfterResetAsWritten | DefenderRules.ResetDisarms |
| Assets/Scripts/Managers/CombatManager.cs:49-157 | EndCombat sets `combatEnded` but never clears `combatInProgress`, yet re-enables the start button; StartCombat returns early on `combatInProgress`, so the button does nothing until ResetCombat | start, then a frame with the attacker at 0 HP ends the combat; StartCombat is then ignored | StartCombat starts a new combat once the previous one has ended | not executed | ManagerRules.StartIgnoredAfterEndAsWritten | ManagerRules.StartCombatSpec |
