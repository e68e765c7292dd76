# Auto switch and switch-link trigger (rsgauges)

A Dafny model of the self-contained logic of the rsgauges auto-switch block:
`AutoSwitchBlock.switchLinkTrigger`, `getTe`, the no-op `tick`, and both
overloads of `AutoSwitchTileEntity.updateSwitchState`.

The switch is a two-state machine: UNPOWERED and POWERED. `updateSwitchState` is edge-triggered.
Switching on always restarts the on-timer. Switching off is gated by the hold time.
Each edge writes the block state, plays a sound and updates neighbours at the switch and behind it.
It may then propagate the new level over the switch's outbound links.
A switch-link request passes four guards in order.
If all pass, it drives the target to the negation of its POWERED value with hold time 0.

Modelling choices:

- Host calls become an ordered trace of `Effect`s: on-timer reset, interval restart, block write, sound, neighbour update, link activation.
  `updateSwitchState` returns the new block state together with that trace.
- Host queries are plain inputs, held as fields of the `AutoSwitchTe` record:
  `on_time_remaining()`, `on_power()`, the boolean result of `activateSwitchLinks`, `verifySwitchLinkTarget`, and "is an interval-timer tile entity".
- The world seen by a link request is a map of block states and a map of tile entities.
  A missing key stands for the host's `null`.
  `Writes` interprets a trace's block writes onto the block map.
  A link request's resulting world is that interpretation of its trace.
- The configuration is the block's 64-bit `long` word, modelled as `bv64`.
  The three capability masks (`SWITCH_CONFIG_LINK_TARGET_SUPPORT`, `SWITCH_CONFIG_TIMER_INTERVAL`, `SWITCH_CONFIG_LINK_SOURCE_SUPPORT`) are defined in `SwitchBlock`.
  `SwitchBlock` is not part of this model, so the masks are a `ConfigBits` parameter, and every property holds for any mask values.
- `switchLinkTrigger` tests the configuration of the block that receives the call (`this.config`), not the target's.
  It also passes itself as the `block` argument of `updateSwitchState`.
  So the link-source bit tested on an edge is the receiver's as well, and the model keeps that.
  The sounds played also belong to the receiver. The trace does not show this, because it records only the sound cue and not which block's sound is played.

Facts about the code that the model makes explicit:

- The on-timer is reset on every activating request, also when the switch is already powered (`ActivatePoweredOnlyResetsTimer`).
  That reset is the one host call such a request makes.
- Each accepted link request negates the target's POWERED value; it does not set a fixed value.
  So two accepted requests restore it (`TriggerTwiceRestores`, `RepeatTriggerParity`).

## Model

| member | source | states |
|---|---|---|
| Geometry.Behind | src/main/java/wile/rsgauges/blocks/AutoSwitchBlock.java:91 | the second neighbour update goes to the block adjacent to the switch, on the side opposite its facing: one step away, and stepping back along the facing returns to the switch |
| AutoSwitch.LinkStep | src/main/java/wile/rsgauges/blocks/AutoSwitchBlock.java:94-98 | links are activated only when link_update is set and the block has the link-source bit; the activation comes first with the given (power, level); the failure sound follows exactly when the activation reports failure; no block write or timer reset happens there |
| AutoSwitch.Edge | src/main/java/wile/rsgauges/blocks/AutoSwitchBlock.java:88-93 | an edge changes only POWERED, and the block write of the new state is its first host call and its only write |
| AutoSwitch.UpdateSwitchState | src/main/java/wile/rsgauges/blocks/AutoSwitchBlock.java:82-115 | kind and facing never change; activating leaves the switch powered; deactivating leaves it powered exactly when it was powered and both hold time and remaining on-time are positive; the trace starts with an on-timer reset iff the request activates; when POWERED is unchanged the trace is only that reset or empty; a block write happens iff POWERED changes, and every write puts the returned state at the switch's position |
| AutoSwitch.UpdateSwitchStateLinked | src/main/java/wile/rsgauges/blocks/AutoSwitchBlock.java:79-80 | the four-argument overload is the five-argument one with link_update = true |
| AutoSwitch.Tick | src/main/java/wile/rsgauges/blocks/AutoSwitchBlock.java:40-42 | the scheduled tick leaves the block state as it is and makes no host call |
| AutoSwitch.GetTe | src/main/java/wile/rsgauges/blocks/AutoSwitchBlock.java:59-65 | a tile entity is returned exactly when the host holds an auto-switch tile entity at the position, and it is that one |
| AutoSwitch.SwitchLinkTrigger | src/main/java/wile/rsgauges/blocks/AutoSwitchBlock.java:46-57 | a request is accepted iff the receiver has the link-target and interval-timer bits, the target holds an auto-switch block, and the target has an auto-switch tile entity that verifies the link; a rejected request changes nothing and makes no host call; tile entities are never replaced |
| AutoSwitchProperties.UpdateWritesItsState | src/main/java/wile/rsgauges/blocks/AutoSwitchBlock.java:82-115 | interpreting the trace's block writes on a world that holds the switch's state yields that world with the returned state at the switch's position and nothing else changed |
| AutoSwitchProperties.ActivatePoweredOnlyResetsTimer | src/main/java/wile/rsgauges/blocks/AutoSwitchBlock.java:84-86 | activating a powered switch resets the on-timer with the given hold time and does nothing else: no write, no sound, no neighbour update, no link propagation |
| AutoSwitchProperties.RisingEdgeTrace | src/main/java/wile/rsgauges/blocks/AutoSwitchBlock.java:84-98 | on a rising edge the host calls are, in order: timer reset, interval restart (interval timers only), POWERED := true, power-on sound, neighbour updates at the switch and behind it, then link activation with (on_power(), 15) and the failure sound if it fails |
| AutoSwitchProperties.DeactivateUnpoweredIsNoOp | src/main/java/wile/rsgauges/blocks/AutoSwitchBlock.java:100 | deactivating an unpowered switch changes nothing and makes no host call |
| AutoSwitchProperties.HoldTimeKeepsPowered | src/main/java/wile/rsgauges/blocks/AutoSwitchBlock.java:100-101 | a powered switch asked to switch off with a positive hold time and positive remaining on-time stays powered and makes no host call |
| AutoSwitchProperties.FallingEdgeTrace | src/main/java/wile/rsgauges/blocks/AutoSwitchBlock.java:100-112 | when hold time or remaining on-time is not positive, the host calls are, in order: POWERED := false, power-off sound, neighbour updates at the switch and behind it, then link activation with (0, 0) and the failure sound if it fails |
| AutoSwitchProperties.LinkPropagation | src/main/java/wile/rsgauges/blocks/AutoSwitchBlock.java:94-112 | links are activated iff POWERED changes, link_update is set and the block has the link-source bit; the arguments are (on_power(), 15) when activating and (0, 0) when deactivating; the failure sound plays iff links are activated and the activation fails |
| AutoSwitchProperties.RisingEdgeLinks | src/main/java/wile/rsgauges/blocks/AutoSwitchBlock.java:94-98 | on a rising edge, links are activated iff link_update and the link-source bit hold, with (on_power(), 15), and the failure sound plays iff that activation fails |
| AutoSwitchProperties.FallingEdgeLinks | src/main/java/wile/rsgauges/blocks/AutoSwitchBlock.java:108-112 | on a falling edge, links are activated iff link_update and the link-source bit hold, with (0, 0), and the failure sound plays iff that activation fails |
| AutoSwitchProperties.RepeatedRequestIsNoOp | src/main/java/wile/rsgauges/blocks/AutoSwitchBlock.java:84-101 | transitions are edge-triggered: repeating a request right after it leaves the state alone and makes no host call except the timer reset of an activating request |
| AutoSwitchProperties.TriggerNeedsConfigBits | src/main/java/wile/rsgauges/blocks/AutoSwitchBlock.java:49-50 | without the link-target bit or the interval-timer bit in the receiver's configuration, every request is rejected with the world unchanged and no host call, whatever the world holds |
| AutoSwitchProperties.TriggerNeedsVerifiedTarget | src/main/java/wile/rsgauges/blocks/AutoSwitchBlock.java:51-54 | a request is rejected with nothing changed in these cases: the target has no block state; its block is not an auto switch; it has no auto-switch tile entity; or its tile entity does not verify the link |
| AutoSwitchProperties.TriggerOkNegates | src/main/java/wile/rsgauges/blocks/AutoSwitchBlock.java:55-56 | an accepted request negates the target's POWERED value, because hold time 0 forces a powered target off, and changes no other entry of the block map; no tile entity is replaced |
| AutoSwitchProperties.TriggerTwiceRestores | src/main/java/wile/rsgauges/blocks/AutoSwitchBlock.java:55-56 | after an accepted request the same request is accepted again and restores the original block map; no tile entity is replaced |
| AutoSwitchProperties.TriggerOkStable | src/main/java/wile/rsgauges/blocks/AutoSwitchBlock.java:49-54 | acceptance depends only on the receiver's configuration, the kind of block at the target and the tile entities, not on the target's POWERED value |
| AutoSwitchProperties.RepeatTriggerParity | src/main/java/wile/rsgauges/blocks/AutoSwitchBlock.java:55-56 | after n requests over an accepted link, every request is still accepted; the target's POWERED value has flipped exactly when n is odd; no other entry of the block map has changed and no tile entity is replaced |

## Left out

- ModRsGauges.java is not modelled. It is mod bootstrap only: registration, event-bus listeners, config load and reload with logged exceptions, and the creative tab.
- Host internals are recorded as effects and not modelled:
  - `level.setBlock` with flags `2|8|16` (the flags are not recorded);
  - sound playback (only the cue is recorded, not which block's sound object plays it);
  - `updateNeighborsAt` (the block argument is not recorded for either call: neither `block` at the switch nor `nb` behind it);
  - `on_timer_reset`;
  - `IntervalTimerSwitchTileEntity.restart`;
  - `activateSwitchLinks` (its constant third argument `true` is not recorded).
- `on_time_remaining`, `on_power`, `verifySwitchLinkTarget` and the result of `activateSwitchLinks` are values the host supplies.
  Their internals belong to `SwitchBlock` and `SwitchLink`, which are not part of this model.
- Evaluation order of host queries is not modelled. In the code, `on_time_remaining()` is only asked when the hold time is positive. Since a query has no effect here, the order does not matter.
- Link chains are not followed: a link activation that triggers another switch, possibly back to this one.
  Only a single step is modelled, and the outcome of `activateSwitchLinks` is a host answer.
- The sounds a block is constructed with may be null. The base class that resolves them is not part of this model, so a sound is an effect that is always recorded.
- `hold_time` is a Java `int`. It is only compared with 0 and passed on, so an unbounded `int` matches it exactly.
- `SwitchLink.RequestResult` may have more values than the two this method returns. Only `OK` and `REJECTED` are modelled.
- AutoSwitch.UpdateSwitchState: accepts a block state of any kind and computes the update from its POWERED and FACING fields.
  In the code, `state.getValue(POWERED)` throws for a block without that property, and that error path is not modelled.
  The only call visible in the code is the one in `switchLinkTrigger`. It runs after the check that the target is an auto switch, so it always passes an auto-switch state.
- AutoSwitchProperties.TriggerOkNegates: promises only that the block map changes at the target and that tile entities are not replaced.
  Tile entities are held as fixed records of host answers, so the changes an accepted request makes inside the target tile entity are not part of the world.
  Those changes are `on_timer_reset(0)` and, for interval timers, `restart()`.
  Blocks that `activateSwitchLinks` drives elsewhere are not part of the world either. Both appear only as effects in the trace.
- AutoSwitchProperties.TriggerTwiceRestores: restores the block map only. The target tile entity's timer state and the blocks driven by link propagation are not part of the world, for the same reason.
- AutoSwitchProperties.RepeatTriggerParity: speaks of the block map only. The target tile entity's timer state and the blocks driven by link propagation are not part of the world, for the same reason.
