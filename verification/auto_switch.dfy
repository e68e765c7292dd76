/** The auto switch: a two-state (unpowered/powered) block whose state is
    driven by its own tile entity and by switch-link requests from other
    switches. Host calls (block writes, sounds, neighbour updates, link
    propagation) are recorded as an ordered trace of effects; host queries
    are plain inputs. */
module AutoSwitch {
  import opened Geometry

  /** The three capability bits of a switch's 64-bit configuration word that
      this block reads. Their values are constants of the switch base class;
      every result here holds whatever they are. */
  datatype ConfigBits = ConfigBits(
    linkTargetSupport: bv64,
    timerInterval: bv64,
    linkSourceSupport: bv64)

  /** True when `config` has any of the bits of `mask` set: `(config & mask) != 0`. */
  predicate Has(config: bv64, mask: bv64)
  {
    config & mask != 0
  }

  /** Which kind of block sits at a position. */
  datatype BlockKind = AutoSwitchBlock | OtherBlock

  /** A block state: its block, and the POWERED and FACING properties
      (meaningful only for switch blocks). */
  datatype BlockState = BlockState(kind: BlockKind, powered: bool, facing: Direction)

  /** An auto-switch tile entity, reduced to the answers it gives to the host
      queries the switch logic makes of it. */
  datatype AutoSwitchTe = AutoSwitchTe(
    isIntervalTimer: bool,   // an interval-timer tile entity
    acceptsLink: bool,       // verifySwitchLinkTarget(link) for the link at hand
    onTimeRemaining: int,    // on_time_remaining()
    onPower: int,            // on_power()
    linksActivate: bool)     // result of activateSwitchLinks(...)

  /** Whatever tile entity the host holds at a position. */
  datatype BlockEntity = AutoSwitchEntity(te: AutoSwitchTe) | OtherEntity

  /** The part of the world a link request looks at. A position absent from
      `blocks` is a null block state; absent from `entities`, a null tile entity. */
  datatype World = World(blocks: map<Pos, BlockState>, entities: map<Pos, BlockEntity>)

  datatype SoundCue = PowerOn | PowerOff | LinkUseFailed

  /** One host call made by the switch logic, in the order it is made. */
  datatype Effect =
    | TimerReset(holdTime: int)           // on_timer_reset(hold_time)
    | IntervalRestart                     // IntervalTimerSwitchTileEntity.restart()
    | SetBlock(at: Pos, state: BlockState) // level.setBlock(at, state, 2|8|16)
    | PlaySound(at: Pos, cue: SoundCue)
    | NeighbourUpdate(at: Pos)            // level.updateNeighborsAt(at, ...)
    | ActivateLinks(power: int, level: int) // activateSwitchLinks(power, level, true)

  /** The outcome of updateSwitchState: the switch's block state afterwards
      and the host calls made, in order. */
  datatype Update = Update(state: BlockState, effects: seq<Effect>)

  datatype RequestResult = Ok | Rejected

  /** The outcome of a switch-link request. */
  datatype TriggerOutcome = TriggerOutcome(result: RequestResult, world: World, effects: seq<Effect>)

  /** A switch-link request, reduced to its target position. */
  datatype Link = Link(target: Pos)

  /** Reference semantics of a trace on the block map: each `SetBlock`
      writes its state at its position; every other effect leaves blocks alone. */
  function Writes(blocks: map<Pos, BlockState>, effects: seq<Effect>): map<Pos, BlockState>
    decreases |effects|
  {
    if effects == [] then blocks
    else
      var b := if effects[0].SetBlock? then blocks[effects[0].at := effects[0].state] else blocks;
      Writes(b, effects[1..])
  }

  /** True when the trace contains a block-state write. */
  predicate WritesBlock(effects: seq<Effect>)
  {
    exists i :: 0 <= i < |effects| && effects[i].SetBlock?
  }

  /** Link propagation after an edge: only when requested and the block is a
      link source; the failure sound follows a propagation that reports failure. */
  function LinkStep(config: bv64, bits: ConfigBits, te: AutoSwitchTe, pos: Pos,
                    linkUpdate: bool, power: int, level: int): (r: seq<Effect>)
    ensures r != [] <==> linkUpdate && Has(config, bits.linkSourceSupport)
    ensures r != [] ==> r[0] == ActivateLinks(power, level)
    ensures PlaySound(pos, LinkUseFailed) in r <==> r != [] && !te.linksActivate
    ensures forall e :: e in r ==> !e.SetBlock? && !e.TimerReset?
  {
    if linkUpdate && Has(config, bits.linkSourceSupport) then
      [ActivateLinks(power, level)] + (if te.linksActivate then [] else [PlaySound(pos, LinkUseFailed)])
    else []
  }

  /** The common part of both edges: write the new POWERED value, play the
      edge's sound, update neighbours here and behind, then propagate links
      with (on_power(), 15) when switching on and (0, 0) when switching off. */
  function Edge(config: bv64, bits: ConfigBits, te: AutoSwitchTe, pos: Pos,
                state: BlockState, on: bool, linkUpdate: bool): (r: Update)
    ensures r.state == state.(powered := on)
    ensures |r.effects| >= 4 && r.effects[0] == SetBlock(pos, r.state)
    ensures forall i :: 1 <= i < |r.effects| ==> !r.effects[i].SetBlock? && !r.effects[i].TimerReset?
  {
    var s := state.(powered := on);
    Update(s,
      [ SetBlock(pos, s),
        PlaySound(pos, if on then PowerOn else PowerOff),
        NeighbourUpdate(pos),
        NeighbourUpdate(Behind(pos, state.facing)) ]
      + LinkStep(config, bits, te, pos, linkUpdate,
                 if on then te.onPower else 0, if on then 15 else 0))
  }

  /** updateSwitchState(state, block, active, hold_time, link_update) of the
      tile entity `te` at `pos`; `config` is the configuration of `block`.
      Switching on always resets the on-timer; switching off waits for the
      hold time unless it is not positive. Transitions are edge-triggered. */
  function UpdateSwitchState(config: bv64, bits: ConfigBits, te: AutoSwitchTe, pos: Pos,
                             state: BlockState, active: bool, holdTime: int, linkUpdate: bool): (r: Update)
    ensures r.state.kind == state.kind && r.state.facing == state.facing
    ensures active ==> r.state.powered
    ensures !active ==> (r.state.powered <==> state.powered && holdTime > 0 && te.onTimeRemaining > 0)
    ensures active <==> (|r.effects| > 0 && r.effects[0] == TimerReset(holdTime))
    ensures r.state.powered == state.powered ==> r.effects == (if active then [TimerReset(holdTime)] else [])
    ensures WritesBlock(r.effects) <==> r.state.powered != state.powered
    ensures forall i :: 0 <= i < |r.effects| && r.effects[i].SetBlock? ==> r.effects[i] == SetBlock(pos, r.state)
  {
    if active then
      if !state.powered then
        var e := Edge(config, bits, te, pos, state, true, linkUpdate);
        var prefix := [TimerReset(holdTime)] + (if te.isIntervalTimer then [IntervalRestart] else []);
        assert (prefix + e.effects)[|prefix|].SetBlock?;
        Update(e.state, prefix + e.effects)
      else
        Update(state, [TimerReset(holdTime)])
    else if state.powered && (holdTime <= 0 || te.onTimeRemaining <= 0) then
      Edge(config, bits, te, pos, state, false, linkUpdate)
    else
      Update(state, [])
  }

  /** The four-argument overload: links are always propagated. */
  function UpdateSwitchStateLinked(config: bv64, bits: ConfigBits, te: AutoSwitchTe, pos: Pos,
                                   state: BlockState, active: bool, holdTime: int): (r: Update)
    ensures r == UpdateSwitchState(config, bits, te, pos, state, active, holdTime, true)
  {
    UpdateSwitchState(config, bits, te, pos, state, active, holdTime, true)
  }

  /** The block's scheduled tick: auto switches do nothing on it. */
  function Tick(state: BlockState): (r: Update)
    ensures r.state == state && r.effects == []
  {
    Update(state, [])
  }

  /** getTe: the tile entity at `pos` when it is an auto-switch tile entity, else none. */
  function GetTe(w: World, pos: Pos): (r: Option<AutoSwitchTe>)
    ensures r.Some? <==> pos in w.entities && w.entities[pos].AutoSwitchEntity?
    ensures r.Some? ==> w.entities[pos] == AutoSwitchEntity(r.value)
  {
    if pos in w.entities && w.entities[pos].AutoSwitchEntity? then Some(w.entities[pos].te) else None
  }

  datatype Option<T> = None | Some(value: T)

  /** A rejected request: nothing in the world changes and no host call is made. */
  function Reject(w: World): (r: TriggerOutcome)
    ensures r.result == Rejected && r.world == w && r.effects == []
  {
    TriggerOutcome(Rejected, w, [])
  }

  /** switchLinkTrigger(link) received by an auto-switch block whose
      configuration is `config`. The four guards are tried in order; when
      all pass, the target's tile entity is asked to go to the opposite of the
      target's POWERED value with hold time 0, with this block as the block. */
  function SwitchLinkTrigger(config: bv64, bits: ConfigBits, w: World, link: Link): (r: TriggerOutcome)
    ensures r.world.entities == w.entities
    ensures r.result == Ok <==>
      Has(config, bits.linkTargetSupport) && Has(config, bits.timerInterval)
      && link.target in w.blocks && w.blocks[link.target].kind == AutoSwitchBlock
      && GetTe(w, link.target).Some? && GetTe(w, link.target).value.acceptsLink
    ensures r.result == Rejected ==> r.world == w && r.effects == []
  {
    if !Has(config, bits.linkTargetSupport) then Reject(w)
    else if !Has(config, bits.timerInterval) then Reject(w)
    else if link.target !in w.blocks || w.blocks[link.target].kind != AutoSwitchBlock then Reject(w)
    else match GetTe(w, link.target)
      case None => Reject(w)
      case Some(te) =>
        if !te.acceptsLink then Reject(w)
        else
          var state := w.blocks[link.target];
          var u := UpdateSwitchStateLinked(config, bits, te, link.target, state, !state.powered, 0);
          TriggerOutcome(Ok, w.(blocks := Writes(w.blocks, u.effects)), u.effects)
  }
}
