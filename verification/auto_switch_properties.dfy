/** What the auto switch promises: the order and content of the host calls on
    each edge, the hold-time gate, link propagation, and the toggle a
    switch-link request performs on its target. */
module AutoSwitchProperties {
  import opened Geometry
  import opened AutoSwitch

  /** The trace contains a call to activateSwitchLinks. */
  predicate Propagates(effects: seq<Effect>)
  {
    exists i :: 0 <= i < |effects| && effects[i].ActivateLinks?
  }

  // ---------------------------------------------------------------------------
  // Interpreting block writes
  // ---------------------------------------------------------------------------

  /** A trace whose only block writes all put state `s` at `pos` leaves the
      block map with `s` at `pos` when it writes at all, and unchanged otherwise. */
  lemma {:induction false} WritesSingleTarget(blocks: map<Pos, BlockState>, effects: seq<Effect>, pos: Pos, s: BlockState)
    requires forall i :: 0 <= i < |effects| && effects[i].SetBlock? ==> effects[i] == SetBlock(pos, s)
    ensures Writes(blocks, effects) == if WritesBlock(effects) then blocks[pos := s] else blocks
    decreases |effects|
  {
    if effects != [] {
      var next := if effects[0].SetBlock? then blocks[pos := s] else blocks;
      assert forall i :: 0 <= i < |effects[1..]| ==> effects[1..][i] == effects[i + 1];
      WritesSingleTarget(next, effects[1..], pos, s);
      if effects[0].SetBlock? {
        assert WritesBlock(effects);
        assert next[pos := s] == blocks[pos := s];
      } else {
        assert WritesBlock(effects) <==> WritesBlock(effects[1..]) by {
          if WritesBlock(effects) {
            var i :| 0 <= i < |effects| && effects[i].SetBlock?;
            assert effects[1..][i - 1].SetBlock?;
          }
          if WritesBlock(effects[1..]) {
            var i :| 0 <= i < |effects[1..]| && effects[1..][i].SetBlock?;
            assert effects[i + 1].SetBlock?;
          }
        }
      }
    }
  }

  /** The trace of updateSwitchState, applied to a world holding `state` at
      `pos`, leaves exactly the returned state there and touches no other position. */
  lemma UpdateWritesItsState(blocks: map<Pos, BlockState>, config: bv64, bits: ConfigBits, te: AutoSwitchTe,
                             pos: Pos, state: BlockState, active: bool, holdTime: int, linkUpdate: bool)
    requires pos in blocks && blocks[pos] == state
    ensures var r := UpdateSwitchState(config, bits, te, pos, state, active, holdTime, linkUpdate);
      Writes(blocks, r.effects) == blocks[pos := r.state]
  {
    var r := UpdateSwitchState(config, bits, te, pos, state, active, holdTime, linkUpdate);
    WritesSingleTarget(blocks, r.effects, pos, r.state);
    if !WritesBlock(r.effects) {
      assert blocks[pos := r.state] == blocks;
    }
  }

  // ---------------------------------------------------------------------------
  // updateSwitchState
  // ---------------------------------------------------------------------------

  /** Activating a powered switch only restarts its on-timer. */
  lemma ActivatePoweredOnlyResetsTimer(config: bv64, bits: ConfigBits, te: AutoSwitchTe, pos: Pos,
                                       state: BlockState, holdTime: int, linkUpdate: bool)
    requires state.powered
    ensures var r := UpdateSwitchState(config, bits, te, pos, state, true, holdTime, linkUpdate);
      r.state == state && r.effects == [TimerReset(holdTime)]
      && !WritesBlock(r.effects) && !Propagates(r.effects)
  {
  }

  /** The rising edge: timer reset, interval restart for interval timers,
      POWERED := true, the power-on sound, neighbour updates here and behind,
      then link propagation with (on_power(), 15) and the failure sound if it fails. */
  lemma RisingEdgeTrace(config: bv64, bits: ConfigBits, te: AutoSwitchTe, pos: Pos,
                        state: BlockState, holdTime: int, linkUpdate: bool)
    requires !state.powered
    ensures var r := UpdateSwitchState(config, bits, te, pos, state, true, holdTime, linkUpdate);
      var on := state.(powered := true);
      r.state == on
      && r.effects ==
        [TimerReset(holdTime)]
        + (if te.isIntervalTimer then [IntervalRestart] else [])
        + [SetBlock(pos, on), PlaySound(pos, PowerOn), NeighbourUpdate(pos), NeighbourUpdate(Relative(pos, Opposite(state.facing)))]
        + (if linkUpdate && Has(config, bits.linkSourceSupport)
           then [ActivateLinks(te.onPower, 15)] + (if te.linksActivate then [] else [PlaySound(pos, LinkUseFailed)])
           else [])
  {
  }

  /** Deactivating an unpowered switch does nothing. */
  lemma DeactivateUnpoweredIsNoOp(config: bv64, bits: ConfigBits, te: AutoSwitchTe, pos: Pos,
                                  state: BlockState, holdTime: int, linkUpdate: bool)
    requires !state.powered
    ensures UpdateSwitchState(config, bits, te, pos, state, false, holdTime, linkUpdate) == Update(state, [])
  {
  }

  /** A powered switch asked to switch off stays on, with no host call at all,
      while a positive hold time has not yet run out. */
  lemma HoldTimeKeepsPowered(config: bv64, bits: ConfigBits, te: AutoSwitchTe, pos: Pos,
                             state: BlockState, holdTime: int, linkUpdate: bool)
    requires state.powered && holdTime > 0 && te.onTimeRemaining > 0
    ensures UpdateSwitchState(config, bits, te, pos, state, false, holdTime, linkUpdate) == Update(state, [])
  {
  }

  /** The falling edge, taken when the hold time is not positive or has run
      out: POWERED := false, the power-off sound, neighbour updates here and
      behind, then link propagation with (0, 0) and the failure sound if it fails. */
  lemma FallingEdgeTrace(config: bv64, bits: ConfigBits, te: AutoSwitchTe, pos: Pos,
                         state: BlockState, holdTime: int, linkUpdate: bool)
    requires state.powered && (holdTime <= 0 || te.onTimeRemaining <= 0)
    ensures var r := UpdateSwitchState(config, bits, te, pos, state, false, holdTime, linkUpdate);
      var off := state.(powered := false);
      r.state == off
      && r.effects ==
        [SetBlock(pos, off), PlaySound(pos, PowerOff), NeighbourUpdate(pos), NeighbourUpdate(Relative(pos, Opposite(state.facing)))]
        + (if linkUpdate && Has(config, bits.linkSourceSupport)
           then [ActivateLinks(0, 0)] + (if te.linksActivate then [] else [PlaySound(pos, LinkUseFailed)])
           else [])
  {
  }

  /** A link step appended to a trace that neither propagates nor plays the
      failure sound decides both on its own. */
  lemma LinkStepDecides(pre: seq<Effect>, config: bv64, bits: ConfigBits, te: AutoSwitchTe, pos: Pos,
                        linkUpdate: bool, power: int, level: int)
    requires forall i :: 0 <= i < |pre| ==> !pre[i].ActivateLinks? && pre[i] != PlaySound(pos, LinkUseFailed)
    ensures var tail := LinkStep(config, bits, te, pos, linkUpdate, power, level);
      && (Propagates(pre + tail) <==> tail != [])
      && (tail != [] ==> ActivateLinks(power, level) in pre + tail)
      && (PlaySound(pos, LinkUseFailed) in pre + tail <==> tail != [] && !te.linksActivate)
  {
    var tail := LinkStep(config, bits, te, pos, linkUpdate, power, level);
    var all := pre + tail;
    if tail != [] {
      assert all[|pre|] == ActivateLinks(power, level);
    } else {
      assert all == pre;
    }
    if PlaySound(pos, LinkUseFailed) in all {
      var i :| 0 <= i < |all| && all[i] == PlaySound(pos, LinkUseFailed);
      assert i >= |pre|;
      assert tail[i - |pre|] == PlaySound(pos, LinkUseFailed);
    }
    if Propagates(all) {
      var i :| 0 <= i < |all| && all[i].ActivateLinks?;
      assert i >= |pre|;
    }
    if tail != [] && !te.linksActivate {
      assert all[|pre| + 1] == PlaySound(pos, LinkUseFailed);
    }
  }

  /** Links are propagated exactly on an edge of a link-source block with
      link_update set, with (on_power(), 15) when switching on and (0, 0)
      when switching off; the failure sound plays exactly when that fails. */
  lemma LinkPropagation(config: bv64, bits: ConfigBits, te: AutoSwitchTe, pos: Pos,
                        state: BlockState, active: bool, holdTime: int, linkUpdate: bool)
    ensures var r := UpdateSwitchState(config, bits, te, pos, state, active, holdTime, linkUpdate);
      && (Propagates(r.effects) <==> r.state.powered != state.powered && linkUpdate && Has(config, bits.linkSourceSupport))
      && (Propagates(r.effects) && active ==> ActivateLinks(te.onPower, 15) in r.effects)
      && (Propagates(r.effects) && !active ==> ActivateLinks(0, 0) in r.effects)
      && (PlaySound(pos, LinkUseFailed) in r.effects <==> Propagates(r.effects) && !te.linksActivate)
  {
    var r := UpdateSwitchState(config, bits, te, pos, state, active, holdTime, linkUpdate);
    if r.state.powered == state.powered {
      assert r.effects == (if active then [TimerReset(holdTime)] else []);
    } else if active {
      RisingEdgeLinks(config, bits, te, pos, state, holdTime, linkUpdate);
    } else {
      FallingEdgeLinks(config, bits, te, pos, state, holdTime, linkUpdate);
    }
  }

  lemma RisingEdgeLinks(config: bv64, bits: ConfigBits, te: AutoSwitchTe, pos: Pos,
                        state: BlockState, holdTime: int, linkUpdate: bool)
    requires !state.powered
    ensures var r := UpdateSwitchState(config, bits, te, pos, state, true, holdTime, linkUpdate);
      && (Propagates(r.effects) <==> linkUpdate && Has(config, bits.linkSourceSupport))
      && (Propagates(r.effects) ==> ActivateLinks(te.onPower, 15) in r.effects)
      && (PlaySound(pos, LinkUseFailed) in r.effects <==> Propagates(r.effects) && !te.linksActivate)
  {
    var on := state.(powered := true);
    var edge := [SetBlock(pos, on), PlaySound(pos, PowerOn), NeighbourUpdate(pos), NeighbourUpdate(Behind(pos, state.facing))];
    var pre := [TimerReset(holdTime)] + (if te.isIntervalTimer then [IntervalRestart] else []) + edge;
    RisingEdgeTrace(config, bits, te, pos, state, holdTime, linkUpdate);
    LinkStepDecides(pre, config, bits, te, pos, linkUpdate, te.onPower, 15);
  }

  lemma FallingEdgeLinks(config: bv64, bits: ConfigBits, te: AutoSwitchTe, pos: Pos,
                         state: BlockState, holdTime: int, linkUpdate: bool)
    requires state.powered && (holdTime <= 0 || te.onTimeRemaining <= 0)
    ensures var r := UpdateSwitchState(config, bits, te, pos, state, false, holdTime, linkUpdate);
      && (Propagates(r.effects) <==> linkUpdate && Has(config, bits.linkSourceSupport))
      && (Propagates(r.effects) ==> ActivateLinks(0, 0) in r.effects)
      && (PlaySound(pos, LinkUseFailed) in r.effects <==> Propagates(r.effects) && !te.linksActivate)
  {
    var pre := [SetBlock(pos, state.(powered := false)), PlaySound(pos, PowerOff), NeighbourUpdate(pos), NeighbourUpdate(Behind(pos, state.facing))];
    FallingEdgeTrace(config, bits, te, pos, state, holdTime, linkUpdate);
    LinkStepDecides(pre, config, bits, te, pos, linkUpdate, 0, 0);
  }

  /** Edge triggering: repeating the same request right after it changes no
      block state and calls nothing but the timer reset. */
  lemma RepeatedRequestIsNoOp(config: bv64, bits: ConfigBits, te: AutoSwitchTe, pos: Pos,
                              state: BlockState, active: bool, holdTime: int, linkUpdate: bool)
    ensures var r1 := UpdateSwitchState(config, bits, te, pos, state, active, holdTime, linkUpdate);
      var r2 := UpdateSwitchState(config, bits, te, pos, r1.state, active, holdTime, linkUpdate);
      r2.state == r1.state && r2.effects == (if active then [TimerReset(holdTime)] else [])
  {
  }

  // ---------------------------------------------------------------------------
  // switchLinkTrigger
  // ---------------------------------------------------------------------------

  /** Without the link-target or the interval-timer bit in the receiver's
      configuration, every request is rejected, whatever the world holds. */
  lemma TriggerNeedsConfigBits(config: bv64, bits: ConfigBits, w: World, link: Link)
    requires !Has(config, bits.linkTargetSupport) || !Has(config, bits.timerInterval)
    ensures SwitchLinkTrigger(config, bits, w, link) == TriggerOutcome(Rejected, w, [])
  {
  }

  /** A request whose target holds no block state, a block that is not an
      auto switch, no auto-switch tile entity, or a tile entity that does not
      verify the link, is rejected and changes nothing. */
  lemma TriggerNeedsVerifiedTarget(config: bv64, bits: ConfigBits, w: World, link: Link)
    requires || link.target !in w.blocks
             || w.blocks[link.target].kind != AutoSwitchBlock
             || link.target !in w.entities
             || !w.entities[link.target].AutoSwitchEntity?
             || !w.entities[link.target].te.acceptsLink
    ensures SwitchLinkTrigger(config, bits, w, link) == TriggerOutcome(Rejected, w, [])
  {
  }

  /** An accepted request negates the target's POWERED value and changes no
      other block: a powered target is forced off by hold time 0, an
      unpowered one is switched on. */
  lemma TriggerOkNegates(config: bv64, bits: ConfigBits, w: World, link: Link)
    requires SwitchLinkTrigger(config, bits, w, link).result == Ok
    ensures var r := SwitchLinkTrigger(config, bits, w, link);
      var t := link.target;
      t in w.blocks
      && r.world.blocks == w.blocks[t := w.blocks[t].(powered := !w.blocks[t].powered)]
      && r.world.entities == w.entities
  {
    var t := link.target;
    var state := w.blocks[t];
    var te := GetTe(w, t).value;
    UpdateWritesItsState(w.blocks, config, bits, te, t, state, !state.powered, 0, true);
  }

  /** Two accepted requests in a row restore the world they started from:
      each one is an unconditional negation, not a set-to-value. */
  lemma TriggerTwiceRestores(config: bv64, bits: ConfigBits, w: World, link: Link)
    requires SwitchLinkTrigger(config, bits, w, link).result == Ok
    ensures var w1 := SwitchLinkTrigger(config, bits, w, link).world;
      var r2 := SwitchLinkTrigger(config, bits, w1, link);
      r2.result == Ok && r2.world == w
  {
    var t := link.target;
    var w1 := SwitchLinkTrigger(config, bits, w, link).world;
    TriggerOkNegates(config, bits, w, link);
    TriggerOkNegates(config, bits, w1, link);
    assert w1.blocks[t := w1.blocks[t].(powered := !w1.blocks[t].powered)] == w.blocks;
  }

  /** The world after `n` successive requests over the same link. */
  function RepeatTrigger(config: bv64, bits: ConfigBits, w: World, link: Link, n: nat): World
  {
    if n == 0 then w else SwitchLinkTrigger(config, bits, RepeatTrigger(config, bits, w, link, n - 1), link).world
  }

  /** Acceptance depends only on the receiver's configuration, the kind of
      block at the target and the tile entities, none of which a request changes. */
  lemma TriggerOkStable(config: bv64, bits: ConfigBits, w: World, w': World, link: Link)
    requires SwitchLinkTrigger(config, bits, w, link).result == Ok
    requires link.target in w'.blocks && w'.blocks[link.target].kind == w.blocks[link.target].kind
    requires w'.entities == w.entities
    ensures SwitchLinkTrigger(config, bits, w', link).result == Ok
  {
    assert GetTe(w', link.target) == GetTe(w, link.target);
  }

  /** One more accepted request on a world that differs from `w` only in the
      target's POWERED value negates that value again. */
  lemma TriggerStep(config: bv64, bits: ConfigBits, w: World, prev: World, link: Link, b: bool)
    requires SwitchLinkTrigger(config, bits, w, link).result == Ok
    requires link.target in w.blocks
    requires prev.blocks == w.blocks[link.target := w.blocks[link.target].(powered := b)]
    requires prev.entities == w.entities
    ensures var r := SwitchLinkTrigger(config, bits, prev, link);
      && r.result == Ok
      && r.world.blocks == w.blocks[link.target := w.blocks[link.target].(powered := !b)]
      && r.world.entities == w.entities
  {
    var t := link.target;
    TriggerOkStable(config, bits, w, prev, link);
    TriggerOkNegates(config, bits, prev, link);
    assert prev.blocks[t := prev.blocks[t].(powered := !b)] == w.blocks[t := w.blocks[t].(powered := !b)];
  }

  lemma OddStep(n: nat)
    requires n > 0
    ensures (n % 2 == 1) == !((n - 1) % 2 == 1)
  {
  }

  /** After `n` requests over a link that is accepted, the target is toggled
      `n` times: its POWERED value flips exactly when `n` is odd, every request
      is accepted, and no other block changes. */
  lemma {:induction false} RepeatTriggerParity(config: bv64, bits: ConfigBits, w: World, link: Link, n: nat)
    requires SwitchLinkTrigger(config, bits, w, link).result == Ok
    ensures var t := link.target;
      var wn := RepeatTrigger(config, bits, w, link, n);
      && t in w.blocks
      && SwitchLinkTrigger(config, bits, wn, link).result == Ok
      && wn.blocks == w.blocks[t := w.blocks[t].(powered := w.blocks[t].powered != (n % 2 == 1))]
      && wn.entities == w.entities
  {
    var t := link.target;
    TriggerOkNegates(config, bits, w, link);
    var p := w.blocks[t].powered;
    if n == 0 {
      assert w.blocks[t := w.blocks[t].(powered := p)] == w.blocks;
    } else {
      RepeatTriggerParity(config, bits, w, link, n - 1);
      var prev := RepeatTrigger(config, bits, w, link, n - 1);
      var b := p != ((n - 1) % 2 == 1);
      TriggerStep(config, bits, w, prev, link, b);
      OddStep(n);
    }
    var wn := RepeatTrigger(config, bits, w, link, n);
    TriggerStep(config, bits, w, wn, link, p != (n % 2 == 1));
  }
}
