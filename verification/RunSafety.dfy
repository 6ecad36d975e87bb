/** What one device event or one change of guest memory keeps: every ready ring of a
    device that is not isolated is guest memory. */
module RunSafety {
  import opened Wrappers
  import opened Errors
  import opened GuestMemory
  import opened Virtqueue
  import opened HotplugQueue
  import opened Transport
  import opened Runtime

  /** The transport invariant of one device, and its ready rings in view unless isolated. */
  ghost predicate DeviceOk(s: Registers, id: Identity, v: View) {
    Inv(s, id) && (NEEDS_RESET !in s.status ==> RingsInView(s, v))
  }

  // ---------------------------------------------------------------------------
  // One device event

  lemma ViewsAlike(s: Registers, v: View, u: View)
    requires RingsInView(s, v) && u.regions == v.regions
    ensures RingsInView(s, u)
  {
    forall k, p | 0 <= k < |s.rings| && s.rings[k].ready && p in s.rings[k].RingPins() ensures u.InView(p.start, p.len) {
      SameRegions(v, u, p.start, p.len);
    }
  }

  /** A ring write keeps ready rings in view: a ready queue is never reconfigured, and
      one becomes ready only when its rings are in view. */
  lemma RingWriteInView(s: Registers, offset: nat, value: nat, v: View)
    requires RingsInView(s, v) && RingWritten(s, offset, value, v).Ok?
    ensures RingsInView(RingWritten(s, offset, value, v).value, v)
  {
    var t := RingWritten(s, offset, value, v).value;
    forall k, p | 0 <= k < |t.rings| && t.rings[k].ready && p in t.rings[k].RingPins() ensures v.InView(p.start, p.len) {
      if t.rings[k] == s.rings[k] {
        assert s.rings[k].ready && p in s.rings[k].RingPins();
      } else {
        assert t.rings[k].IsValid(v);
      }
    }
  }

  lemma ConfigureInView(s: Registers, id: Identity, offset: nat, value: nat, v: View, reset: Result<Unit, DeviceError>)
    requires RingsInView(s, v) && Configured(s, id, offset, value, v, reset).Ok?
    ensures RingsInView(Configured(s, id, offset, value, v, reset).value, v)
  {
    if RingRegister(offset) {
      RingWriteInView(s, offset, value, v);
    }
  }

  lemma CallInView(s: Registers, t: Registers, v: View)
    requires RingsInView(s, v) && OnlyMoved(s.rings, t.rings)
    ensures RingsInView(t, v)
  {
    forall k, p | 0 <= k < |t.rings| && t.rings[k].ready && p in t.rings[k].RingPins() ensures v.InView(p.start, p.len) {
      assert SameSetup(s.rings[k], t.rings[k]);
      assert t.rings[k].RingPins() == s.rings[k].RingPins();
    }
  }

  /** NEEDS_RESET leaves only with a reset, after which no queue is ready. */
  lemma ResetInView(s: Registers, v: View)
    ensures RingsInView(AfterReset(s), v)
  {
  }

  lemma StepInView(s: State, id: Identity, e: Event, v: View)
    requires DeviceOk(s.regs, id, v) && (e.Configure? ==> e.view == v)
    requires Calls(e) ==> Contractual(s.regs, e.call)
    ensures DeviceOk(Step(s, id, e).0.regs, id, v)
  {
    StepKeepsInv(s, id, e);
    var t := Step(s, id, e).0.regs;
    if NEEDS_RESET !in t.status {
      if IsReset(e) {
        ResetInView(s.regs, v);
      } else {
        StillIn(s, id, e);
        if e.Configure? && Configured(s.regs, id, e.offset, e.value, e.view, e.reset).Ok? {
          ConfigureInView(s.regs, id, e.offset, e.value, v, e.reset);
        } else if Calls(e) {
          CalledMoves(s, id, e);
          CallInView(s.regs, t, v);
        }
      }
    }
  }

  lemma StillIn(s: State, id: Identity, e: Event)
    requires !IsReset(e)
    ensures NEEDS_RESET in s.regs.status ==> NEEDS_RESET in Step(s, id, e).0.regs.status
  {
    if NEEDS_RESET in s.regs.status {
      StepKeepsNeedsReset(s, id, e);
    }
  }

  lemma CalledMoves(s: State, id: Identity, e: Event)
    requires Calls(e) && Contractual(s.regs, e.call)
    ensures OnlyMoved(s.regs.rings, Step(s, id, e).0.regs.rings)
  {
    var rings := s.regs.rings;
    forall i | 0 <= i < |rings| ensures SameSetup(rings[i], rings[i]) {
    }
  }

  // ---------------------------------------------------------------------------
  // The whole fleet

  lemma SafeAlike(fleet: seq<Registers>, v: View, w: View)
    requires SafeRings(fleet, v) && w.regions == v.regions
    ensures SafeRings(fleet, w)
  {
    forall i | 0 <= i < |fleet| && NEEDS_RESET !in fleet[i].status ensures RingsInView(fleet[i], w) {
      ViewsAlike(fleet[i], v, w);
    }
  }

  /** An access to the i-th device is the step `e` of its transport, sees the current view,
      and makes no callback but one that keeps the ring setup and the memory regions. */
  ghost predicate Accessed(before: seq<Registers>, after: seq<Registers>, i: nat, rejected: nat, id: Identity, e: Event,
                           v: View, w: View)
  {
    && i < |before| && after == before[i := Step(State(before[i], rejected), id, e).0.regs]
    && (e.Configure? ==> e.view == v) && (Calls(e) ==> Contractual(before[i], e.call))
    && w.regions == v.regions
  }

  /** Such an access keeps every device's rings in view. */
  lemma AccessKeepsSafe(before: seq<Registers>, after: seq<Registers>, i: nat, rejected: nat, id: Identity, e: Event,
                        v: View, w: View)
    requires SafeRings(before, v) && Accessed(before, after, i, rejected, id, e, v, w) && Inv(before[i], id)
    ensures SafeRings(after, w)
  {
    StepInView(State(before[i], rejected), id, e, v);
    forall j | 0 <= j < |after| && NEEDS_RESET !in after[j].status ensures RingsInView(after[j], v) {
      assert j != i ==> after[j] == before[j];
    }
    SafeAlike(after, v, w);
  }
}
