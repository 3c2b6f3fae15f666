/** When the set of pending identifiers is the set of running calls: a condition on the calls of a batch
    that no schedule changes. */
module CallIdentity {
  import opened Messages
  import opened Oracles
  import opened Events
  import opened ToolBatch
  import opened ToolLifecycle

  /** No call that is let through has the identifier of a later call. */
  ghost predicate NoLaterTwin(outs: seq<Finalized>, through: seq<bool>)
    requires |outs| == |through|
  {
    forall i, j :: 0 <= i < j < |outs| && through[i] ==> outs[i].call.id != outs[j].call.id
  }

  // ---- The preflight ----

  lemma PreflightSnoc(outs: seq<Finalized>, through: seq<bool>)
    requires |outs| == |through| && outs != []
    ensures var n := |outs| - 1;
      var started := PreflightEvents(outs[..n], through[..n]) + [ToolStart(n, outs[n].call)];
      PreflightEvents(outs, through) == if through[n] then started else started + [EndOf(n, outs[n])]
  {
    var n := |outs| - 1;
    var started := PreflightEvents(outs[..n], through[..n]) + [ToolStart(n, outs[n].call)];
    assert started + [] == started;
  }

  lemma {:induction false} PreflightProjects(outs: seq<Finalized>, through: seq<bool>, s: nat)
    requires |outs| == |through|
    ensures Project(PreflightEvents(outs, through), s) ==
      if s >= |outs| then []
      else if through[s] then [ToolStart(s, outs[s].call)]
      else [ToolStart(s, outs[s].call)] + [EndOf(s, outs[s])]
  {
    if outs != [] {
      var n := |outs| - 1;
      var pre, start, end := PreflightEvents(outs[..n], through[..n]), ToolStart(n, outs[n].call), EndOf(n, outs[n]);
      PreflightProjects(outs[..n], through[..n], s);
      PreflightSnoc(outs, through);
      hide PreflightEvents, Project;
      ProjectSnoc(pre, start, s);
      ProjectSnoc(pre + [start], end, s);
      if s == n {
        assert [] + [start] == [start];
      } else {
        var p := Project(pre, s);
        assert p + [] == p;
      }
    }
  }

  lemma {:induction false} PreflightPrefix(outs: seq<Finalized>, through: seq<bool>, j: nat)
    requires |outs| == |through| && j <= |outs|
    ensures PreflightEvents(outs[..j], through[..j]) <= PreflightEvents(outs, through)
  {
    if j == |outs| {
      assert outs[..j] == outs && through[..j] == through;
    } else {
      var n := |outs| - 1;
      PreflightPrefix(outs[..n], through[..n], j);
      assert outs[..n][..j] == outs[..j] && through[..n][..j] == through[..j];
    }
  }

  /** During the preflight only calls that were let through are open. */
  lemma {:induction false} OpenInPreflight(outs: seq<Finalized>, through: seq<bool>, k: nat, s: nat)
    requires |outs| == |through| && k < |PreflightEvents(outs, through)|
    requires PreflightEvents(outs, through)[k].ToolEnd? && Open(PreflightEvents(outs, through)[..k], s)
    ensures var slot := PreflightEvents(outs, through)[k].slot;
      s <= slot < |outs| && (s < slot ==> through[s])
  {
    var n := |outs| - 1;
    var head := PreflightEvents(outs[..n], through[..n]);
    var all := PreflightEvents(outs, through);
    if k < |head| {
      assert all[k] == head[k] && all[..k] == head[..k];
      OpenInPreflight(outs[..n], through[..n], k, s);
    } else {
      var start := ToolStart(n, outs[n].call);
      assert k == |head| + 1 && all[k] == EndOf(n, outs[n]) && all[..k] == head + [start];
      ProjectSnoc(head, start, s);
      PreflightProjects(outs[..n], through[..n], s);
    }
  }

  // ---- After the preflight ----

  /** The events of a call that begin with its start and its end are these two. */
  lemma EndedAtOnce(slot: nat, f: Finalized, us: seq<string>, more: seq<Event>)
    requires CallEvents(slot, f, us) == [ToolStart(slot, f.call)] + [EndOf(slot, f)] + more
    ensures more == []
  {
    SecondEvent(slot, f, us);
    assert CallEvents(slot, f, us)[1] == EndOf(slot, f);
  }

  lemma SecondEvent(slot: nat, f: Finalized, us: seq<string>)
    ensures |CallEvents(slot, f, us)| == |us| + 2
    ensures CallEvents(slot, f, us)[1].ToolUpdate? <==> us != []
  {
    if us != [] { assert CallEvents(slot, f, us)[1] == ToolUpdate(slot, f.call, us[0]); }
  }

  lemma ThreeParts(es: seq<Event>, pre: seq<Event>, k: nat)
    requires pre <= es && |pre| <= k <= |es|
    ensures es[..k] == pre + es[|pre|..k] && es == pre + es[|pre|..k] + es[k..]
  {
    assert es[..|pre|] == pre;
  }

  /** After the preflight every call has started, and only calls that were let through can be open. */
  lemma StartedAfterPreflight(phase: seq<Event>, outs: seq<Finalized>, updates: seq<seq<string>>, through: seq<bool>,
      k: nat, s: nat)
    requires |outs| == |updates| == |through| && ParallelPhase(phase, outs, updates, through)
    requires |PreflightEvents(outs, through)| <= k <= |phase| && s < |outs|
    ensures Open(phase[..k], s) ==> through[s]
  {
    var pre := PreflightEvents(outs, through);
    var mid, rest := phase[|pre|..k], phase[k..];
    ThreeParts(phase, pre, k);
    assert Project(phase, s) == CallEvents(s, outs[s], updates[s]);
    PreflightProjects(outs, through, s);
    hide ParallelPhase, PreflightEvents, CallEvents, Project;
    ProjectAppend(pre, mid, s);
    ProjectAppend(pre + mid, rest, s);
    if !through[s] {
      var two, p, q := [ToolStart(s, outs[s].call)] + [EndOf(s, outs[s])], Project(mid, s), Project(rest, s);
      Assoc(two, p, q);
      EndedAtOnce(s, outs[s], updates[s], p + q);
      assert |p| == 0 && two + p == two;
    }
  }

  /** Between a moment when both calls are open and one when not both are, one of them ends while the other
      is open. */
  lemma {:induction false} OneEndsFirst(es: seq<Event>, i: nat, j: nat, a: nat, b: nat) returns (k: nat)
    requires a <= b <= |es|
    requires Open(es[..a], i) && Open(es[..a], j) && !(Open(es[..b], i) && Open(es[..b], j))
    ensures a <= k < b && Open(es[..k], i) && Open(es[..k], j) && !(Open(es[..k + 1], i) && Open(es[..k + 1], j))
    decreases b - a
  {
    hide Open;
    if Open(es[..a + 1], i) && Open(es[..a + 1], j) {
      k := OneEndsFirst(es, i, j, a + 1, b);
    } else {
      k := a;
    }
  }

  lemma ParallelInOrder(phase: seq<Event>, outs: seq<Finalized>, updates: seq<seq<string>>, through: seq<bool>)
    requires |outs| == |updates| == |through| && ParallelPhase(phase, outs, updates, through)
    ensures Complete(phase, outs, updates) && InOrder(phase, outs, updates)
    ensures forall s: nat :: s < |outs| ==> !Open(phase, s)
  {
    forall s: nat | s < |outs| ensures !Open(phase, s) {
      assert Project(phase, s) == CallEvents(s, outs[s], updates[s]);
    }
  }

  /** The event at which not both of two twins stay open ends one while the other is open. */
  lemma SharedAt(es: seq<Event>, outs: seq<Finalized>, updates: seq<seq<string>>, i: nat, j: nat, k: nat)
    requires |outs| == |updates| && InOrder(es, outs, updates)
    requires i < |outs| && j < |outs| && i != j && outs[i].call.id == outs[j].call.id
    requires k < |es| && Open(es[..k], i) && Open(es[..k], j) && !(Open(es[..k + 1], i) && Open(es[..k + 1], j))
    ensures es[k].ToolEnd? && SharedWithOpen(es[..k], es[k], outs)
  {
    var before, e := es[..k], es[k];
    assert es[..k + 1] == before + [e];
    PrefixInOrder(es, k + 1, outs, updates);
    hide InOrder, Open;
    if !IsToolEvent(e) || e.slot != i { OthersStay(before, e, i); }
    if !IsToolEvent(e) || e.slot != j { OthersStay(before, e, j); }
    NextOfCall(before, e, outs, updates);
  }

  lemma OpenAtTheBarrier(phase: seq<Event>, outs: seq<Finalized>, updates: seq<seq<string>>, through: seq<bool>, i: nat)
    requires |outs| == |updates| == |through| && ParallelPhase(phase, outs, updates, through)
    requires i < |outs| && through[i]
    ensures |PreflightEvents(outs, through)| <= |phase| && Open(phase[..|PreflightEvents(outs, through)|], i)
  {
    var pre := PreflightEvents(outs, through);
    assert phase[..|pre|] == pre;
    PreflightProjects(outs, through, i);
  }

  /** Two calls that were let through under one identifier: whichever ends first hides the other. */
  lemma TwinsShareAnEnd(phase: seq<Event>, outs: seq<Finalized>, updates: seq<seq<string>>, through: seq<bool>,
      i: nat, j: nat)
    requires |outs| == |updates| == |through| && ParallelPhase(phase, outs, updates, through)
    requires i < j < |outs| && through[i] && through[j] && outs[i].call.id == outs[j].call.id
    ensures !NoSharedEnd(phase, outs)
  {
    ParallelInOrder(phase, outs, updates, through);
    OpenAtTheBarrier(phase, outs, updates, through, i);
    OpenAtTheBarrier(phase, outs, updates, through, j);
    assert phase[..|phase|] == phase;
    hide ParallelPhase, PreflightEvents, Open, InOrder, Complete, SharedWithOpen;
    var k := OneEndsFirst(phase, i, j, |PreflightEvents(outs, through)|, |phase|);
    SharedAt(phase, outs, updates, i, j, k);
  }

  /** A later call that is refused under the identifier of a call let through hides that call. */
  lemma RefusedTwinSharesAnEnd(phase: seq<Event>, outs: seq<Finalized>, updates: seq<seq<string>>, through: seq<bool>,
      i: nat, j: nat)
    requires |outs| == |updates| == |through| && ParallelPhase(phase, outs, updates, through)
    requires i < j < |outs| && through[i] && !through[j] && outs[i].call.id == outs[j].call.id
    ensures !NoSharedEnd(phase, outs)
  {
    var head, start, end := PreflightEvents(outs[..j], through[..j]), ToolStart(j, outs[j].call), EndOf(j, outs[j]);
    RefusedInPreflight(outs, through, j);
    assert head + [start] + [end] <= phase;
    StillOpenBefore(outs, through, i, j);
    hide ParallelPhase, PreflightEvents, Open, SharedWithOpen;
    AtPrefix(head, start, end, phase);
    SharedBy(head + [start], end, outs, i);
  }

  lemma SharedBy(es: seq<Event>, e: Event, outs: seq<Finalized>, i: nat)
    requires e.ToolEnd? && i < |outs| && i != e.slot && Open(es, i) && outs[i].call.id == e.call.id
    ensures SharedWithOpen(es, e, outs)
  {
    hide Open;
  }

  /** A call that was let through is open when the preflight of a later one has started. */
  lemma StillOpenBefore(outs: seq<Finalized>, through: seq<bool>, i: nat, j: nat)
    requires |outs| == |through| && i < j < |outs| && through[i]
    ensures Open(PreflightEvents(outs[..j], through[..j]) + [ToolStart(j, outs[j].call)], i)
  {
    PreflightProjects(outs[..j], through[..j], i);
    hide PreflightEvents;
    OthersStay(PreflightEvents(outs[..j], through[..j]), ToolStart(j, outs[j].call), i);
  }

  lemma RefusedInPreflight(outs: seq<Finalized>, through: seq<bool>, j: nat)
    requires |outs| == |through| && j < |outs| && !through[j]
    ensures PreflightEvents(outs[..j], through[..j]) + [ToolStart(j, outs[j].call)] + [EndOf(j, outs[j])] <=
            PreflightEvents(outs, through)
  {
    hide PreflightEvents;
    assert outs[..j + 1][..j] == outs[..j] && through[..j + 1][..j] == through[..j];
    PreflightPrefix(outs, through, j + 1);
    PreflightSnoc(outs[..j + 1], through[..j + 1]);
  }

  lemma AtPrefix(a: seq<Event>, x: Event, y: Event, es: seq<Event>)
    requires a + [x] + [y] <= es
    ensures |a| + 1 < |es| && es[|a| + 1] == y && es[..|a| + 1] == a + [x]
  {
    assert es[|a| + 1] == (a + [x] + [y])[|a| + 1];
    assert es[..|a| + 1] == (a + [x] + [y])[..|a| + 1];
  }

  lemma NoTwinNoSharedEnd(phase: seq<Event>, outs: seq<Finalized>, updates: seq<seq<string>>, through: seq<bool>,
      k: nat, s: nat)
    requires |outs| == |updates| == |through| && ParallelPhase(phase, outs, updates, through)
    requires NoLaterTwin(outs, through)
    requires k < |phase| && phase[k].ToolEnd? && s < |outs| && s != phase[k].slot && Open(phase[..k], s)
    ensures outs[s].call.id != phase[k].call.id
  {
    var pre, e := PreflightEvents(outs, through), phase[k];
    ParallelInOrder(phase, outs, updates, through);
    PrefixInOrder(phase, k + 1, outs, updates);
    assert phase[..k + 1] == phase[..k] + [e];
    NextOfCall(phase[..k], e, outs, updates);
    if k < |pre| {
      assert pre[k] == e && pre[..k] == phase[..k];
      OpenInPreflight(outs, through, k, s);
    } else {
      StartedAfterPreflight(phase, outs, updates, through, k, s);
      StartedAfterPreflight(phase, outs, updates, through, k, e.slot);
    }
  }

  /** A parallel batch reports exactly the running calls, throughout and under every schedule, if and only
      if no call that was let through has the identifier of a later call. */
  lemma ParallelExactIffNoLaterTwin(v: View, phase: seq<Event>, outs: seq<Finalized>, updates: seq<seq<string>>,
      through: seq<bool>)
    requires v.pending == {}
    requires |outs| == |updates| == |through| && ParallelPhase(phase, outs, updates, through)
    ensures PendingExactThroughout(v, phase, outs) <==> NoLaterTwin(outs, through)
  {
    ParallelInOrder(phase, outs, updates, through);
    PendingExactIffNoSharedEnd(v, phase, outs, updates);
    hide ParallelPhase, PendingExactThroughout, Complete, InOrder;
    if NoLaterTwin(outs, through) {
      forall k | 0 <= k < |phase| && phase[k].ToolEnd? ensures !SharedWithOpen(phase[..k], phase[k], outs) {
        forall s | 0 <= s < |outs| && s != phase[k].slot && Open(phase[..k], s)
          ensures outs[s].call.id != phase[k].call.id
        {
          NoTwinNoSharedEnd(phase, outs, updates, through, k, s);
        }
      }
    } else {
      var i, j :| 0 <= i < j < |outs| && through[i] && outs[i].call.id == outs[j].call.id;
      if through[j] {
        TwinsShareAnEnd(phase, outs, updates, through, i, j);
      } else {
        RefusedTwinSharesAnEnd(phase, outs, updates, through, i, j);
      }
    }
  }

  lemma NothingElseOpen(es: seq<Event>, outs: seq<Finalized>, updates: seq<seq<string>>, k: nat)
    requires |outs| == |updates| && InOrder(es, outs, updates)
    requires k < |es| && es[k].ToolEnd? && AtMostOneOpen(es[..k])
    ensures !SharedWithOpen(es[..k], es[k], outs)
  {
    PrefixInOrder(es, k + 1, outs, updates);
    assert es[..k + 1] == es[..k] + [es[k]];
    hide InOrder, Open;
    NextOfCall(es[..k], es[k], outs, updates);
  }

  /** A sequential batch always reports exactly the running call. */
  lemma SequentialAlwaysExact(v: View, outs: seq<Finalized>, updates: seq<seq<string>>)
    requires v.pending == {} && |outs| == |updates|
    ensures PendingExactThroughout(v, SequentialEvents(outs, updates), outs)
  {
    var es := SequentialEvents(outs, updates);
    SequentialIsComplete(outs, updates);
    NothingOpenWhenComplete(es, outs, updates);
    hide SequentialEvents, PendingExactThroughout, Complete, InOrder, AtMostOneOpen, SharedWithOpen;
    forall k | 0 <= k < |es| && es[k].ToolEnd? ensures !SharedWithOpen(es[..k], es[k], outs) {
      SequentialIsExclusive(outs, updates, k);
      NothingElseOpen(es, outs, updates, k);
    }
    PendingExactIffNoSharedEnd(v, es, outs, updates);
  }

  /** Two calls with one identifier that are both let through are misreported under every schedule. */
  lemma SharedIdsHideACall(env: Env, v: View, call: ToolCall, args: string, twin: ToolCall, twinArgs: string,
      picks: seq<Pick>)
    requires v.pending == {} && call.id == twin.id
    requires forall t :: t in RunPicks(env, [Ready(call, args), Ready(twin, twinArgs)], picks).0 ==> t.Done?
    ensures var tasks := [Ready(call, args), Ready(twin, twinArgs)];
      var (ts, es) := RunPicks(env, tasks, picks);
      && ParallelPhase(ShownBefore(tasks) + es, Outcomes(ts), ShownUpdates(ts), Through(tasks))
      && !PendingExactThroughout(v, ShownBefore(tasks) + es, Outcomes(ts))
  {
    var tasks := [Ready(call, args), Ready(twin, twinArgs)];
    CompleteInterleaving(env, tasks, picks);
    var (ts, es) := RunPicks(env, tasks, picks);
    hide ParallelPhase, RunPicks, ShownBefore, PendingExactThroughout;
    assert Outcomes(ts)[0].call == call && Outcomes(ts)[1].call == twin && Through(tasks)[0];
    ParallelExactIffNoLaterTwin(v, ShownBefore(tasks) + es, Outcomes(ts), ShownUpdates(ts), Through(tasks));
  }
}
