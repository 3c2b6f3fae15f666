/** What the events of a batch of tool calls say about which calls are running. */
module ToolLifecycle {
  import opened Messages
  import opened Events
  import opened ToolBatch

  /** A call is open in a trace when it has started and has not ended. */
  predicate Open(es: seq<Event>, slot: nat) {
    var p := Project(es, slot);
    p != [] && !p[|p| - 1].ToolEnd?
  }

  /** The identifiers of the open calls. */
  function OpenIds(es: seq<Event>, outs: seq<Finalized>): set<string> {
    set s | 0 <= s < |outs| && Open(es, s) :: outs[s].call.id
  }

  /** So far every call has gone through a prefix of its own start, updates and end. */
  ghost predicate InOrder(es: seq<Event>, outs: seq<Finalized>, updates: seq<seq<string>>)
    requires |outs| == |updates|
  {
    && (forall i :: 0 <= i < |es| && IsToolEvent(es[i]) ==> es[i].slot < |outs|)
    && forall s :: 0 <= s < |outs| ==> Project(es, s) <= CallEvents(s, outs[s], updates[s])
  }

  /** Every call has gone through all of it. */
  ghost predicate Complete(es: seq<Event>, outs: seq<Finalized>, updates: seq<seq<string>>)
    requires |outs| == |updates|
  {
    && (forall i :: 0 <= i < |es| && IsToolEvent(es[i]) ==> es[i].slot < |outs|)
    && forall s :: 0 <= s < |outs| ==> Project(es, s) == CallEvents(s, outs[s], updates[s])
  }

  lemma NothingOpenWhenComplete(es: seq<Event>, outs: seq<Finalized>, updates: seq<seq<string>>)
    requires |outs| == |updates| && Complete(es, outs, updates)
    ensures InOrder(es, outs, updates) && OpenIds(es, outs) == {}
  {
    forall s | 0 <= s < |outs| ensures !Open(es, s) {
      assert Project(es, s) == CallEvents(s, outs[s], updates[s]);
    }
  }

  lemma PrefixInOrder(es: seq<Event>, k: nat, outs: seq<Finalized>, updates: seq<seq<string>>)
    requires |outs| == |updates| && k <= |es| && InOrder(es, outs, updates)
    ensures InOrder(es[..k], outs, updates)
  {
    forall s | 0 <= s < |outs| ensures Project(es[..k], s) <= CallEvents(s, outs[s], updates[s]) {
      ProjectAppend(es[..k], es[k..], s);
      assert es[..k] + es[k..] == es;
    }
  }

  /** Within the events of one call, the start is the first and the end is the last. */
  lemma NextInCall(p: seq<Event>, e: Event, slot: nat, f: Finalized, us: seq<string>)
    requires p + [e] <= CallEvents(slot, f, us) && IsToolEvent(e)
    ensures e.call == f.call
    ensures p == [] <==> e.ToolStart?
    ensures p != [] ==> !p[|p| - 1].ToolEnd?
  {
    var all := CallEvents(slot, f, us);
    assert all[|p|] == (p + [e])[|p|] == e;
    if p != [] {
      assert p[|p| - 1] == (p + [e])[|p| - 1] == all[|p| - 1];
    }
  }

  lemma OthersStay(es: seq<Event>, e: Event, s: nat)
    requires IsToolEvent(e) ==> e.slot != s
    ensures Open(es + [e], s) <==> Open(es, s)
  {
    ProjectSnoc(es, e, s);
  }

  /** The next event of a call determines whether the call is open afterwards. */
  lemma NextOfCall(es: seq<Event>, e: Event, outs: seq<Finalized>, updates: seq<seq<string>>)
    requires |outs| == |updates| && InOrder(es + [e], outs, updates) && IsToolEvent(e)
    ensures e.slot < |outs| && e.call == outs[e.slot].call
    ensures Open(es, e.slot) <==> !e.ToolStart?
    ensures Open(es + [e], e.slot) <==> !e.ToolEnd?
  {
    assert (es + [e])[|es|] == e;
    ProjectSnoc(es, e, e.slot);
    NextInCall(Project(es, e.slot), e, e.slot, outs[e.slot], updates[e.slot]);
  }

  /** The open calls after one more event. */
  lemma OpenIdsStep(es: seq<Event>, e: Event, outs: seq<Finalized>, updates: seq<seq<string>>, id: string)
    requires |outs| == |updates| && InOrder(es + [e], outs, updates)
    ensures id in OpenIds(es + [e], outs) <==>
      || (e.ToolStart? && id == e.call.id)
      || (id in OpenIds(es, outs) && (e.ToolEnd? && id == e.call.id ==> SharedWithOpen(es, e, outs)))
  {
    if IsToolEvent(e) {
      NextOfCall(es, e, outs, updates);
    }
    forall s: nat | !IsToolEvent(e) || s != e.slot ensures Open(es + [e], s) <==> Open(es, s) {
      OthersStay(es, e, s);
    }
  }

  /** Another open call carries the identifier that ends. */
  ghost predicate SharedWithOpen(es: seq<Event>, e: Event, outs: seq<Finalized>)
    requires e.ToolEnd?
  {
    exists s :: 0 <= s < |outs| && s != e.slot && Open(es, s) && outs[s].call.id == e.call.id
  }

  /** The agent never reports a call as pending that is not open. */
  lemma {:induction false} PendingIsOpen(v: View, es: seq<Event>, outs: seq<Finalized>, updates: seq<seq<string>>)
    requires v.pending == {} && |outs| == |updates| && InOrder(es, outs, updates)
    ensures ReduceAll(v, es).pending <= OpenIds(es, outs)
  {
    if es != [] {
      var n := |es| - 1;
      var e := es[n];
      assert es == es[..n] + [e];
      PrefixInOrder(es, n, outs, updates);
      PendingIsOpen(v, es[..n], outs, updates);
      forall id | id in ReduceAll(v, es).pending ensures id in OpenIds(es, outs) {
        OpenIdsStep(es[..n], e, outs, updates, id);
      }
    }
  }

  /** No call ends while another open call carries the same identifier. */
  ghost predicate NoSharedEnd(es: seq<Event>, outs: seq<Finalized>) {
    forall k :: 0 <= k < |es| && es[k].ToolEnd? ==> !SharedWithOpen(es[..k], es[k], outs)
  }

  /** The agent reports exactly the open calls. */
  ghost predicate PendingExact(v: View, es: seq<Event>, outs: seq<Finalized>) {
    ReduceAll(v, es).pending == OpenIds(es, outs)
  }

  ghost predicate PendingExactThroughout(v: View, es: seq<Event>, outs: seq<Finalized>) {
    forall k :: 0 <= k <= |es| ==> PendingExact(v, es[..k], outs)
  }

  lemma SharedIsOpen(es: seq<Event>, e: Event, outs: seq<Finalized>)
    requires e.ToolEnd?
    ensures SharedWithOpen(es, e, outs) ==> e.call.id in OpenIds(es, outs)
  {
    hide Open;
  }

  /** Ending an identifier removes it from the report, even if it stays open. */
  lemma ReportStep(before: set<string>, after: set<string>, id: string, starts: bool, ends: bool, shared: bool)
    requires forall x :: x in after <==> (starts && x == id) || (x in before && (ends && x == id ==> shared))
    requires !(starts && ends) && (shared ==> ends && id in before)
    ensures (if starts then before + {id} else if ends then before - {id} else before) == after <==> !shared
  {
  }

  /** One step keeps the report exact unless it ends a call whose identifier another open call shares. */
  lemma ExactStep(v: View, es: seq<Event>, e: Event, outs: seq<Finalized>, updates: seq<seq<string>>)
    requires |outs| == |updates| && InOrder(es + [e], outs, updates)
    requires PendingExact(v, es, outs)
    ensures PendingExact(v, es + [e], outs) <==>
      !(e.ToolEnd? && SharedWithOpen(es, e, outs))
  {
    var before, after, shared := OpenIds(es, outs), OpenIds(es + [e], outs), e.ToolEnd? && SharedWithOpen(es, e, outs);
    var id := if IsToolEvent(e) then e.call.id else "";
    assert e.ToolStart? || e.ToolEnd? ==> id == e.call.id;
    hide ReduceAll, Reduce, OpenIds, SharedWithOpen, InOrder, IsToolEvent;
    ReduceSnoc(v, es, e);
    ReportedAfter(ReduceAll(v, es), e);
    if e.ToolEnd? { SharedIsOpen(es, e, outs); }
    forall x ensures x in after <==>
      (e.ToolStart? && x == id) || (x in before && (e.ToolEnd? && x == id ==> shared))
    {
      OpenIdsStep(es, e, outs, updates, x);
    }
    ReportStep(before, after, id, e.ToolStart?, e.ToolEnd?, shared);
  }

  lemma ReportedAfter(v: View, e: Event)
    ensures Reduce(v, e).pending ==
      if e.ToolStart? then v.pending + {e.call.id} else if e.ToolEnd? then v.pending - {e.call.id} else v.pending
  {
  }

  /** `pendingToolCalls` is exactly the set of open calls throughout a trace if and only if no call
      ends while another open call has the same identifier. */
  lemma {:induction false} PendingExactIffNoSharedEnd(v: View, es: seq<Event>, outs: seq<Finalized>,
      updates: seq<seq<string>>)
    requires v.pending == {} && |outs| == |updates| && InOrder(es, outs, updates)
    ensures PendingExactThroughout(v, es, outs) <==> NoSharedEnd(es, outs)
  {
    if es == [] {
      assert OpenIds([], outs) == {};
      forall k | 0 <= k <= |es| ensures PendingExact(v, es[..k], outs) {
        assert es[..k] == [];
      }
    } else {
      var n := |es| - 1;
      var e := es[n];
      var es' := es[..n];
      assert es == es' + [e];
      PrefixInOrder(es, n, outs, updates);
      PendingExactIffNoSharedEnd(v, es', outs, updates);
      ExactSplit(v, es, outs);
      SharedSplit(es, outs);
      if PendingExactThroughout(v, es', outs) {
        assert es'[..n] == es';
        assert PendingExact(v, es'[..n], outs);
        ExactStep(v, es', e, outs, updates);
      }
    }
  }

  lemma ExactSplit(v: View, es: seq<Event>, outs: seq<Finalized>)
    requires es != []
    ensures PendingExactThroughout(v, es, outs) <==>
      PendingExactThroughout(v, es[..|es| - 1], outs) && PendingExact(v, es, outs)
  {
    var n := |es| - 1;
    var es' := es[..n];
    assert es[..|es|] == es;
    if PendingExactThroughout(v, es, outs) {
      forall k | 0 <= k <= n ensures PendingExact(v, es'[..k], outs) {
        assert es'[..k] == es[..k];
      }
    }
    if PendingExactThroughout(v, es', outs) && PendingExact(v, es, outs) {
      forall k | 0 <= k <= |es| ensures PendingExact(v, es[..k], outs) {
        if k <= n {
          assert es'[..k] == es[..k];
        }
      }
    }
  }

  lemma SharedSplit(es: seq<Event>, outs: seq<Finalized>)
    requires es != []
    ensures var n := |es| - 1;
      NoSharedEnd(es, outs) <==>
        NoSharedEnd(es[..n], outs) && !(es[n].ToolEnd? && SharedWithOpen(es[..n], es[n], outs))
  {
    var n := |es| - 1;
    var es' := es[..n];
    if NoSharedEnd(es, outs) {
      forall k | 0 <= k < n && es'[k].ToolEnd? ensures !SharedWithOpen(es'[..k], es'[k], outs) {
        assert es'[..k] == es[..k];
      }
    }
    if NoSharedEnd(es', outs) && !(es[n].ToolEnd? && SharedWithOpen(es[..n], es[n], outs)) {
      forall k | 0 <= k < |es| && es[k].ToolEnd? ensures !SharedWithOpen(es[..k], es[k], outs) {
        if k < n {
          assert es'[..k] == es[..k] && es'[k] == es[k];
        }
      }
    }
  }

  ghost predicate DistinctIds(outs: seq<Finalized>) {
    forall i, j :: 0 <= i < j < |outs| ==> outs[i].call.id != outs[j].call.id
  }

  lemma DistinctIsUnshared(es: seq<Event>, e: Event, outs: seq<Finalized>)
    requires DistinctIds(outs) && e.ToolEnd? && e.slot < |outs| && e.call == outs[e.slot].call
    ensures !SharedWithOpen(es, e, outs)
  {
    hide Open;
  }

  /** With distinct identifiers the report is exact at every moment of every interleaving. */
  lemma DistinctIdsMakePendingExact(v: View, es: seq<Event>, outs: seq<Finalized>, updates: seq<seq<string>>)
    requires v.pending == {} && |outs| == |updates| && InOrder(es, outs, updates) && DistinctIds(outs)
    ensures PendingExactThroughout(v, es, outs)
  {
    hide PendingExactThroughout, ReduceAll, InOrder, SharedWithOpen, Open, DistinctIds;
    forall k | 0 <= k < |es| && es[k].ToolEnd? ensures !SharedWithOpen(es[..k], es[k], outs) {
      PrefixInOrder(es, k + 1, outs, updates);
      assert es[..k + 1] == es[..k] + [es[k]];
      NextOfCall(es[..k], es[k], outs, updates);
      DistinctIsUnshared(es[..k], es[k], outs);
    }
    PendingExactIffNoSharedEnd(v, es, outs, updates);
  }

  // ---- Both modes ----

  lemma {:induction false} PairsProjectToNothing(ms: seq<Message>, slot: nat)
    ensures Project(Pairs(ms), slot) == []
    ensures forall i :: 0 <= i < |Pairs(ms)| ==> !IsToolEvent(Pairs(ms)[i])
  {
    if ms != [] {
      var n := |ms| - 1;
      PairsProjectToNothing(ms[..n], slot);
      var es := Pairs(ms[..n]);
      assert Pairs(ms) == (es + [MessageStart(ms[n])]) + [MessageEnd(ms[n])];
      ProjectSnoc(es, MessageStart(ms[n]), slot);
      ProjectSnoc(es + [MessageStart(ms[n])], MessageEnd(ms[n]), slot);
    }
  }

  lemma ParallelIsComplete(phase: seq<Event>, outs: seq<Finalized>, updates: seq<seq<string>>, through: seq<bool>)
    requires |outs| == |updates| == |through| && ParallelPhase(phase, outs, updates, through)
    ensures Complete(phase + Pairs(Results(outs)), outs, updates)
  {
    var ps := Pairs(Results(outs));
    forall s | 0 <= s < |outs| ensures Project(phase + ps, s) == CallEvents(s, outs[s], updates[s]) {
      ProjectAppend(phase, ps, s);
      PairsProjectToNothing(Results(outs), s);
    }
    PairsProjectToNothing(Results(outs), 0);
  }

  /** Events without tools add no moment at which a call could be misreported. */
  lemma ToolFreeTail(es: seq<Event>, tail: seq<Event>, outs: seq<Finalized>)
    requires forall i :: 0 <= i < |tail| ==> !IsToolEvent(tail[i])
    ensures NoSharedEnd(es + tail, outs) <==> NoSharedEnd(es, outs)
  {
    hide SharedWithOpen;
    var all := es + tail;
    forall k | 0 <= k < |es| ensures all[k] == es[k] && all[..k] == es[..k] {}
    if NoSharedEnd(all, outs) {
      forall k | 0 <= k < |es| && es[k].ToolEnd? ensures !SharedWithOpen(es[..k], es[k], outs) {
        assert all[k].ToolEnd? && all[..k] == es[..k];
      }
    } else {
      var k :| 0 <= k < |all| && all[k].ToolEnd? && SharedWithOpen(all[..k], all[k], outs);
      assert k < |es| && all[..k] == es[..k];
    }
  }

  /** In parallel mode every call has ended before the first result message starts. */
  lemma EndsPrecedeResults(phase: seq<Event>, outs: seq<Finalized>, updates: seq<seq<string>>,
      through: seq<bool>, i: nat, j: nat)
    requires |outs| == |updates| == |through| && ParallelPhase(phase, outs, updates, through)
    requires i < |phase + Pairs(Results(outs))| && (phase + Pairs(Results(outs)))[i].ToolEnd?
    requires j < |phase + Pairs(Results(outs))| && HasMessage((phase + Pairs(Results(outs)))[j])
    ensures i < j
  {
    PairsProjectToNothing(Results(outs), 0);
  }

  lemma ProjectForeign(es: seq<Event>, slot: nat)
    requires forall i :: 0 <= i < |es| && IsToolEvent(es[i]) ==> es[i].slot != slot
    ensures Project(es, slot) == []
  {
    if es != [] {
      ProjectForeign(es[..|es| - 1], slot);
    }
  }

  lemma {:induction false} ProjectOwn(es: seq<Event>, slot: nat)
    requires forall i :: 0 <= i < |es| ==> IsToolEvent(es[i]) && es[i].slot == slot
    ensures Project(es, slot) == es
  {
    if es != [] {
      ProjectOwn(es[..|es| - 1], slot);
      assert es == es[..|es| - 1] + [es[|es| - 1]];
    }
  }

  lemma CallAndResultProjects(slot: nat, f: Finalized, us: seq<string>, s: nat)
    ensures Project(CallAndResult(slot, f, us), s) == if s == slot then CallEvents(slot, f, us) else []
  {
    var pair := [MessageStart(ResultMessage(f)), MessageEnd(ResultMessage(f))];
    ProjectAppend(CallEvents(slot, f, us), pair, s);
    ProjectForeign(pair, s);
    if s == slot {
      ProjectOwn(CallEvents(slot, f, us), slot);
    } else {
      ProjectForeign(CallEvents(slot, f, us), s);
    }
  }

  lemma {:induction false} SequentialSlots(outs: seq<Finalized>, updates: seq<seq<string>>, i: nat)
    requires |outs| == |updates| && i < |SequentialEvents(outs, updates)|
    requires IsToolEvent(SequentialEvents(outs, updates)[i])
    ensures SequentialEvents(outs, updates)[i].slot < |outs|
  {
    var n := |outs| - 1;
    var head, last := SequentialEvents(outs[..n], updates[..n]), CallAndResult(n, outs[n], updates[n]);
    if i < |head| {
      SequentialSlots(outs[..n], updates[..n], i);
    } else {
      assert SequentialEvents(outs, updates)[i] == last[i - |head|];
    }
  }

  lemma {:induction false} SequentialIsComplete(outs: seq<Finalized>, updates: seq<seq<string>>)
    requires |outs| == |updates|
    ensures Complete(SequentialEvents(outs, updates), outs, updates)
  {
    if outs != [] {
      var n := |outs| - 1;
      SequentialIsComplete(outs[..n], updates[..n]);
      forall s | 0 <= s < |outs|
        ensures Project(SequentialEvents(outs, updates), s) == CallEvents(s, outs[s], updates[s])
      {
        SequentialProjects(outs, updates, s);
      }
    }
    hide SequentialEvents, Project;
    var es := SequentialEvents(outs, updates);
    forall i | 0 <= i < |es| && IsToolEvent(es[i]) ensures es[i].slot < |outs| {
      SequentialSlots(outs, updates, i);
    }
  }

  lemma SequentialProjects(outs: seq<Finalized>, updates: seq<seq<string>>, s: nat)
    requires |outs| == |updates| && s < |outs|
    requires var n := |outs| - 1; Complete(SequentialEvents(outs[..n], updates[..n]), outs[..n], updates[..n])
    ensures Project(SequentialEvents(outs, updates), s) == CallEvents(s, outs[s], updates[s])
  {
    var n := |outs| - 1;
    var es := SequentialEvents(outs[..n], updates[..n]);
    ProjectAppend(es, CallAndResult(n, outs[n], updates[n]), s);
    CallAndResultProjects(n, outs[n], updates[n], s);
    if s == n {
      ProjectForeign(es, n);
    } else {
      assert Project(es, s) == CallEvents(s, outs[..n][s], updates[..n][s]);
    }
  }

  /** At most one call is open. */
  ghost predicate AtMostOneOpen(es: seq<Event>) {
    forall s: nat, t: nat :: Open(es, s) && Open(es, t) ==> s == t
  }

  /** After the first n calls, only call n can be open. */
  lemma OnlyTheLastIsOpen(outs: seq<Finalized>, updates: seq<seq<string>>, tail: seq<Event>, s: nat)
    requires |outs| == |updates| && s != |outs|
    requires forall i :: 0 <= i < |tail| && IsToolEvent(tail[i]) ==> tail[i].slot == |outs|
    ensures !Open(SequentialEvents(outs, updates) + tail, s)
  {
    var head := SequentialEvents(outs, updates);
    SequentialIsComplete(outs, updates);
    ProjectAppend(head, tail, s);
    ProjectForeign(tail, s);
    if s > |outs| {
      ProjectForeign(head, s);
    }
  }

  /** Mutual exclusion: at every moment of a sequential batch at most one call is between its start
      and its end. */
  lemma {:induction false} SequentialIsExclusive(outs: seq<Finalized>, updates: seq<seq<string>>, k: nat)
    requires |outs| == |updates| && k <= |SequentialEvents(outs, updates)|
    ensures AtMostOneOpen(SequentialEvents(outs, updates)[..k])
    decreases |outs|
  {
    var es := SequentialEvents(outs, updates);
    if outs == [] {
      assert es[..k] == [];
    } else {
      var n := |outs| - 1;
      var head := SequentialEvents(outs[..n], updates[..n]);
      var last := CallAndResult(n, outs[n], updates[n]);
      if k <= |head| {
        SequentialIsExclusive(outs[..n], updates[..n], k);
        assert es[..k] == head[..k];
      } else {
        var tail := last[..k - |head|];
        assert es[..k] == head + tail;
        assert forall i :: 0 <= i < |tail| ==> tail[i] == last[i];
        forall s: nat | s != n ensures !Open(es[..k], s) {
          OnlyTheLastIsOpen(outs[..n], updates[..n], tail, s);
        }
      }
    }
  }
}
