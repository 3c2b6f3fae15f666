/** What the proxy client's stream must announce of the events it accepted, and in which order. */
module ProxyAnnouncements {
  import opened Messages
  import opened ProxyMessage

  predicate Concludes(e: ProxyEvent) {
    e.Done? || e.Failure?
  }

  /** Some event tells that the response is complete or has failed. */
  predicate Concluded(es: seq<ProxyEvent>) {
    exists k :: 0 <= k < |es| && Concludes(es[k])
  }

  predicate FirstConclusion(es: seq<ProxyEvent>, k: int) {
    0 <= k < |es| && Concludes(es[k]) && forall i :: 0 <= i < k ==> !Concludes(es[i])
  }

  /** The first n events are announced in order, all but the silent ones; `at` says where. */
  predicate ToldInOrder(es: seq<ProxyEvent>, n: nat, at: seq<nat>, told: seq<Announcement>, parse: Parser)
    requires n <= |es|
  {
    && |told| == |at|
    && (forall i, j :: 0 <= i < j < |at| ==> at[i] < at[j])
    && (forall i :: 0 <= i < |at| ==> at[i] < n && !IsSilent(es, at[i], parse) && Tells(es, at[i], told[i], parse))
    && (forall k: nat :: k < n && !IsSilent(es, k, parse) ==> k in at)
  }

  /** The first n events are those up to the first conclusion, or all of them if there is none. */
  predicate UpToConclusion(es: seq<ProxyEvent>, n: nat) {
    && n <= |es|
    && (forall i :: 0 <= i < n - 1 ==> !Concludes(es[i]))
    && (n == |es| || (n > 0 && Concludes(es[n - 1])))
  }

  /** These are the announcements of the accepted events. */
  ghost predicate Heard(es: seq<ProxyEvent>, told: seq<Announcement>, parse: Parser) {
    exists n, at :: UpToConclusion(es, n) && ToldInOrder(es, n, at, told, parse)
  }

  lemma ConcludedSnoc(es: seq<ProxyEvent>, e: ProxyEvent)
    ensures Concluded(es + [e]) <==> Concluded(es) || Concludes(e)
  {
    hide Concludes;
    assert (es + [e])[|es|] == e;
    forall k | 0 <= k < |es| ensures (es + [e])[k] == es[k] {}
    if Concluded(es) {
      var k :| 0 <= k < |es| && Concludes(es[k]);
      assert Concludes((es + [e])[k]);
    }
  }

  /** What was told stays right when more events come. */
  lemma StillTold(es: seq<ProxyEvent>, e: ProxyEvent, n: nat, at: seq<nat>, told: seq<Announcement>, parse: Parser)
    requires n <= |es| && ToldInOrder(es, n, at, told, parse)
    ensures ToldInOrder(es + [e], n, at, told, parse)
  {
    hide BlockAt;
    forall k: nat | k < n
      ensures IsSilent(es + [e], k, parse) <==> IsSilent(es, k, parse)
      ensures forall a :: Tells(es + [e], k, a, parse) <==> Tells(es, k, a, parse)
    {
      assert (es + [e])[..k] == es[..k] && (es + [e])[k] == es[k];
    }
  }

  lemma OneMoreTold(es: seq<ProxyEvent>, at: seq<nat>, told: seq<Announcement>, parse: Parser, a: Option<Announcement>)
    requires es != [] && ToldInOrder(es, |es| - 1, at, told, parse)
    requires a.None? <==> IsSilent(es, |es| - 1, parse)
    requires a.Some? ==> Tells(es, |es| - 1, a.value, parse)
    ensures a.Some? ==> ToldInOrder(es, |es|, at + [|es| - 1], told + [a.value], parse)
    ensures a.None? ==> ToldInOrder(es, |es|, at, told, parse)
  {
    hide IsSilent, Tells;
    var more := at + [|es| - 1];
    assert more[|at|] == |es| - 1;
    forall k: nat | k in at ensures k in more {}
  }

  lemma UpToSnoc(es: seq<ProxyEvent>, e: ProxyEvent, n: nat)
    requires UpToConclusion(es, n)
    ensures if Concluded(es) then UpToConclusion(es + [e], n)
            else n == |es| && UpToConclusion(es + [e], |es| + 1)
  {
    hide Concludes;
    var all := es + [e];
    forall k | 0 <= k < |es| ensures all[k] == es[k] {}
    if Concluded(es) {
      var k :| 0 <= k < |es| && Concludes(es[k]);
      assert k >= n - 1;
    }
  }

  /** One more accepted event is announced unless the response was concluded before. */
  lemma HeardSnoc(es: seq<ProxyEvent>, e: ProxyEvent, told: seq<Announcement>, parse: Parser)
    requires Heard(es, told, parse) && Admissible(es, e)
    ensures var a := Announced(es, e, parse);
      Heard(es + [e], if Concluded(es) || a.None? then told else told + [a.value], parse)
  {
    var n, at :| UpToConclusion(es, n) && ToldInOrder(es, n, at, told, parse);
    UpToSnoc(es, e, n);
    hide ToldInOrder, IsSilent, Tells, Announced, Admissible, Concluded;
    StillTold(es, e, n, at, told, parse);
    AnnouncedTells(es, e, parse);
    if !Concluded(es) { OneMoreTold(es + [e], at, told, parse, Announced(es, e, parse)); }
  }

  lemma NothingHeard(parse: Parser)
    ensures Heard([], [], parse)
  {
    assert UpToConclusion([], 0) && ToldInOrder([], 0, [], [], parse);
  }

  lemma LargestIsLast(at: seq<nat>, k: nat)
    requires forall i, j :: 0 <= i < j < |at| ==> at[i] < at[j]
    requires k in at && forall i :: 0 <= i < |at| ==> at[i] <= k
    ensures at != [] && at[|at| - 1] == k
  {
    var i :| 0 <= i < |at| && at[i] == k;
    if i < |at| - 1 { assert at[i] < at[|at| - 1]; }
  }

  lemma ConclusionTells(es: seq<ProxyEvent>, k: nat, a: Announcement, parse: Parser)
    requires k < |es| && Concludes(es[k])
    ensures !IsSilent(es, k, parse)
    ensures Tells(es, k, a, parse) ==> a == if es[k].Done? then DoneWith(es[k].reason) else FailedWith(es[k].reason)
  {
    hide BlockAt;
  }

  lemma LatestIsToldLast(es: seq<ProxyEvent>, n: nat, at: seq<nat>, told: seq<Announcement>, parse: Parser)
    requires 0 < n <= |es| && ToldInOrder(es, n, at, told, parse) && !IsSilent(es, n - 1, parse)
    ensures told != [] && Tells(es, n - 1, told[|told| - 1], parse)
  {
    hide IsSilent, Tells;
    LargestIsLast(at, n - 1);
  }

  /** The announcement of the first conclusion is the last one. */
  lemma ConclusionIsToldLast(es: seq<ProxyEvent>, k: nat, told: seq<Announcement>, parse: Parser)
    requires Heard(es, told, parse) && FirstConclusion(es, k)
    ensures told != [] && told[|told| - 1] == if es[k].Done? then DoneWith(es[k].reason) else FailedWith(es[k].reason)
  {
    var n, at :| UpToConclusion(es, n) && ToldInOrder(es, n, at, told, parse);
    assert n == k + 1 by { hide ToldInOrder; }
    hide ToldInOrder, IsSilent, Tells, UpToConclusion;
    ConclusionTells(es, k, DoneWith(Stop), parse);
    LatestIsToldLast(es, n, at, told, parse);
    ConclusionTells(es, k, told[|told| - 1], parse);
  }

  lemma {:induction false} SomeConclusionIsFirst(es: seq<ProxyEvent>) returns (k: nat)
    requires Concluded(es)
    ensures FirstConclusion(es, k)
  {
    var front := es[..|es| - 1];
    if Concluded(front) {
      k := SomeConclusionIsFirst(front);
    } else {
      forall i | 0 <= i < |front| ensures !Concludes(es[i]) { assert front[i] == es[i]; }
      k := |es| - 1;
    }
  }

  /** How the response settles: by its first conclusion; without one, by the error that ended the reading, as
      aborted or failed; and not at all if the reading just ended. */
  ghost predicate Settles(es: seq<ProxyEvent>, error: Option<string>, aborted: bool, result: Option<Announcement>) {
    && (forall k :: FirstConclusion(es, k) ==>
          result == Some(if es[k].Done? then DoneWith(es[k].reason) else FailedWith(es[k].reason)))
    && (!Concluded(es) && error.Some? ==> result == Some(FailedWith(if aborted then Aborted else Error)))
    && (!Concluded(es) && error.None? ==> result == None)
  }

  /** It settles exactly if an error ended the reading or an event concluded it. */
  lemma SettlesExactlyIf(es: seq<ProxyEvent>, error: Option<string>, aborted: bool, result: Option<Announcement>)
    requires Settles(es, error, aborted, result)
    ensures result.Some? <==> error.Some? || Concluded(es)
  {
    hide Concluded;
    if Concluded(es) { var k := SomeConclusionIsFirst(es); }
  }

  // ---- The reason and the error of the message ----

  /** The stop reason is that of the latest conclusion. */
  lemma {:induction false} ReasonIsTheLatest(es: seq<ProxyEvent>, k: nat)
    requires k < |es| && Concludes(es[k]) && forall i :: k < i < |es| ==> !Concludes(es[i])
    ensures ReasonOf(es) == es[k].reason
  {
    if k < |es| - 1 { ReasonIsTheLatest(es[..|es| - 1], k); }
  }

  lemma {:induction false} StopUnlessConcluded(es: seq<ProxyEvent>)
    requires !Concluded(es)
    ensures ReasonOf(es) == Stop && ErrorOf(es) == None
  {
    if es != [] {
      var front := es[..|es| - 1];
      assert !Concludes(es[|es| - 1]);
      forall i | 0 <= i < |front| ensures !Concludes(front[i]) { assert front[i] == es[i]; }
      StopUnlessConcluded(front);
    }
  }

  /** The error message is that of the latest failure. */
  lemma {:induction false} ErrorIsTheLatest(es: seq<ProxyEvent>, k: nat)
    requires k < |es| && es[k].Failure? && forall i :: k < i < |es| ==> !es[i].Failure?
    ensures ErrorOf(es) == es[k].errorMessage
  {
    if k < |es| - 1 { ErrorIsTheLatest(es[..|es| - 1], k); }
  }
}
