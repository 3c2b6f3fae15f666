/** The packing loop of the session transcript script: consecutive transcripts share a file up to a limit.
    It loses nothing and writes as few files as any split into consecutive groups can. */
module Packing {
  import opened Strings

  const MAX_CHARS_PER_FILE: nat := 100_000
  const BLANK_LINE := "\n\n"

  /** The files written, by their number, and the list of numbers kept for the report. */
  datatype Output = Output(disk: map<nat, string>, written: seq<nat>, fileIndex: nat)

  function Write(out: Output, content: string): Output {
    Output(out.disk[out.fileIndex := content], out.written + [out.fileIndex], out.fileIndex + 1)
  }

  function Content(group: seq<string>): string {
    Join(group, BLANK_LINE)
  }

  function Flatten(groups: seq<seq<string>>): seq<string> {
    if groups == [] then [] else Flatten(Init(groups)) + Last(groups)
  }

  /** A group of transcripts that may share a file: one transcript, or several within the limit. */
  predicate LegalGroup(group: seq<string>) {
    |group| == 1 || (|group| > 1 && |Content(group)| <= MAX_CHARS_PER_FILE)
  }

  predicate Legal(groups: seq<seq<string>>) {
    forall k :: 0 <= k < |groups| ==> LegalGroup(groups[k])
  }

  /** The files are the groups, in order, numbered from zero. */
  predicate Holds(out: Output, groups: seq<seq<string>>) {
    && out.fileIndex == |out.written| == |groups|
    && (forall k :: k in out.disk ==> k < |groups|)
    && forall k :: 0 <= k < |groups| ==> out.written[k] == k && k in out.disk && out.disk[k] == Content(groups[k])
  }

  /** No legal split of these transcripts has fewer groups than the closed groups and the open one; and one
      with as many has at least as much in its last group. */
  ghost predicate Ahead(transcripts: seq<string>, closed: nat, open: nat) {
    forall o :: Legal(o) && Flatten(o) == transcripts ==>
      && |o| >= closed + (if open > 0 then 1 else 0)
      && (open > 0 && |o| == closed + 1 ==> |Last(o)| >= open)
  }

  // ---- Lengths ----

  lemma {:induction false} ContentSnoc(group: seq<string>, t: string)
    ensures Content(group + [t]) == Content(group) + (if group == [] then "" else "\n\n") + t
    ensures Content([t]) == t && Content([]) == ""
  {
    var all := group + [t];
    if group == [] {
      assert all == [t] && "" + "" + t == t;
    } else {
      ContentSnoc(group[1..], t);
      assert all[0] == group[0] && all[1..] == group[1..] + [t];
      if |group| > 1 {
        var first, rest := group[0], Content(group[1..]);
        assert first + BLANK_LINE + (rest + BLANK_LINE + t) == first + BLANK_LINE + rest + BLANK_LINE + t;
      }
    }
  }

  /** Taking transcripts from the front makes a group shorter. */
  lemma {:induction false} SuffixIsShorter(group: seq<string>, k: nat)
    requires k <= |group|
    ensures |Content(group[k..])| <= |Content(group)|
  {
    if k > 0 {
      SuffixIsShorter(group[1..], k - 1);
      assert group[1..][k - 1..] == group[k..];
    }
  }

  lemma ShorterIsLegal(group: seq<string>)
    requires |group| > 1 && LegalGroup(group)
    ensures LegalGroup(Init(group))
  {
    assert group == Init(group) + [Last(group)];
    ContentSnoc(Init(group), Last(group));
  }

  lemma {:induction false} OversizedIsAlone(group: seq<string>, k: nat)
    requires k < |group| && |group[k]| > MAX_CHARS_PER_FILE && LegalGroup(group)
    ensures |group| == 1
  {
    SuffixIsShorter(group, k);
    var rest := group[k..];
    assert |Content(rest)| >= |rest[0]|;
  }

  // ---- Splits of one transcript more ----

  /** A split of `ts + [t]` restricted to `ts`. */
  function Shrunk(o: seq<seq<string>>): seq<seq<string>>
    requires o != [] && Last(o) != []
  {
    if |Last(o)| == 1 then Init(o) else Init(o) + [Init(Last(o))]
  }

  lemma ShrunkSplits(ts: seq<string>, t: string, o: seq<seq<string>>)
    requires Legal(o) && Flatten(o) == ts + [t]
    ensures o != [] && Last(o) != [] && Last(Last(o)) == t
    ensures Legal(Shrunk(o)) && Flatten(Shrunk(o)) == ts && LegalGroup(Last(o))
    ensures |Last(o)| <= |ts| + 1 && Last(o) == (ts + [t])[|ts| + 1 - |Last(o)|..]
  {
    var last := Last(o);
    assert LegalGroup(last);
    assert ts + [t] == Flatten(Init(o)) + last;
    assert last[|last| - 1] == (ts + [t])[|ts|];
    assert (ts + [t])[..|ts|] == ts;
    if |last| == 1 {
      assert Flatten(Init(o)) == (ts + [t])[..|ts|];
    } else {
      ShorterIsLegal(last);
      var s := Shrunk(o);
      assert Init(s) == Init(o);
      assert Flatten(s) == Flatten(Init(o)) + Init(last) == (Flatten(Init(o)) + last)[..|ts|];
    }
  }

  /** `t` joins the open group. */
  lemma AheadAfterJoining(ts: seq<string>, t: string, closed: nat, open: nat)
    requires Ahead(ts, closed, open)
    requires open == 0 ==> ts == [] || |ts[|ts| - 1]| > MAX_CHARS_PER_FILE
    ensures Ahead(ts + [t], closed, open + 1)
  {
    hide Flatten, Legal, LegalGroup, Join;
    forall o | Legal(o) && Flatten(o) == ts + [t]
      ensures |o| >= closed + 1 && (|o| == closed + 1 ==> |Last(o)| >= open + 1)
    {
      ShrunkSplits(ts, t, o);
      var s, last := Shrunk(o), Last(o);
      assert |s| >= closed + (if open > 0 then 1 else 0);
      if |last| > 1 {
        if open == 0 {
          assert last[|last| - 2] == ts[|ts| - 1];
          OversizedIsAlone(last, |last| - 2);
        } else if |o| == closed + 1 {
          assert |Last(s)| >= open;
        }
      }
    }
  }

  /** A longer run of last transcripts is at least as long in characters. */
  lemma TooLong(ts: seq<string>, long: nat, short: nat)
    requires short <= long <= |ts|
    ensures |Content(ts[|ts| - long..])| >= |Content(ts[|ts| - short..])|
  {
    SuffixIsShorter(ts[|ts| - long..], long - short);
    assert ts[|ts| - long..][long - short..] == ts[|ts| - short..];
  }

  /** `t` does not fit the open group, which is closed; `t` opens the next. */
  lemma AheadAfterClosing(ts: seq<string>, t: string, closed: nat, open: nat)
    requires Ahead(ts, closed, open) && 0 < open <= |ts|
    requires |Content(ts[|ts| - open..] + [t])| > MAX_CHARS_PER_FILE
    ensures Ahead(ts + [t], closed + 1, 1)
  {
    hide Flatten, Legal, LegalGroup, Join;
    forall o | Legal(o) && Flatten(o) == ts + [t]
      ensures |o| >= closed + 2 && (|o| == closed + 2 ==> |Last(o)| >= 1)
    {
      ShrunkSplits(ts, t, o);
      var s, last := Shrunk(o), Last(o);
      assert |s| >= closed + 1 && (|s| == closed + 1 ==> |Last(s)| >= open);
      if |last| > 1 && |o| == closed + 1 { DoesNotFit(ts, t, open, |last|); }
    }
  }

  /** No legal group contains the last `open` of these transcripts and the next. */
  lemma DoesNotFit(ts: seq<string>, t: string, open: nat, long: nat)
    requires 0 < open <= |ts| && open < long <= |ts| + 1
    requires |Content(ts[|ts| - open..] + [t])| > MAX_CHARS_PER_FILE
    ensures !LegalGroup((ts + [t])[|ts| + 1 - long..])
  {
    hide Content;
    assert (ts + [t])[|ts| - open..] == ts[|ts| - open..] + [t];
    TooLong(ts + [t], long, open + 1);
  }

  /** An oversized `t` gets a file of its own; no group is open afterwards. */
  lemma AheadAfterOversized(ts: seq<string>, t: string, closed: nat)
    requires Ahead(ts, closed, 0) && |t| > MAX_CHARS_PER_FILE
    ensures Ahead(ts + [t], closed + 1, 0)
  {
    forall o | Legal(o) && Flatten(o) == ts + [t] ensures |o| >= closed + 1 {
      ShrunkSplits(ts, t, o);
      OversizedIsAlone(Last(o), |Last(o)| - 1);
    }
  }

  /** Does the loop close the open group before `t`? */
  predicate Closes(current: seq<string>, t: string) {
    current != [] && |Content(current)| + |t| + 2 > MAX_CHARS_PER_FILE
  }

  lemma StaysAhead(ts: seq<string>, t: string, closed: nat, current: seq<string>)
    requires Ahead(ts, closed, |current|)
    requires |current| <= |ts| && current == ts[|ts| - |current|..]
    requires current == [] ==> ts == [] || |ts[|ts| - 1]| > MAX_CHARS_PER_FILE
    ensures
      if |t| > MAX_CHARS_PER_FILE then Ahead(ts + [t], closed + (if current == [] then 1 else 2), 0)
      else if Closes(current, t) then Ahead(ts + [t], closed + 1, 1)
      else Ahead(ts + [t], closed, |current| + 1)
  {
    ContentSnoc(current, t);
    if |t| > MAX_CHARS_PER_FILE {
      assert Ahead(ts, closed + (if current == [] then 0 else 1), 0);
      AheadAfterOversized(ts, t, closed + (if current == [] then 0 else 1));
    } else if Closes(current, t) {
      AheadAfterClosing(ts, t, closed, |current|);
    } else {
      AheadAfterJoining(ts, t, closed, |current|);
    }
  }

  // ---- The loop ----

  /** What holds between two transcripts. */
  ghost predicate Packed(ts: seq<string>, out: Output, groups: seq<seq<string>>, current: seq<string>,
      content: string) {
    && Holds(out, groups) && Legal(groups) && Flatten(groups) + current == ts
    && (current != [] ==> LegalGroup(current))
    && content == Content(current) && (current == [] <==> content == "") && |content| <= MAX_CHARS_PER_FILE
    && (current == [] ==> ts == [] || |ts[|ts| - 1]| > MAX_CHARS_PER_FILE)
    && Ahead(ts, |groups|, |current|)
  }

  /** Writing a group keeps the files and the groups in step. */
  lemma WriteHolds(out: Output, groups: seq<seq<string>>, group: seq<string>)
    requires Holds(out, groups) && Legal(groups) && LegalGroup(group)
    ensures Holds(Write(out, Content(group)), groups + [group]) && Legal(groups + [group])
    ensures Flatten(groups + [group]) == Flatten(groups) + group
  {
    assert Init(groups + [group]) == groups;
  }

  lemma FewestGroups(transcripts: seq<string>, closed: nat, open: nat)
    requires Ahead(transcripts, closed, open)
    ensures forall o :: Legal(o) && Flatten(o) == transcripts ==> |o| >= closed + (if open > 0 then 1 else 0)
  {}

  /** The body of the loop. */
  method PackOne(transcript: string, out: Output, currentContent: string,
                 ghost ts: seq<string>, ghost groups: seq<seq<string>>, ghost current: seq<string>)
    returns (out': Output, currentContent': string, ghost groups': seq<seq<string>>, ghost current': seq<string>)
    requires |transcript| > 0 && Packed(ts, out, groups, current, currentContent)
    ensures Packed(ts + [transcript], out', groups', current', currentContent')
  {
    hide Ahead, Flatten, Holds, Legal, Write, Join;
    out', currentContent', groups', current' := out, currentContent, groups, current;
    assert current == ts[|ts| - |current|..];
    StaysAhead(ts, transcript, |groups|, current);
    ContentSnoc(current, transcript);
    if |currentContent'| > 0 && |currentContent'| + |transcript| + 2 > MAX_CHARS_PER_FILE {
      WriteHolds(out', groups', current');
      out' := Write(out', currentContent');
      currentContent' := "";
      groups', current' := groups' + [current'], [];
    }
    if |transcript| > MAX_CHARS_PER_FILE {
      if |currentContent'| > 0 {
        out' := Write(out', currentContent');
        currentContent' := "";
        groups', current' := groups' + [current'], [];
      }
      WriteHolds(out', groups', [transcript]);
      out' := Write(out', transcript);
      groups' := groups' + [[transcript]];
      assert Flatten(groups') + current' == Flatten(groups) + current + [transcript];
    } else {
      ContentSnoc(current', transcript);
      assert Flatten(groups') + (current' + [transcript]) == Flatten(groups) + current + [transcript];
      currentContent' := currentContent' + (if currentContent' != "" then BLANK_LINE else "") + transcript;
      current' := current' + [transcript];
    }
  }

  /** After the loop. */
  method WriteRemaining(ghost ts: seq<string>, out: Output, currentContent: string,
                        ghost groups: seq<seq<string>>, ghost current: seq<string>)
    returns (out': Output, ghost groups': seq<seq<string>>)
    requires Packed(ts, out, groups, current, currentContent)
    ensures Holds(out', groups') && Legal(groups') && Flatten(groups') == ts
    ensures forall o :: Legal(o) && Flatten(o) == ts ==> |out'.written| <= |o|
  {
    hide Join, Ahead, Legal;
    FewestGroups(ts, |groups|, |current|);
    out', groups' := out, groups;
    if |currentContent| > 0 {
      WriteHolds(out, groups, current);
      out' := Write(out, currentContent);
      groups' := groups + [current];
    }
  }

  lemma NothingPacked()
    ensures Packed([], Output(map[], [], 0), [], [], "")
  {}

  lemma TakeOneMore(ts: seq<string>, n: nat)
    requires n < |ts|
    ensures ts[..n + 1] == ts[..n] + [ts[n]]
  {}

  method PackAll(transcripts: seq<string>)
    returns (out: Output, currentContent: string, ghost groups: seq<seq<string>>, ghost current: seq<string>)
    requires forall k :: 0 <= k < |transcripts| ==> |transcripts[k]| > 0
    ensures Packed(transcripts, out, groups, current, currentContent)
  {
    out, groups, currentContent, current := Output(map[], [], 0), [], "", [];
    NothingPacked();
    hide *;
    assert transcripts[..0] == [];
    for n := 0 to |transcripts|
      invariant Packed(transcripts[..n], out, groups, current, currentContent)
    {
      TakeOneMore(transcripts, n);
      out, currentContent, groups, current :=
        PackOne(transcripts[n], out, currentContent, transcripts[..n], groups, current);
    }
    assert transcripts[..|transcripts|] == transcripts;
  }

  method Pack(transcripts: seq<string>) returns (out: Output, ghost groups: seq<seq<string>>)
    requires forall k :: 0 <= k < |transcripts| ==> |transcripts[k]| > 0
    ensures Holds(out, groups) && Legal(groups) && Flatten(groups) == transcripts
    ensures forall o :: Legal(o) && Flatten(o) == transcripts ==> |out.written| <= |o|
  {
    var currentContent;
    ghost var current;
    out, currentContent, groups, current := PackAll(transcripts);
    out, groups := WriteRemaining(transcripts, out, currentContent, groups, current);
  }

  /** Only a single transcript can make a file exceed the limit. */
  lemma OnlyOversizedFilesExceed(out: Output, groups: seq<seq<string>>, k: nat)
    requires Holds(out, groups) && Legal(groups) && k < |groups| && |out.disk[k]| > 100_000
    ensures |groups[k]| == 1 && out.disk[k] == groups[k][0]
  {
    assert LegalGroup(groups[k]);
  }
}
