/** Upload accounting: one total per modification, counters and totals that never fall. */
module Uploads {
  import opened Basics
  import opened Protocol
  import opened Chain
  import opened History
  import opened Quorum

  // ----- layouts

  ghost predicate DistinctKeys(layout: seq<KeyAndBytes>) {
    forall i, j :: 0 <= i < j < |layout| ==> layout[i].key != layout[j].key
  }

  function Counter(layout: seq<KeyAndBytes>, key: Key): nat {
    var b := BytesOf(layout, key);
    if b.Some? then b.value else 0
  }

  /** Every key of the earlier layout with a positive counter is still there. */
  ghost predicate Covers(layout: seq<KeyAndBytes>, earlier: seq<KeyAndBytes>) {
    forall key :: Counter(earlier, key) > 0 ==> BytesOf(layout, key).Some?
  }

  /** No counter, and so no total, falls from one layout to the next. */
  ghost predicate Grows(earlier: seq<KeyAndBytes>, layout: seq<KeyAndBytes>) {
    (forall key :: Counter(earlier, key) <= Counter(layout, key)) && Total(earlier) <= Total(layout)
  }

  /** The upload check ignores keys that vanish: after a passed check no counter has fallen exactly when
      every key with a positive counter is still in the layout. */
  lemma CheckedCountersHoldIff(uploads: map<Key, seq<KeyAndBytes>>, opinion: SingleOpinion)
    requires opinion.replicatorKey in uploads && Admissible(uploads, opinion)
    ensures var known := uploads[opinion.replicatorKey];
            (forall key :: Counter(known, key) <= Counter(opinion.uploadLayout, key)) <==>
            Covers(opinion.uploadLayout, known)
  {
    var known := uploads[opinion.replicatorKey];
    if key :| Counter(known, key) > Counter(opinion.uploadLayout, key) {
      assert BytesOf(opinion.uploadLayout, key).None?;
    } else {
      forall key | Counter(known, key) > 0 ensures BytesOf(opinion.uploadLayout, key).Some? {
        assert Counter(known, key) <= Counter(opinion.uploadLayout, key);
      }
    }
  }

  function WithoutKey(layout: seq<KeyAndBytes>, key: Key): seq<KeyAndBytes> {
    if layout == [] then []
    else if layout[0].key == key then layout[1..]
    else [layout[0]] + WithoutKey(layout[1..], key)
  }

  lemma WithoutKeyTotal(layout: seq<KeyAndBytes>, key: Key)
    requires BytesOf(layout, key).Some?
    ensures Total(layout) == BytesOf(layout, key).value + Total(WithoutKey(layout, key))
    ensures forall k :: k != key ==> BytesOf(WithoutKey(layout, key), k) == BytesOf(layout, k)
  {
    if layout[0].key != key {
      WithoutKeyTotal(layout[1..], key);
    }
  }

  lemma TotalGrows(known: seq<KeyAndBytes>, layout: seq<KeyAndBytes>)
    requires DistinctKeys(known)
    requires forall e :: e in known && e.uploadedBytes > 0 ==>
      BytesOf(layout, e.key).Some? && e.uploadedBytes <= BytesOf(layout, e.key).value
    ensures Total(known) <= Total(layout)
    decreases |known|
  {
    if known == [] {
    } else if known[0].uploadedBytes == 0 {
      TotalGrows(known[1..], layout);
    } else {
      var rest, others := known[1..], WithoutKey(layout, known[0].key);
      WithoutKeyTotal(layout, known[0].key);
      forall e | e in rest && e.uploadedBytes > 0
        ensures BytesOf(others, e.key).Some? && e.uploadedBytes <= BytesOf(others, e.key).value
      {
        var i :| 0 <= i < |rest| && rest[i] == e;
        assert known[i + 1] == e && known[0].key != e.key;
      }
      TotalGrows(rest, others);
    }
  }

  lemma DistinctBytes(layout: seq<KeyAndBytes>, e: KeyAndBytes)
    requires DistinctKeys(layout) && e in layout
    ensures BytesOf(layout, e.key) == Some(e.uploadedBytes)
  {
    var b := BytesOf(layout, e.key);
    var i :| 0 <= i < |layout| && layout[i] == KeyAndBytes(e.key, b.value);
    var j :| 0 <= j < |layout| && layout[j] == e;
  }

  lemma CheckedLayoutGrows(uploads: map<Key, seq<KeyAndBytes>>, opinion: SingleOpinion)
    requires opinion.replicatorKey in uploads && Admissible(uploads, opinion)
    requires DistinctKeys(uploads[opinion.replicatorKey])
    requires Covers(opinion.uploadLayout, uploads[opinion.replicatorKey])
    ensures Grows(uploads[opinion.replicatorKey], opinion.uploadLayout)
  {
    var known := uploads[opinion.replicatorKey];
    forall e | e in known && e.uploadedBytes > 0
      ensures BytesOf(opinion.uploadLayout, e.key).Some?
              && e.uploadedBytes <= BytesOf(opinion.uploadLayout, e.key).value
    {
      DistinctBytes(known, e);
      assert Counter(known, e.key) > 0;
    }
    TotalGrows(known, opinion.uploadLayout);
    CheckedCountersHoldIff(uploads, opinion);
  }

  lemma GrowsTransitive(a: seq<KeyAndBytes>, b: seq<KeyAndBytes>, c: seq<KeyAndBytes>)
    requires Grows(a, b) && Grows(b, c)
    ensures Grows(a, c)
  {
    forall key ensures Counter(a, key) <= Counter(c, key) {
      assert Counter(a, key) <= Counter(b, key);
    }
  }

  // ----- recording opinions

  ghost predicate AllDistinct(uploads: map<Key, seq<KeyAndBytes>>) {
    forall r :: r in uploads ==> DistinctKeys(uploads[r])
  }

  /** Each layout has distinct keys and keeps those with a positive counter in its author's previous layout. */
  ghost predicate Disciplined(uploads: map<Key, seq<KeyAndBytes>>, opinions: seq<SingleOpinion>)
    decreases |opinions|
  {
    opinions == [] ||
    (var o := opinions[0];
     && DistinctKeys(o.uploadLayout)
     && (o.replicatorKey in uploads ==> Covers(o.uploadLayout, uploads[o.replicatorKey]))
     && Disciplined(uploads[o.replicatorKey := o.uploadLayout], opinions[1..]))
  }

  lemma RecordGrows(uploads: map<Key, seq<KeyAndBytes>>, opinions: seq<SingleOpinion>, r: Key)
    requires Record(uploads, opinions).passed && Disciplined(uploads, opinions) && AllDistinct(uploads)
    ensures AllDistinct(Record(uploads, opinions).uploads)
    ensures r in uploads ==>
              r in Record(uploads, opinions).uploads && Grows(uploads[r], Record(uploads, opinions).uploads[r])
    decreases |opinions|
  {
    if opinions == [] {
    } else {
      var o := opinions[0];
      var next := uploads[o.replicatorKey := o.uploadLayout];
      RecordGrows(next, opinions[1..], r);
      if r in uploads && r == o.replicatorKey {
        CheckedLayoutGrows(uploads, o);
        GrowsTransitive(uploads[r], next[r], Record(next, opinions[1..]).uploads[r]);
      }
    }
  }

  function LayoutOf(uploads: map<Key, seq<KeyAndBytes>>, r: Key): Option<seq<KeyAndBytes>> {
    if r in uploads then Some(uploads[r]) else None
  }

  /** The layout that counts for `r` when the first `i` opinions are recorded: its last one among them, or
      else what was recorded before. */
  function LayoutBefore(uploads: map<Key, seq<KeyAndBytes>>, opinions: seq<SingleOpinion>, i: nat,
                        r: Key): Option<seq<KeyAndBytes>>
    requires i <= |opinions|
  {
    if i == 0 then LayoutOf(uploads, r)
    else if opinions[i - 1].replicatorKey == r then Some(opinions[i - 1].uploadLayout)
    else LayoutBefore(uploads, opinions, i - 1, r)
  }

  /** Every entry of the new layout is at least the first entry of the earlier one with its key. */
  ghost predicate NoneFalls(earlier: Option<seq<KeyAndBytes>>, layout: seq<KeyAndBytes>) {
    earlier.Some? ==>
      forall e, i :: e in layout && IsFirst(earlier.value, i, e.key) ==>
        earlier.value[i].uploadedBytes <= e.uploadedBytes
  }

  ghost predicate IsFirst(layout: seq<KeyAndBytes>, i: int, key: Key) {
    0 <= i < |layout| && layout[i].key == key && forall j :: 0 <= j < i ==> layout[j].key != key
  }

  /** The opinion passes the upload check when those before it are recorded. */
  ghost predicate PassesAfter(uploads: map<Key, seq<KeyAndBytes>>, opinions: seq<SingleOpinion>, i: nat)
    requires i < |opinions|
  {
    NoneFalls(LayoutBefore(uploads, opinions, i, opinions[i].replicatorKey), opinions[i].uploadLayout)
  }

  /** The first `n` opinions, and no more, pass the upload check one after the other. */
  ghost predicate PassUpTo(uploads: map<Key, seq<KeyAndBytes>>, opinions: seq<SingleOpinion>, n: nat) {
    && n <= |opinions|
    && (forall i :: 0 <= i < n ==> PassesAfter(uploads, opinions, i))
    && (n < |opinions| ==> !PassesAfter(uploads, opinions, n))
  }

  lemma {:induction false} LayoutBeforeShifted(uploads: map<Key, seq<KeyAndBytes>>, opinions: seq<SingleOpinion>,
                                               i: nat, r: Key)
    requires i < |opinions|
    ensures LayoutBefore(uploads[opinions[0].replicatorKey := opinions[0].uploadLayout], opinions[1..], i, r)
         == LayoutBefore(uploads, opinions, i + 1, r)
  {
    if i == 0 {
    } else {
      LayoutBeforeShifted(uploads, opinions, i - 1, r);
    }
  }

  lemma AdmissibleIff(uploads: map<Key, seq<KeyAndBytes>>, o: SingleOpinion)
    ensures Admissible(uploads, o) <==>
            NoneFalls(LayoutOf(uploads, o.replicatorKey), o.uploadLayout)
  {
    if o.replicatorKey in uploads {
      var known := uploads[o.replicatorKey];
      forall e | e in o.uploadLayout
        ensures BytesOf(known, e.key).None? ==> forall i :: !IsFirst(known, i, e.key)
        ensures BytesOf(known, e.key).Some? ==> exists i :: IsFirst(known, i, e.key)
                                                          && known[i].uploadedBytes == BytesOf(known, e.key).value
      {
        if BytesOf(known, e.key).Some? {
          var i :| 0 <= i < |known| && known[i] == KeyAndBytes(e.key, BytesOf(known, e.key).value)
                   && forall j :: 0 <= j < i ==> known[j].key != e.key;
          assert IsFirst(known, i, e.key);
        }
      }
      assert forall e, i, j :: IsFirst(known, i, e) && IsFirst(known, j, e) ==> i == j;
    }
  }

  lemma {:induction false} PassUpToShifted(uploads: map<Key, seq<KeyAndBytes>>, opinions: seq<SingleOpinion>, n: nat)
    requires opinions != [] && PassUpTo(uploads, opinions, n) && n > 0
    ensures PassUpTo(uploads[opinions[0].replicatorKey := opinions[0].uploadLayout], opinions[1..], n - 1)
  {
    var after := uploads[opinions[0].replicatorKey := opinions[0].uploadLayout];
    forall i | 0 <= i < |opinions| - 1
      ensures PassesAfter(after, opinions[1..], i) <==> PassesAfter(uploads, opinions, i + 1)
    {
      LayoutBeforeShifted(uploads, opinions, i, opinions[i + 1].replicatorKey);
    }
  }

  /** The recording loop passes exactly if every opinion does when those before it are recorded; what is
      recorded in the end are, for each replicator, the last layouts before the first failure. */
  lemma {:induction false} RecordStops(uploads: map<Key, seq<KeyAndBytes>>, opinions: seq<SingleOpinion>, n: nat)
    requires PassUpTo(uploads, opinions, n)
    ensures Record(uploads, opinions).passed <==> n == |opinions|
    ensures forall r :: LayoutOf(Record(uploads, opinions).uploads, r) == LayoutBefore(uploads, opinions, n, r)
    decreases |opinions|
  {
    if opinions == [] {
    } else {
      AdmissibleIff(uploads, opinions[0]);
      if n == 0 {
        assert !PassesAfter(uploads, opinions, 0);
      } else {
        var after := uploads[opinions[0].replicatorKey := opinions[0].uploadLayout];
        assert PassesAfter(uploads, opinions, 0);
        PassUpToShifted(uploads, opinions, n);
        RecordStops(after, opinions[1..], n - 1);
        forall r ensures LayoutBefore(after, opinions[1..], n - 1, r) == LayoutBefore(uploads, opinions, n, r) {
          LayoutBeforeShifted(uploads, opinions, n - 1, r);
        }
      }
    }
  }

  /** There is such a number. */
  lemma {:induction false} PassUpToExists(uploads: map<Key, seq<KeyAndBytes>>, opinions: seq<SingleOpinion>, k: nat)
    returns (n: nat)
    requires k <= |opinions| && forall i :: 0 <= i < k ==> PassesAfter(uploads, opinions, i)
    ensures PassUpTo(uploads, opinions, n)
    decreases |opinions| - k
  {
    if k < |opinions| && PassesAfter(uploads, opinions, k) {
      n := PassUpToExists(uploads, opinions, k + 1);
    } else {
      n := k;
    }
  }

  /** After all opinions are recorded each author's layout is one of them and the others are untouched. */
  lemma RecordKeepsOpinions(uploads: map<Key, seq<KeyAndBytes>>, opinions: seq<SingleOpinion>, r: Key)
    requires Record(uploads, opinions).passed
    ensures var result := Record(uploads, opinions).uploads;
            if r in Authors(opinions)
            then r in result && SingleOpinion(r, result[r]) in opinions
            else (r in result <==> r in uploads) && (r in uploads ==> result[r] == uploads[r])
    decreases |opinions|
  {
    if opinions == [] {
    } else {
      var o := opinions[0];
      RecordKeepsOpinions(uploads[o.replicatorKey := o.uploadLayout], opinions[1..], r);
      assert opinions == [o] + opinions[1..];
      if r in Authors(opinions) && r !in Authors(opinions[1..]) {
        var x :| x in opinions && x.replicatorKey == r;
        assert x == o;
      }
    }
  }

  // ----- runs

  /** The event records opinions for its drive. */
  predicate Records(c: Chain, e: Event) {
    || (e.ApprovalReadyEvent? && Pops(c, e))
    || (e.SingleApprovalReadyEvent? &&
        var v := SingleApprovalVerdict(c.Drive(e.info.driveKey), e.info); !v.NotMember? && !v.Stale?)
  }

  ghost predicate DisciplinedRun(c: Chain, events: seq<Event>) {
    forall i :: 0 <= i < |events| && Records(Run(c, events[..i]), events[i]) ==>
      Disciplined(Run(c, events[..i]).Drive(events[i].info.driveKey).uploads, events[i].info.opinions)
  }

  /** No assertion fails, drive keys are fresh, and layouts keep their keys. */
  ghost predicate AccountedRun(c: Chain, events: seq<Event>) {
    Initial(c) && DefinedRun(c, events) && CleanRun(c, events) && FreshDrives(c, events) && DisciplinedRun(c, events)
  }

  lemma AccountedPrefix(c: Chain, events: seq<Event>)
    requires AccountedRun(c, events) && events != []
    ensures var earlier, e := events[..|events| - 1], events[|events| - 1];
            && AccountedRun(c, earlier) && Passes(Run(c, earlier), e)
            && (e.AddDriveEvent? ==> e.d !in Run(c, earlier).drives)
            && (Records(Run(c, earlier), e) ==>
                Disciplined(Run(c, earlier).Drive(e.info.driveKey).uploads, e.info.opinions))
  {
    var earlier := events[..|events| - 1];
    PrefixRuns(c, events);
    forall i | 0 <= i < |earlier| ensures earlier[..i] == events[..i] {}
    FreshDrivesPrefix(c, events);
    assert DisciplinedRun(c, earlier) by {
      forall i | 0 <= i < |earlier| && Records(Run(c, earlier[..i]), earlier[i])
        ensures Disciplined(Run(c, earlier[..i]).Drive(earlier[i].info.driveKey).uploads, earlier[i].info.opinions)
      {
        assert earlier[..i] == events[..i] && Records(Run(c, events[..i]), events[i]);
      }
    }
  }

  /** What one event that passes does to the uploads of drive `d`. */
  lemma UploadsStep(c: Chain, e: Event, d: Key)
    requires Passes(c, e)
    ensures var before, after := c.Drive(d).uploads, Step(c, e).Drive(d).uploads;
            if e.AddDriveEvent? && e.d == d then after == map[]
            else if Records(c, e) && e.info.driveKey == d then
              Record(before, e.info.opinions).passed && after == Record(before, e.info.opinions).uploads
            else after == before
  {
  }

  /** The bytes any replicator reports for any peer, and the sum of what it reports, never fall. */
  lemma {:induction false} CountersNeverFall(c: Chain, events: seq<Event>, k: nat, d: Key, r: Key)
    requires AccountedRun(c, events) && k <= |events|
    requires r in Run(c, events[..k]).Drive(d).uploads
    ensures AllDistinct(Run(c, events).Drive(d).uploads)
    ensures r in Run(c, events).Drive(d).uploads
    ensures Grows(Run(c, events[..k]).Drive(d).uploads[r], Run(c, events).Drive(d).uploads[r])
  {
    LayoutsStayDistinct(c, events, d);
    if k == |events| {
      assert events[..k] == events;
    } else {
      var earlier, e := events[..|events| - 1], events[|events| - 1];
      assert earlier[..k] == events[..k];
      AccountedPrefix(c, events);
      CountersNeverFall(c, earlier, k, d, r);
      UploadsStep(Run(c, earlier), e, d);
      if Records(Run(c, earlier), e) && e.info.driveKey == d {
        var before := Run(c, earlier).Drive(d).uploads;
        RecordGrows(before, e.info.opinions, r);
        GrowsTransitive(Run(c, events[..k]).Drive(d).uploads[r], before[r], Run(c, events).Drive(d).uploads[r]);
      }
    }
  }

  lemma {:induction false} LayoutsStayDistinct(c: Chain, events: seq<Event>, d: Key)
    requires AccountedRun(c, events)
    ensures AllDistinct(Run(c, events).Drive(d).uploads)
  {
    if events == [] {
    } else {
      var earlier, e := events[..|events| - 1], events[|events| - 1];
      AccountedPrefix(c, events);
      LayoutsStayDistinct(c, earlier, d);
      UploadsStep(Run(c, earlier), e, d);
      if Records(Run(c, earlier), e) && e.info.driveKey == d {
        RecordGrows(Run(c, earlier).Drive(d).uploads, e.info.opinions, 0);
      }
    }
  }

  // ----- one total per modification

  /** The totals of all opinions recorded for `h`, in its approval and in later single approvals. */
  ghost function RecordedTotals(c: Chain, events: seq<Event>, h: Hash): set<nat> {
    if events == [] then {}
    else
      var earlier, e := events[..|events| - 1], events[|events| - 1];
      var s := Run(c, earlier);
      RecordedTotals(c, earlier, h)
      + (if (Approves(s, e) || Counts(s, e)) && e.info.modifyTransactionHash == h then Totals(e.info.opinions) else {})
  }

  /** While no assertion fails, all opinions ever recorded for a modification have the same total. */
  lemma {:induction false} OneTotalPerModification(c: Chain, events: seq<Event>, h: Hash)
    requires Initial(c) && CleanRun(c, events)
    ensures Run(c, events).Sizes(h) == RecordedTotals(c, events, h)
    ensures forall t, u :: t in RecordedTotals(c, events, h) && u in RecordedTotals(c, events, h) ==> t == u
  {
    if events == [] {
    } else {
      var earlier, e := events[..|events| - 1], events[|events| - 1];
      PrefixRuns(c, events);
      OneTotalPerModification(c, earlier, h);
      var s := Run(c, earlier);
      if (Approves(s, e) || Counts(s, e)) && e.info.modifyTransactionHash == h {
        assert SizesAgree(s, e.info);
      }
    }
  }
}
