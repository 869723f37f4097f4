/** The common upload total of each approved modification is at least that of the one approved before
    it, because some member answers for both. */
module MonotoneTotals {
  import opened Protocol
  import opened Chain
  import opened Quorum
  import opened Uploads

  predicate ApprovesOn(s: Chain, e: Event, d: Key) {
    Approves(s, e) && e.info.driveKey == d
  }

  predicate Adds(e: Event, d: Key) {
    e.AddDriveEvent? && e.d == d
  }

  /** For each approval of the drive, the total of its opinions, in order. */
  ghost function ApprovedTotals(c: Chain, events: seq<Event>, d: Key): seq<nat> {
    if events == [] then []
    else
      var earlier, e := events[..|events| - 1], events[|events| - 1];
      var before := ApprovedTotals(c, earlier, d);
      if Adds(e, d) then []
      else if ApprovesOn(Run(c, earlier), e, d) && e.info.opinions != []
        then before + [Total(e.info.opinions[0].uploadLayout)]
      else before
  }

  /** The members at the drive's last approval. */
  ghost function LastMembers(c: Chain, events: seq<Event>, d: Key): set<Key> {
    if events == [] then {}
    else
      var earlier, e := events[..|events| - 1], events[|events| - 1];
      if Adds(e, d) then {}
      else if ApprovesOn(Run(c, earlier), e, d) then MemberSet(Run(c, earlier).Drive(d))
      else LastMembers(c, earlier, d)
  }

  /** Each approval's opinions have distinct authors, and between consecutive approvals the member list
      changes so little that any two accepted quorums meet (`QuorumsMeetIff`). */
  ghost predicate MeetingRun(c: Chain, events: seq<Event>, d: Key) {
    forall i :: 0 <= i < |events| && ApprovesOn(Run(c, events[..i]), events[i], d) ==>
      MeetsLast(LastMembers(c, events[..i], d), Run(c, events[..i]), events[i], d)
  }

  ghost predicate MeetsLast(last: set<Key>, s: Chain, e: Event, d: Key)
    requires ApprovesOn(s, e, d)
  {
    var now := MemberSet(s.Drive(d));
    DistinctAuthors(e.info.opinions) && (last != {} ==> Needed(|last|) + Needed(|now|) > |last + now|)
  }

  lemma MeetingPrefix(c: Chain, events: seq<Event>, d: Key)
    requires MeetingRun(c, events, d) && events != []
    ensures MeetingRun(c, events[..|events| - 1], d)
  {
    var earlier := events[..|events| - 1];
    forall i | 0 <= i < |earlier| && ApprovesOn(Run(c, earlier[..i]), earlier[i], d)
      ensures MeetsLast(LastMembers(c, earlier[..i], d), Run(c, earlier[..i]), earlier[i], d)
    {
      assert earlier[..i] == events[..i] && ApprovesOn(Run(c, events[..i]), events[i], d);
    }
  }

  /** The authors of the last approval support its members and still answer for its total. */
  ghost predicate Settled(s: Chain, d: Key, last: set<Key>, t: nat) {
    var approval := s.Drive(d).lastApprovedModification;
    && approval.Some?
    && s.Sizes(approval.value.modifyTransactionHash) == {t}
    && Supports(Authors(approval.value.opinions), last)
    && (forall r :: r in Authors(approval.value.opinions) ==>
          r in s.Drive(d).uploads && Total(s.Drive(d).uploads[r]) == t)
  }

  /** All opinions of an approval whose sizes agree have the same total. */
  lemma CommonTotal(s: Chain, info: ApprovalTransactionInfo, t: nat)
    requires s.Sizes(info.modifyTransactionHash) + Totals(info.opinions) == {t}
    ensures forall o :: o in info.opinions ==> Total(o.uploadLayout) == t
  {
    forall o | o in info.opinions ensures Total(o.uploadLayout) == t {
      assert Total(o.uploadLayout) in Totals(info.opinions);
      assert Total(o.uploadLayout) in s.Sizes(info.modifyTransactionHash) + Totals(info.opinions);
    }
  }

  /** An approval settles its own total. */
  lemma ApprovalSettles(s: Chain, e: Event)
    requires WellFormed(s) && Approves(s, e) && Passes(s, e) && DistinctAuthors(e.info.opinions)
    ensures e.info.opinions != []
    ensures var d := e.info.driveKey;
            Settled(Step(s, e), d, MemberSet(s.Drive(d)), Total(e.info.opinions[0].uploadLayout))
  {
    var d := e.info.driveKey;
    assert WellFormedDrive(d, s.Drive(d));
    ApprovalIsSupported(s.Drive(d), e.info);
    var t :| s.Sizes(e.info.modifyTransactionHash) + Totals(e.info.opinions) == {t};
    CommonTotal(s, e.info, t);
    assert e.info.opinions[0] in e.info.opinions;
    UploadsStep(s, e, d);
    forall r | r in Authors(e.info.opinions)
      ensures r in Step(s, e).Drive(d).uploads && Total(Step(s, e).Drive(d).uploads[r]) == t
    {
      RecordKeepsOpinions(s.Drive(d).uploads, e.info.opinions, r);
    }
  }

  /** Whatever happens between two approvals of a drive, the authors keep the total. */
  lemma BetweenApprovals(s: Chain, e: Event, d: Key, last: set<Key>, t: nat)
    requires Passes(s, e) && Settled(s, d, last, t)
    requires !ApprovesOn(s, e, d) && !Adds(e, d)
    ensures Settled(Step(s, e), d, last, t)
  {
    var approval := s.Drive(d).lastApprovedModification.value;
    var h := approval.modifyTransactionHash;
    assert Step(s, e).Drive(d).lastApprovedModification == s.Drive(d).lastApprovedModification;
    if (Approves(s, e) || Counts(s, e)) && e.info.modifyTransactionHash == h {
      var u :| s.Sizes(h) + Totals(e.info.opinions) == {u};
      assert t in s.Sizes(h) + Totals(e.info.opinions);
      CommonTotal(s, e.info, t);
    }
    assert Step(s, e).Sizes(h) == {t};
    UploadsStep(s, e, d);
    if Records(s, e) && e.info.driveKey == d {
      assert e.SingleApprovalReadyEvent? && Counts(s, e) && e.info.modifyTransactionHash == h;
      forall r | r in Authors(approval.opinions)
        ensures r in Step(s, e).Drive(d).uploads && Total(Step(s, e).Drive(d).uploads[r]) == t
      {
        RecordKeepsOpinions(s.Drive(d).uploads, e.info.opinions, r);
      }
    }
  }

  /** The next approval's total is at least the settled one: a member of both quorums passed the check. */
  lemma NextTotalIsAtLeast(s: Chain, e: Event, last: set<Key>, t: nat)
    requires WellFormed(s) && Approves(s, e) && Passes(s, e) && DistinctAuthors(e.info.opinions)
    requires var d := e.info.driveKey;
             && Settled(s, d, last, t) && last != {}
             && AllDistinct(s.Drive(d).uploads) && Disciplined(s.Drive(d).uploads, e.info.opinions)
             && Needed(|last|) + Needed(|MemberSet(s.Drive(d))|) > |last + MemberSet(s.Drive(d))|
    ensures e.info.opinions != [] && t <= Total(e.info.opinions[0].uploadLayout)
  {
    var d := e.info.driveKey;
    var before := Authors(s.Drive(d).lastApprovedModification.value.opinions);
    var now := MemberSet(s.Drive(d));
    ApprovalSettles(s, e);
    assert WellFormedDrive(d, s.Drive(d));
    ApprovalIsSupported(s.Drive(d), e.info);
    assert e.info.opinions[0].replicatorKey in Authors(e.info.opinions) && Authors(e.info.opinions) <= now;
    QuorumsMeetIff(last, now);
    assert before * Authors(e.info.opinions) != {};
    var r :| r in before * Authors(e.info.opinions);
    RecordGrows(s.Drive(d).uploads, e.info.opinions, r);
    UploadsStep(s, e, d);
  }

  ghost predicate Nondecreasing(totals: seq<nat>) {
    forall i, j :: 0 <= i < j < |totals| ==> totals[i] <= totals[j]
  }

  ghost predicate InOrder(s: Chain, d: Key, totals: seq<nat>, last: set<Key>) {
    && Nondecreasing(totals)
    && (totals == [] <==> last == {})
    && (totals != [] ==> Settled(s, d, last, totals[|totals| - 1]))
  }

  lemma AppendInOrder(totals: seq<nat>, t: nat)
    requires Nondecreasing(totals) && (totals != [] ==> totals[|totals| - 1] <= t)
    ensures Nondecreasing(totals + [t])
  {
    var all := totals + [t];
    forall i, j | 0 <= i < j < |all| ensures all[i] <= all[j] {
      if j == |totals| {
        assert totals[i] <= totals[|totals| - 1];
      }
    }
  }

  lemma NextApprovalInOrder(s: Chain, e: Event, d: Key, totals: seq<nat>, last: set<Key>)
    requires WellFormed(s) && ApprovesOn(s, e, d) && Passes(s, e) && InOrder(s, d, totals, last)
    requires AllDistinct(s.Drive(d).uploads) && Disciplined(s.Drive(d).uploads, e.info.opinions)
    requires DistinctAuthors(e.info.opinions)
    requires last != {} ==> Needed(|last|) + Needed(|MemberSet(s.Drive(d))|) > |last + MemberSet(s.Drive(d))|
    ensures e.info.opinions != []
    ensures InOrder(Step(s, e), d, totals + [Total(e.info.opinions[0].uploadLayout)], MemberSet(s.Drive(d)))
  {
    ApprovalSettles(s, e);
    assert WellFormedDrive(d, s.Drive(d));
    ApprovalIsSupported(s.Drive(d), e.info);
    assert e.info.opinions[0] in e.info.opinions;
    assert e.info.opinions[0].replicatorKey in MemberSet(s.Drive(d));
    if totals != [] {
      NextTotalIsAtLeast(s, e, last, totals[|totals| - 1]);
    }
    AppendInOrder(totals, Total(e.info.opinions[0].uploadLayout));
  }

  /** One more event of a run whose assertions hold. */
  lemma TotalsStep(c: Chain, events: seq<Event>, d: Key)
    requires events != [] && AccountedRun(c, events) && MeetingRun(c, events, d)
    requires var earlier := events[..|events| - 1];
             AccountedRun(c, earlier)
             && InOrder(Run(c, earlier), d, ApprovedTotals(c, earlier, d), LastMembers(c, earlier, d))
    ensures InOrder(Run(c, events), d, ApprovedTotals(c, events, d), LastMembers(c, events, d))
  {
    var earlier, e := events[..|events| - 1], events[|events| - 1];
    var s := Run(c, earlier);
    AccountedPrefix(c, events);
    var totals, last := ApprovedTotals(c, earlier, d), LastMembers(c, earlier, d);
    if Adds(e, d) {
    } else if ApprovesOn(s, e, d) {
      RunWellFormed(c, earlier);
      LayoutsStayDistinct(c, earlier, d);
      NextApprovalInOrder(s, e, d, totals, last);
    } else if totals != [] {
      BetweenApprovals(s, e, d, last, totals[|totals| - 1]);
    }
  }

  lemma {:induction false} TotalsInOrder(c: Chain, events: seq<Event>, d: Key)
    requires AccountedRun(c, events) && MeetingRun(c, events, d)
    ensures InOrder(Run(c, events), d, ApprovedTotals(c, events, d), LastMembers(c, events, d))
  {
    if events == [] {
    } else {
      AccountedPrefix(c, events);
      MeetingPrefix(c, events, d);
      TotalsInOrder(c, events[..|events| - 1], d);
      TotalsStep(c, events, d);
    }
  }

  /** Upload totals never fall along a run. */
  lemma {:induction false} UploadTotalsNeverFall(c: Chain, events: seq<Event>, d: Key)
    requires AccountedRun(c, events) && MeetingRun(c, events, d)
    ensures var totals := ApprovedTotals(c, events, d);
            forall i, j :: 0 <= i < j < |totals| ==> totals[i] <= totals[j]
  {
    TotalsInOrder(c, events, d);
  }

  /** Changing the list by at most one replicator between approvals is little enough. */
  lemma OneChangeMeets(last: set<Key>, now: set<Key>, x: Key)
    requires last != {} && now != {}
    requires now == last || now == last + {x} || last == now + {x}
    ensures Needed(|last|) + Needed(|now|) > |last + now|
  {
    forall p, q | Supports(p, last) && Supports(q, now) ensures p * q != {} {
      QuorumsMeetAfterOneChange(last, now, x, p, q);
    }
    QuorumsMeetIff(last, now);
  }

  /** Between consecutive approvals at most one replicator joins or leaves the drive. */
  ghost predicate OneChangeRun(c: Chain, events: seq<Event>, d: Key) {
    forall i :: 0 <= i < |events| && ApprovesOn(Run(c, events[..i]), events[i], d) ==>
      ChangesLittle(LastMembers(c, events[..i], d), Run(c, events[..i]), events[i], d)
  }

  ghost predicate ChangesLittle(last: set<Key>, s: Chain, e: Event, d: Key)
    requires ApprovesOn(s, e, d)
  {
    DistinctAuthors(e.info.opinions) && (last != {} ==> OneApart(last, MemberSet(s.Drive(d))))
  }

  ghost predicate OneApart(a: set<Key>, b: set<Key>) {
    a == b || exists x :: b == a + {x} || a == b + {x}
  }

  /** Then the common total of each approved modification is at least the previous one's. */
  lemma {:induction false} TotalsNeverFallWithOneChange(c: Chain, events: seq<Event>, d: Key)
    requires AccountedRun(c, events) && OneChangeRun(c, events, d)
    ensures Nondecreasing(ApprovedTotals(c, events, d))
  {
    forall i | 0 <= i < |events| && ApprovesOn(Run(c, events[..i]), events[i], d)
      ensures MeetsLast(LastMembers(c, events[..i], d), Run(c, events[..i]), events[i], d)
    {
      assert ChangesLittle(LastMembers(c, events[..i], d), Run(c, events[..i]), events[i], d);
      LittleChangeMeets(LastMembers(c, events[..i], d), Run(c, events[..i]), events[i], d);
    }
    TotalsInOrder(c, events, d);
  }

  lemma LittleChangeMeets(last: set<Key>, s: Chain, e: Event, d: Key)
    requires ApprovesOn(s, e, d) && ChangesLittle(last, s, e, d)
    ensures MeetsLast(last, s, e, d)
  {
    ApproversAreMembers(s.Drive(d), e.info);
    if last != {} {
      OneApartMeets(last, MemberSet(s.Drive(d)));
    }
  }

  lemma OneApartMeets(last: set<Key>, now: set<Key>)
    requires last != {} && now != {} && OneApart(last, now)
    ensures Needed(|last|) + Needed(|now|) > |last + now|
  {
    if last == now {
      OneChangeMeets(last, now, 0);
    } else {
      var x :| now == last + {x} || last == now + {x};
      OneChangeMeets(last, now, x);
    }
  }

  lemma ApproversAreMembers(di: DriveInfo, info: ApprovalTransactionInfo)
    requires ApprovalVerdict(di, info).Accepted?
    ensures MemberSet(di) != {}
  {
    assert info.opinions[0] in info.opinions;
    assert info.opinions[0].replicatorKey in MemberSet(di);
  }
}
