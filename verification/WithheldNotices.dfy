/** What the environment that withholds approvals records for each drive and modification, whatever it
    publishes and whatever it loses. */
module WithheldNotices {
  import opened Basics
  import opened Protocol
  import opened Chain
  import opened History
  import opened Effects
  import opened Notices
  import opened Withheld

  // ----- reports, in the fields they write

  /** The front is gone and its size added, and the report is the last approval with its root hash. */
  ghost predicate PoppedBecause(c: Chain, t: Chain, info: ApprovalTransactionInfo)
    requires AboutFront(c, info)
  {
    var before, after := c.Drive(info.driveKey), t.Drive(info.driveKey);
    && SameOtherDrives(c, t, info.driveKey) && t.addrList == c.addrList && t.verified == c.verified
    && after.pendingModifications == before.pendingModifications[1..]
    && after.driveRequest == before.driveRequest.(expectedCumulativeDownloadSize :=
         before.driveRequest.expectedCumulativeDownloadSize + before.pendingModifications[0].maxDataSize)
    && after.lastApprovedModification == Some(info) && after.uploads == before.uploads
    && t.rootHashes == c.rootHashes[info.modifyTransactionHash := info.rootHash]
  }

  /** Nobody is told and no total is recorded. */
  ghost predicate KeepsQuiet(c: Chain, t: Chain) {
    t.mail == c.mail && t.sizes == c.sizes
  }

  /** All running replicators, members or not, are told once, and the totals are recorded. */
  ghost predicate GoesPublic(c: Chain, t: Chain, info: ApprovalTransactionInfo, m: Message) {
    PublishesReport(m, info) && Tells(c, t, c.mail.Keys, m) && TotalsAdded(c, t, info)
  }

  /** A report that is not about the front changes nothing. One that is pops it, however few opine; the approval
      goes public at once if its transaction is the first forbidden one, and is held otherwise. */
  lemma ReportWithheld(s: Withholding, forbidden: seq<Hash>, reporter: Key,
                       info: ApprovalTransactionInfo) returns (m: Message)
    requires WithholdingDefined(s, forbidden, ApprovalReadyEvent(reporter, info))
    ensures var t := WithholdingStep(s, forbidden, ApprovalReadyEvent(reporter, info));
            if !AboutFront(s.chain, info) then t == s
            else PoppedBecause(s.chain, t.chain, info)
                 && if info.modifyTransactionHash == forbidden[0]
                    then t.held == None && GoesPublic(s.chain, t.chain, info, m)
                    else t.held == Some(info) && KeepsQuiet(s.chain, t.chain)
  {
    m := ApprovalPublished(Publish(info));
  }

  /** An assertion fails exactly if one goes public and its modification then has not one total. */
  lemma ReportPasses(s: Withholding, forbidden: seq<Hash>, reporter: Key, info: ApprovalTransactionInfo)
    requires WithholdingDefined(s, forbidden, ApprovalReadyEvent(reporter, info))
    ensures var e := ApprovalReadyEvent(reporter, info);
            WithholdingPasses(s, forbidden, e) <==>
            (AboutFront(s.chain, info) && info.modifyTransactionHash == forbidden[0] ==>
               |WithholdingStep(s, forbidden, e).chain.Sizes(info.modifyTransactionHash)| == 1)
  {
    SingletonSet(s.chain.Sizes(info.modifyTransactionHash) + Totals(info.opinions));
  }

  /** A single opinion on a forbidden transaction changes no drive. It makes what is held public, whatever that
      is about, and fails an assertion if nothing is held. */
  lemma SingleReleases(s: Withholding, forbidden: seq<Hash>, reporter: Key,
                       info: ApprovalTransactionInfo) returns (m: Message)
    requires info.modifyTransactionHash in forbidden
    ensures var e := SingleApprovalReadyEvent(reporter, info);
            var t := WithholdingStep(s, forbidden, e);
            && t.chain.drives == s.chain.drives && t.chain.rootHashes == s.chain.rootHashes && t.held == None
            && if s.held.Some?
               then GoesPublic(s.chain, t.chain, s.held.value, m)
                    && (WithholdingPasses(s, forbidden, e) <==>
                          |t.chain.Sizes(s.held.value.modifyTransactionHash)| == 1)
               else t == s && !WithholdingPasses(s, forbidden, e)
  {
    if s.held.Some? {
      m := ApprovalPublished(Publish(s.held.value));
      SingletonSet(WithholdingStep(s, forbidden, SingleApprovalReadyEvent(reporter, info)).chain.Sizes(
                     s.held.value.modifyTransactionHash));
    } else {
      m := RemoveDrive(0);
    }
  }

  // ----- cumulative accounting

  /** The event pops the front of drive `d`. */
  predicate PopsHere(s: Withholding, e: Event, d: Key) {
    e.ApprovalReadyEvent? && e.info.driveKey == d && AboutFront(s.chain, e.info)
  }

  /** The modifications popped from drive `d` since it was added, published or not. */
  ghost function PoppedFrom(s: Withholding, forbidden: seq<Hash>, events: seq<Event>,
                            d: Key): seq<ModificationRequest> {
    if events == [] then []
    else
      var earlier, e := events[..|events| - 1], events[|events| - 1];
      var before, t := PoppedFrom(s, forbidden, earlier, d), WithholdingRun(s, forbidden, earlier);
      if e.AddDriveEvent? && e.d == d then []
      else if PopsHere(t, e, d) then before + [t.chain.Drive(d).pendingModifications[0]]
      else before
  }

  lemma WithheldSizeStep(s: Withholding, forbidden: seq<Hash>, e: Event, d: Key)
    ensures var size := s.chain.Drive(d).driveRequest.expectedCumulativeDownloadSize;
            WithholdingStep(s, forbidden, e).chain.Drive(d).driveRequest.expectedCumulativeDownloadSize ==
            if e.AddDriveEvent? && e.d == d then 0
            else if PopsHere(s, e, d) then size + s.chain.Drive(d).pendingModifications[0].maxDataSize
            else size
  {
  }

  /** In every run the cumulative size is the sum of the sizes of all popped modifications, those whose approval
      is held or lost included. */
  lemma {:induction false} WithheldAccounting(s: Withholding, forbidden: seq<Hash>, events: seq<Event>, d: Key)
    requires StartsWithholding(s)
    ensures WithholdingRun(s, forbidden, events).chain.Drive(d).driveRequest.expectedCumulativeDownloadSize
         == SumOfMaxSizes(PoppedFrom(s, forbidden, events, d))
  {
    if events == [] {
    } else {
      var earlier, e := events[..|events| - 1], events[|events| - 1];
      var t := WithholdingRun(s, forbidden, earlier);
      WithheldAccounting(s, forbidden, earlier, d);
      WithheldSizeStep(t, forbidden, e, d);
      if PopsHere(t, e, d) {
        SumOfMaxSizesAppend(PoppedFrom(s, forbidden, earlier, d), t.chain.Drive(d).pendingModifications[0]);
      }
    }
  }

  // ----- root hashes

  lemma WithheldRootsStep(s: Withholding, forbidden: seq<Hash>, e: Event)
    requires !e.ApprovalReadyEvent?
    ensures WithholdingStep(s, forbidden, e).chain.rootHashes == s.chain.rootHashes
  {
  }

  /** With fresh hashes the root hashes recorded are exactly those of the popped approvals. */
  lemma {:induction false} WithheldRoots(s: Withholding, forbidden: seq<Hash>, events: seq<Event>, h: Hash, root: Hash)
    requires StartsWithholding(s) && FreshModifications(events)
    requires WithholdingDefinedRun(s, forbidden, events)
    ensures HasRoot(WithholdingRun(s, forbidden, events).chain, h, root) <==>
            exists a :: a in PoppedApprovals(s, forbidden, events) && a.modifyTransactionHash == h && a.rootHash == root
  {
    if events == [] {
    } else {
      var earlier, e := events[..|events| - 1], events[|events| - 1];
      var t, u := WithholdingRun(s, forbidden, earlier), WithholdingRun(s, forbidden, events);
      FreshPrefix(events);
      WithheldRoots(s, forbidden, earlier, h, root);
      PoppedOnce(s, forbidden, events);
      if Withholds(t, e) {
        var m := ReportWithheld(t, forbidden, e.reporter, e.info);
        LastIsNew(PoppedApprovals(s, forbidden, earlier), e.info);
      } else if !e.ApprovalReadyEvent? {
        WithheldRootsStep(t, forbidden, e);
      }
    }
  }

  lemma LastIsNew(popped: seq<ApprovalTransactionInfo>, a: ApprovalTransactionInfo)
    requires DistinctApprovals(popped + [a])
    ensures forall x :: x in popped ==> x.modifyTransactionHash != a.modifyTransactionHash
  {
    forall x | x in popped ensures x.modifyTransactionHash != a.modifyTransactionHash {
      var i :| 0 <= i < |popped| && popped[i] == x;
      assert (popped + [a])[i] == x && (popped + [a])[|popped|] == a;
    }
  }

  // ----- totals

  /** The totals of the published approvals of `h`. */
  function PublishedTotals(published: seq<ApprovalTransactionInfo>, h: Hash): set<nat> {
    set a, x | a in published && a.modifyTransactionHash == h && x in Totals(a.opinions) :: x
  }

  /** The event is a single opinion of `h` that the ledger underneath counts. */
  predicate CountsFor(t: Withholding, forbidden: seq<Hash>, e: Event, h: Hash) {
    Counts(t.chain, e) && h !in forbidden && e.info.modifyTransactionHash == h
  }

  /** The totals of single opinions of `h` that count as in the ledger this one inherits from. */
  ghost function SingleTotals(s: Withholding, forbidden: seq<Hash>, events: seq<Event>, h: Hash): set<nat> {
    if events == [] then {}
    else
      var earlier, e := events[..|events| - 1], events[|events| - 1];
      var t := WithholdingRun(s, forbidden, earlier);
      SingleTotals(s, forbidden, earlier, h)
      + (if CountsFor(t, forbidden, e, h) then Totals(e.info.opinions) else {})
  }

  lemma TotalsOfOne(a: ApprovalTransactionInfo, h: Hash)
    ensures PublishedTotals([a], h) == if a.modifyTransactionHash == h then Totals(a.opinions) else {}
  {
    assert a in [a];
  }

  lemma WithheldTotalsStep(t: Withholding, forbidden: seq<Hash>, e: Event, h: Hash)
    ensures WithholdingStep(t, forbidden, e).chain.Sizes(h) ==
            t.chain.Sizes(h) + PublishedTotals(PublishedBy(t, forbidden, e), h)
            + (if CountsFor(t, forbidden, e, h) then Totals(e.info.opinions) else {})
  {
    var published := PublishedBy(t, forbidden, e);
    if published != [] {
      TotalsOfOne(published[0], h);
      assert published == [published[0]];
    }
  }

  /** The totals recorded are those of the approvals published and of the single opinions counted: an approval
      that is held or lost leaves none. */
  lemma {:induction false} WithheldTotals(s: Withholding, forbidden: seq<Hash>, events: seq<Event>, h: Hash)
    requires StartsWithholding(s)
    ensures WithholdingRun(s, forbidden, events).chain.Sizes(h)
         == PublishedTotals(PublishedApprovals(s, forbidden, events), h) + SingleTotals(s, forbidden, events, h)
  {
    if events == [] {
    } else {
      var earlier, e := events[..|events| - 1], events[|events| - 1];
      WithheldTotals(s, forbidden, earlier, h);
      WithheldTotalsStep(WithholdingRun(s, forbidden, earlier), forbidden, e, h);
    }
  }
}
