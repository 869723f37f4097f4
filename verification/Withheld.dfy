/** The environment that pops a modification when its approval is ready but publishes the approval
    only later. */
module Withheld {
  import opened Basics
  import opened Protocol
  import opened Chain
  import opened Replica
  import opened Convergence
  import opened History
  import opened Environment

  /** `held` is the approval that is recorded but not published. */
  datatype Withholding = Withholding(chain: Chain, held: Option<ApprovalTransactionInfo>)

  predicate IsFront(c: Chain, info: ApprovalTransactionInfo) {
    Fronted(c.Drive(info.driveKey), info.modifyTransactionHash)
  }

  /** The report is about the front of its drive's queue; there is no quorum and no upload check here. */
  predicate Withholds(s: Withholding, e: Event) {
    e.ApprovalReadyEvent? && IsFront(s.chain, e.info)
  }

  /** A single approval of a forbidden transaction publishes what is held, whatever that is. */
  predicate Releases(s: Withholding, forbidden: seq<Hash>, e: Event) {
    e.SingleApprovalReadyEvent? && e.info.modifyTransactionHash in forbidden && s.held.Some?
  }

  /** The code takes a queue front and a first forbidden transaction for granted; everything else is
      as in the ledger it inherits from. */
  ghost predicate WithholdingDefined(s: Withholding, forbidden: seq<Hash>, e: Event) {
    match e
    case ApprovalReadyEvent(_, info) =>
      s.chain.Drive(info.driveKey).pendingModifications != [] && (IsFront(s.chain, info) ==> forbidden != [])
    case SingleApprovalReadyEvent(_, info) => info.modifyTransactionHash in forbidden || Defined(s.chain, e)
    case _ => Defined(s.chain, e)
  }

  function Popped(di: DriveInfo, info: ApprovalTransactionInfo): DriveInfo
    requires di.pendingModifications != []
  {
    di.(driveRequest := di.driveRequest.(expectedCumulativeDownloadSize :=
          di.driveRequest.expectedCumulativeDownloadSize + di.pendingModifications[0].maxDataSize),
        pendingModifications := di.pendingModifications[1..],
        lastApprovedModification := Some(info))
  }

  function Withhold(c: Chain, info: ApprovalTransactionInfo): Chain
    requires IsFront(c, info)
  {
    c.(drives := c.drives[info.driveKey := Popped(c.Drive(info.driveKey), info)],
       rootHashes := c.rootHashes[info.modifyTransactionHash := info.rootHash])
  }

  /** Every running replicator, member or not, is told; the totals are recorded only now. */
  function Release(c: Chain, info: ApprovalTransactionInfo): Chain {
    c.(mail := map r | r in c.mail :: c.mail[r] + [ApprovalPublished(Publish(info))],
       sizes := c.sizes[info.modifyTransactionHash := c.Sizes(info.modifyTransactionHash) + Totals(info.opinions)])
  }

  ghost function WithholdingStep(s: Withholding, forbidden: seq<Hash>, e: Event): Withholding {
    match e
    case ApprovalReadyEvent(_, info) =>
      if !IsFront(s.chain, info) then s
      else if forbidden != [] && info.modifyTransactionHash == forbidden[0]
        then Withholding(Release(Withhold(s.chain, info), info), None)
      else Withholding(Withhold(s.chain, info), Some(info))
    case SingleApprovalReadyEvent(_, info) =>
      if info.modifyTransactionHash !in forbidden then s.(chain := Step(s.chain, e))
      else if s.held.None? then s
      else Withholding(Release(s.chain, s.held.value), None)
    case _ => s.(chain := Step(s.chain, e))
  }

  /** No assertion fails in the handler. */
  ghost predicate WithholdingPasses(s: Withholding, forbidden: seq<Hash>, e: Event) {
    match e
    case ApprovalReadyEvent(_, info) =>
      IsFront(s.chain, info) && forbidden != [] && info.modifyTransactionHash == forbidden[0] ==>
        SizesAgree(s.chain, info)
    case SingleApprovalReadyEvent(_, info) =>
      if info.modifyTransactionHash !in forbidden then Passes(s.chain, e)
      else s.held.Some? && SizesAgree(s.chain, s.held.value)
    case _ => Passes(s.chain, e)
  }

  // ----- the object

  class WithholdingLedger {
    const ledger: Ledger
    var forbiddenTransaction: seq<Hash>
    var expectingApproval: Option<ApprovalTransactionInfo>

    ghost function State(): Withholding
      reads this, ledger
    {
      Withholding(ledger.State(), expectingApproval)
    }

    constructor (ledger: Ledger, forbidden: seq<Hash>)
      ensures this.ledger == ledger && forbiddenTransaction == forbidden && expectingApproval == None
    {
      this.ledger := ledger;
      forbiddenTransaction := forbidden;
      expectingApproval := None;
    }

    method ModifyApprovalTransactionIsReady(reporter: Key, info: ApprovalTransactionInfo) returns (passed: bool)
      requires ledger.Valid()
      requires WithholdingDefined(State(), forbiddenTransaction, ApprovalReadyEvent(reporter, info))
      modifies this, ledger
      ensures ledger.Valid() && forbiddenTransaction == old(forbiddenTransaction)
      ensures State() == WithholdingStep(old(State()), old(forbiddenTransaction), ApprovalReadyEvent(reporter, info))
      ensures passed == WithholdingPasses(old(State()), old(forbiddenTransaction), ApprovalReadyEvent(reporter, info))
    {
      var d, h := info.driveKey, info.modifyTransactionHash;
      var drive := ledger.drives[d];
      if drive.pendingModifications[0].transactionHash != h {
        return true;
      }
      assert WellFormedDrive(d, drive);
      expectingApproval := Some(info);
      var request := drive.driveRequest;
      ledger.drives := ledger.drives[d := drive.(
        driveRequest := request.(expectedCumulativeDownloadSize :=
          request.expectedCumulativeDownloadSize + drive.pendingModifications[0].maxDataSize),
        pendingModifications := drive.pendingModifications[1..],
        lastApprovedModification := Some(info))];
      ledger.rootHashes := ledger.rootHashes[h := info.rootHash];
      passed := true;
      if h == forbiddenTransaction[0] {
        passed := ApproveModification();
      }
    }

    method ApproveModification() returns (passed: bool)
      requires ledger.Valid() && expectingApproval.Some?
      modifies this, ledger
      ensures ledger.Valid() && forbiddenTransaction == old(forbiddenTransaction)
      ensures State() == Withholding(Release(old(ledger.State()), old(expectingApproval).value), None)
      ensures passed == SizesAgree(old(ledger.State()), old(expectingApproval).value)
    {
      var info := expectingApproval.value;
      expectingApproval := None;
      ledger.BroadcastToAll(ApprovalPublished(Publish(info)));
      passed := ledger.RecordSizesOf(info.modifyTransactionHash, info.opinions);
    }

    method SingleModifyApprovalTransactionIsReady(reporter: Key, info: ApprovalTransactionInfo) returns (passed: bool)
      requires ledger.Valid()
      requires WithholdingDefined(State(), forbiddenTransaction, SingleApprovalReadyEvent(reporter, info))
      modifies this, ledger
      ensures ledger.Valid() && forbiddenTransaction == old(forbiddenTransaction)
      ensures State()
              == WithholdingStep(old(State()), old(forbiddenTransaction), SingleApprovalReadyEvent(reporter, info))
      ensures passed
              == WithholdingPasses(old(State()), old(forbiddenTransaction), SingleApprovalReadyEvent(reporter, info))
    {
      if info.modifyTransactionHash in forbiddenTransaction {
        if expectingApproval.None? {
          return false;
        }
        passed := ApproveModification();
      } else {
        passed := ledger.SingleModifyApprovalTransactionIsReady(reporter, info);
      }
    }
  }

  // ----- runs

  ghost function WithholdingRun(s: Withholding, forbidden: seq<Hash>, events: seq<Event>): Withholding {
    if events == [] then s
    else WithholdingStep(WithholdingRun(s, forbidden, events[..|events| - 1]), forbidden, events[|events| - 1])
  }

  ghost predicate WithholdingDefinedRun(s: Withholding, forbidden: seq<Hash>, events: seq<Event>) {
    events == [] ||
    (var earlier := events[..|events| - 1];
     WithholdingDefinedRun(s, forbidden, earlier)
     && WithholdingDefined(WithholdingRun(s, forbidden, earlier), forbidden, events[|events| - 1]))
  }

  /** The approvals popped, of all drives, in order. */
  ghost function PoppedApprovals(s: Withholding, forbidden: seq<Hash>,
                                 events: seq<Event>): seq<ApprovalTransactionInfo> {
    if events == [] then []
    else
      var earlier, e := events[..|events| - 1], events[|events| - 1];
      PoppedApprovals(s, forbidden, earlier) + PoppedBy(WithholdingRun(s, forbidden, earlier), e)
  }

  function PoppedBy(s: Withholding, e: Event): seq<ApprovalTransactionInfo> {
    if Withholds(s, e) then [e.info] else []
  }

  /** The approvals published, in order. */
  ghost function PublishedApprovals(s: Withholding, forbidden: seq<Hash>,
                                    events: seq<Event>): seq<ApprovalTransactionInfo> {
    if events == [] then []
    else
      var earlier, e := events[..|events| - 1], events[|events| - 1];
      PublishedApprovals(s, forbidden, earlier) + PublishedBy(WithholdingRun(s, forbidden, earlier), forbidden, e)
  }

  /** What one event publishes. */
  function PublishedBy(s: Withholding, forbidden: seq<Hash>, e: Event): seq<ApprovalTransactionInfo> {
    if Withholds(s, e) && forbidden != [] && e.info.modifyTransactionHash == forbidden[0] then [e.info]
    else if Releases(s, forbidden, e) then [s.held.value]
    else []
  }

  /** Where in the popped sequence each published approval stands. */
  ghost function Places(s: Withholding, forbidden: seq<Hash>, events: seq<Event>): seq<nat> {
    if events == [] then []
    else
      var earlier, e := events[..|events| - 1], events[|events| - 1];
      Places(s, forbidden, earlier)
      + PlacesBy(WithholdingRun(s, forbidden, earlier), forbidden, e, |PoppedApprovals(s, forbidden, earlier)|)
  }

  /** The place of what the event publishes, when `popped` were popped before. */
  function PlacesBy(s: Withholding, forbidden: seq<Hash>, e: Event, popped: nat): seq<nat> {
    if PublishedBy(s, forbidden, e) == [] then []
    else if Withholds(s, e) || popped == 0 then [popped]
    else [popped - 1]
  }

  /** How many approvals were popped while another was held: the held one is then never published. */
  ghost function Overwritten(s: Withholding, forbidden: seq<Hash>, events: seq<Event>): nat {
    if events == [] then 0
    else
      var earlier, e := events[..|events| - 1], events[|events| - 1];
      var t := WithholdingRun(s, forbidden, earlier);
      Overwritten(s, forbidden, earlier) + (if Withholds(t, e) && t.held.Some? then 1 else 0)
  }

  ghost predicate StartsWithholding(s: Withholding) {
    Initial(s.chain) && s.held.None?
  }

  /** `places` picks `published` out of `popped`, in order and none twice; a held approval is the last
      popped one and not among the picked. */
  ghost predicate Picks(popped: seq<ApprovalTransactionInfo>, published: seq<ApprovalTransactionInfo>, places: seq<nat>,
                        held: Option<ApprovalTransactionInfo>) {
    && |places| == |published|
    && (forall i :: 0 <= i < |places| ==> places[i] < |popped| && published[i] == popped[places[i]])
    && (forall i, j :: 0 <= i < j < |places| ==> places[i] < places[j])
    && (held.Some? ==> popped != [] && held.value == popped[|popped| - 1]
                       && forall i :: 0 <= i < |places| ==> places[i] < |popped| - 1)
  }

  lemma PickHeld(popped: seq<ApprovalTransactionInfo>, published: seq<ApprovalTransactionInfo>, places: seq<nat>,
                 held: Option<ApprovalTransactionInfo>, x: ApprovalTransactionInfo)
    requires Picks(popped, published, places, held)
    ensures Picks(popped + [x], published, places, Some(x))
  {
  }

  lemma PickPublished(popped: seq<ApprovalTransactionInfo>, published: seq<ApprovalTransactionInfo>, places: seq<nat>,
                      held: Option<ApprovalTransactionInfo>, x: ApprovalTransactionInfo)
    requires Picks(popped, published, places, held)
    ensures Picks(popped + [x], published + [x], places + [|popped|], None)
  {
  }

  lemma PickReleased(popped: seq<ApprovalTransactionInfo>, published: seq<ApprovalTransactionInfo>, places: seq<nat>,
                     held: Option<ApprovalTransactionInfo>)
    requires Picks(popped, published, places, held) && held.Some?
    ensures Picks(popped, published + [held.value], places + [|popped| - 1], None)
  {
  }

  lemma PicksStep(t: Withholding, forbidden: seq<Hash>, e: Event, popped: seq<ApprovalTransactionInfo>,
                  published: seq<ApprovalTransactionInfo>, places: seq<nat>)
    requires Picks(popped, published, places, t.held)
    ensures Picks(popped + PoppedBy(t, e), published + PublishedBy(t, forbidden, e),
                  places + PlacesBy(t, forbidden, e, |popped|), WithholdingStep(t, forbidden, e).held)
  {
    HeldAfter(t, forbidden, e);
    if Withholds(t, e) && PublishedBy(t, forbidden, e) == [] {
      PickHeld(popped, published, places, t.held, e.info);
    } else if Withholds(t, e) {
      PickPublished(popped, published, places, t.held, e.info);
    } else if Releases(t, forbidden, e) {
      PickReleased(popped, published, places, t.held);
    }
  }

  /** Published approvals are a subsequence of the popped ones, without repeats; what is held is the
      last popped one, unpublished. */
  lemma {:induction false} PublishedFromPopped(s: Withholding, forbidden: seq<Hash>, events: seq<Event>)
    requires StartsWithholding(s)
    ensures Picks(PoppedApprovals(s, forbidden, events), PublishedApprovals(s, forbidden, events),
                  Places(s, forbidden, events), WithholdingRun(s, forbidden, events).held)
  {
    if events == [] {
    } else {
      var earlier, e := events[..|events| - 1], events[|events| - 1];
      PublishedFromPopped(s, forbidden, earlier);
      PicksStep(WithholdingRun(s, forbidden, earlier), forbidden, e, PoppedApprovals(s, forbidden, earlier),
                PublishedApprovals(s, forbidden, earlier), Places(s, forbidden, earlier));
    }
  }

  lemma HeldAfter(t: Withholding, forbidden: seq<Hash>, e: Event)
    ensures WithholdingStep(t, forbidden, e).held ==
            if Withholds(t, e) && PublishedBy(t, forbidden, e) == [] then Some(e.info)
            else if Withholds(t, e) || Releases(t, forbidden, e) then None
            else t.held
  {
  }

  /** Every popped approval is published, held, or was overwritten by a later one while it was held. */
  lemma {:induction false} PoppedPublishedOrOverwritten(s: Withholding, forbidden: seq<Hash>, events: seq<Event>)
    requires StartsWithholding(s)
    ensures |PoppedApprovals(s, forbidden, events)| ==
            |PublishedApprovals(s, forbidden, events)| + Overwritten(s, forbidden, events)
            + (if WithholdingRun(s, forbidden, events).held.Some? then 1 else 0)
  {
    if events == [] {
    } else {
      PoppedPublishedOrOverwritten(s, forbidden, events[..|events| - 1]);
    }
  }

  /** A strictly increasing selection that is as long as what it selects from selects everything. */
  lemma {:induction false} FullSelection(places: seq<nat>, n: nat)
    requires |places| == n && forall i :: 0 <= i < n ==> places[i] < n
    requires forall i, j :: 0 <= i < j < n ==> places[i] < places[j]
    ensures forall i :: 0 <= i < n ==> places[i] == i
  {
    if n > 0 {
      forall i | 0 <= i < n - 1 ensures places[i] < n - 1 {
        assert places[i] < places[n - 1];
      }
      FullSelection(places[..n - 1], n - 1);
      if n > 1 {
        assert places[n - 2] == places[..n - 1][n - 2] == n - 2;
      }
    }
  }

  /** The published approvals are all popped ones, or all but the held one, exactly when none was
      popped while another was held. */
  lemma LosslessIff(s: Withholding, forbidden: seq<Hash>, events: seq<Event>)
    requires StartsWithholding(s)
    ensures var popped, held := PoppedApprovals(s, forbidden, events), WithholdingRun(s, forbidden, events).held;
            (held.Some? ==> popped != []) &&
            (PublishedApprovals(s, forbidden, events) == (if held.Some? then popped[..|popped| - 1] else popped)
             <==> Overwritten(s, forbidden, events) == 0)
  {
    var popped, published := PoppedApprovals(s, forbidden, events), PublishedApprovals(s, forbidden, events);
    var held, places := WithholdingRun(s, forbidden, events).held, Places(s, forbidden, events);
    PublishedFromPopped(s, forbidden, events);
    PoppedPublishedOrOverwritten(s, forbidden, events);
    if Overwritten(s, forbidden, events) == 0 {
      FullSelection(places, |published|);
      forall i | 0 <= i < |published| ensures published[i] == popped[i] {
        assert places[i] == i;
      }
    }
  }

  // ----- with fresh hashes no approval is published twice

  /** What one event does to the queue of drive `d`. */
  lemma WithholdingQueueStep(t: Withholding, forbidden: seq<Hash>, e: Event, d: Key)
    ensures var queue := t.chain.Drive(d).pendingModifications;
            var queue' := WithholdingStep(t, forbidden, e).chain.Drive(d).pendingModifications;
            if e.AddDriveEvent? && e.d == d then queue' == []
            else if e.ModifyEvent? && e.d == d then queue' == queue + [e.modification]
            else if e.CancelEvent? && e.d == d then queue' == EraseHash(queue, e.hash)
            else if Withholds(t, e) && e.info.driveKey == d then
              queue != [] && queue[0].transactionHash == e.info.modifyTransactionHash && queue' == queue[1..]
            else queue' == queue
  {
  }

  lemma {:induction false} WithheldPendingIsFresh(s: Withholding, forbidden: seq<Hash>, events: seq<Event>, d: Key)
    requires StartsWithholding(s) && FreshModifications(events)
    ensures var queue := WithholdingRun(s, forbidden, events).chain.Drive(d).pendingModifications;
            DistinctHashes(queue) && forall m :: m in queue ==> ModifyEvent(d, m) in events
  {
    if events == [] {
    } else {
      var earlier, e := events[..|events| - 1], events[|events| - 1];
      var t := WithholdingRun(s, forbidden, earlier);
      assert events == earlier + [e];
      FreshPrefix(events);
      WithheldPendingIsFresh(s, forbidden, earlier, d);
      WithholdingQueueStep(t, forbidden, e, d);
      var queue := t.chain.Drive(d).pendingModifications;
      if e.CancelEvent? && e.d == d {
        EraseHashDistinct(queue, e.hash);
      } else if e.ModifyEvent? && e.d == d {
        forall i | 0 <= i < |queue| ensures queue[i].transactionHash != e.modification.transactionHash {
          assert ModifyEvent(d, queue[i]) in earlier;
        }
      }
    }
  }

  lemma WithheldPendingOnce(s: Withholding, forbidden: seq<Hash>, events: seq<Event>, d: Key, d': Key, h: Hash)
    requires StartsWithholding(s) && FreshModifications(events)
    requires var c := WithholdingRun(s, forbidden, events).chain; Pending(c, d, h) && Pending(c, d', h)
    ensures d == d'
  {
    var c := WithholdingRun(s, forbidden, events).chain;
    WithheldPendingIsFresh(s, forbidden, events, d);
    WithheldPendingIsFresh(s, forbidden, events, d');
    var m :| m in c.Drive(d).pendingModifications && m.transactionHash == h;
    var m' :| m' in c.Drive(d').pendingModifications && m'.transactionHash == h;
    var i :| 0 <= i < |events| && events[i] == ModifyEvent(d, m);
    var j :| 0 <= j < |events| && events[j] == ModifyEvent(d', m');
    assert i == j;
  }

  lemma NotPendingAfter(t: Withholding, forbidden: seq<Hash>, e: Event, d: Key, h: Hash)
    requires !Pending(t.chain, d, h) && (e.ModifyEvent? ==> e.modification.transactionHash != h)
    ensures !Pending(WithholdingStep(t, forbidden, e).chain, d, h)
  {
    WithholdingQueueStep(t, forbidden, e, d);
  }

  /** What is popped was submitted and is pending nowhere any more. */
  lemma WithheldPopSettles(s: Withholding, forbidden: seq<Hash>, events: seq<Event>, e: Event)
    requires StartsWithholding(s) && FreshModifications(events)
    requires Withholds(WithholdingRun(s, forbidden, events), e)
    ensures SettledWithheld(WithholdingStep(WithholdingRun(s, forbidden, events), forbidden, e), events, e.info)
  {
    var t, own, h := WithholdingRun(s, forbidden, events), e.info.driveKey, e.info.modifyTransactionHash;
    var queue := t.chain.Drive(own).pendingModifications;
    WithheldPendingIsFresh(s, forbidden, events, own);
    assert ModifyEvent(own, queue[0]) in events;
    forall d ensures !Pending(WithholdingStep(t, forbidden, e).chain, d, h) {
      WithholdingQueueStep(t, forbidden, e, d);
      if d == own {
        forall m | m in queue[1..] ensures m.transactionHash != h {
          var j :| 0 <= j < |queue[1..]| && queue[1..][j] == m;
          assert queue[j + 1] == m;
        }
      } else if Pending(t.chain, d, h) {
        WithheldPendingOnce(s, forbidden, events, d, own, h);
      }
    }
  }

  ghost predicate SettledWithheld(t: Withholding, events: seq<Event>, a: ApprovalTransactionInfo) {
    && (exists d, m :: ModifyEvent(d, m) in events && m.transactionHash == a.modifyTransactionHash)
    && (forall d :: !Pending(t.chain, d, a.modifyTransactionHash))
  }

  lemma StaysSettledWithheld(t: Withholding, forbidden: seq<Hash>, events: seq<Event>, a: ApprovalTransactionInfo)
    requires events != [] && FreshModifications(events) && SettledWithheld(t, events[..|events| - 1], a)
    ensures SettledWithheld(WithholdingStep(t, forbidden, events[|events| - 1]), events, a)
  {
    var earlier, e, h := events[..|events| - 1], events[|events| - 1], a.modifyTransactionHash;
    FreshPrefix(events);
    assert events == earlier + [e];
    var d, m :| ModifyEvent(d, m) in earlier && m.transactionHash == h;
    assert ModifyEvent(d, m) in events;
    forall k ensures !Pending(WithholdingStep(t, forbidden, e).chain, k, h) {
      NotPendingAfter(t, forbidden, e, k, h);
    }
  }

  ghost predicate DistinctApprovals(approvals: seq<ApprovalTransactionInfo>) {
    forall i, j :: 0 <= i < j < |approvals| ==> approvals[i].modifyTransactionHash != approvals[j].modifyTransactionHash
  }

  /** With fresh hashes no modification is popped twice. */
  lemma {:induction false} PoppedOnce(s: Withholding, forbidden: seq<Hash>, events: seq<Event>)
    requires StartsWithholding(s) && FreshModifications(events)
    ensures DistinctApprovals(PoppedApprovals(s, forbidden, events))
    ensures forall a :: a in PoppedApprovals(s, forbidden, events) ==>
              SettledWithheld(WithholdingRun(s, forbidden, events), events, a)
  {
    if events == [] {
    } else {
      var earlier, e := events[..|events| - 1], events[|events| - 1];
      var t, popped := WithholdingRun(s, forbidden, earlier), PoppedApprovals(s, forbidden, earlier);
      FreshPrefix(events);
      PoppedOnce(s, forbidden, earlier);
      forall a | a in popped ensures SettledWithheld(WithholdingRun(s, forbidden, events), events, a) {
        StaysSettledWithheld(t, forbidden, events, a);
      }
      if Withholds(t, e) {
        WithheldPopSettles(s, forbidden, earlier, e);
        assert forall x :: x in earlier ==> x in events;
        forall i | 0 <= i < |popped| ensures popped[i].modifyTransactionHash != e.info.modifyTransactionHash {
          assert popped[i] in popped;
          assert Pending(t.chain, e.info.driveKey, e.info.modifyTransactionHash) by {
            var queue := t.chain.Drive(e.info.driveKey).pendingModifications;
            assert queue[0] in queue;
          }
        }
      }
    }
  }

  /** Hence none is published twice. */
  lemma PublishedOnce(s: Withholding, forbidden: seq<Hash>, events: seq<Event>)
    requires StartsWithholding(s) && FreshModifications(events)
    ensures DistinctApprovals(PublishedApprovals(s, forbidden, events))
  {
    PoppedOnce(s, forbidden, events);
    PublishedFromPopped(s, forbidden, events);
  }

  // ----- what is recorded, and what replicators are told

  /** Drive keys are added once, before anything else mentions them. */
  ghost predicate AddsFresh(s: Withholding, forbidden: seq<Hash>, events: seq<Event>) {
    events == [] ||
    (var earlier, e := events[..|events| - 1], events[|events| - 1];
     && AddsFresh(s, forbidden, earlier)
     && (e.AddDriveEvent? ==> e.d !in WithholdingRun(s, forbidden, earlier).chain.drives))
  }

  ghost predicate HeldRecorded(t: Withholding) {
    t.held.Some? ==>
      t.held.value.driveKey in t.chain.drives
      && t.chain.Drive(t.held.value.driveKey).lastApprovedModification == t.held
  }

  lemma HeldRecordedStep(t: Withholding, forbidden: seq<Hash>, e: Event)
    requires HeldRecorded(t) && (e.AddDriveEvent? ==> e.d !in t.chain.drives)
    ensures HeldRecorded(WithholdingStep(t, forbidden, e))
  {
    HeldAfter(t, forbidden, e);
    if e.SingleApprovalReadyEvent? && e.info.modifyTransactionHash !in forbidden {
      assert ApproveSingle(t.chain.Drive(e.info.driveKey), e.info).lastApprovedModification
          == t.chain.Drive(e.info.driveKey).lastApprovedModification;
    }
  }

  /** A held approval is what its drive records as the last one. */
  lemma {:induction false} HeldIsRecorded(s: Withholding, forbidden: seq<Hash>, events: seq<Event>)
    requires StartsWithholding(s) && AddsFresh(s, forbidden, events)
    ensures HeldRecorded(WithholdingRun(s, forbidden, events))
  {
    if events == [] {
    } else {
      HeldIsRecorded(s, forbidden, events[..|events| - 1]);
      HeldRecordedStep(WithholdingRun(s, forbidden, events[..|events| - 1]), forbidden, events[|events| - 1]);
    }
  }

  /** The approvals a log tells of. */
  function Heard(log: seq<Message>): seq<PublishedApproval> {
    if log == [] then []
    else
      var m := log[|log| - 1];
      Heard(log[..|log| - 1]) + (if m.ApprovalPublished? then [m.approval] else [])
  }

  function AllPublished(approvals: seq<ApprovalTransactionInfo>): seq<PublishedApproval> {
    if approvals == [] then []
    else AllPublished(approvals[..|approvals| - 1]) + [Publish(approvals[|approvals| - 1])]
  }

  lemma HeardOne(log: seq<Message>, m: Message)
    ensures Heard(log + [m]) == Heard(log) + (if m.ApprovalPublished? then [m.approval] else [])
  {
    assert (log + [m])[..|log|] == log;
  }

  lemma HeardNothing(log: seq<Message>, told: seq<Message>)
    requires forall m :: m in told ==> !m.ApprovalPublished?
    ensures Heard(log + told) == Heard(log)
    decreases |told|
  {
    if told == [] {
      assert log + told == log;
    } else {
      var rest, m := told[..|told| - 1], told[|told| - 1];
      assert log + told == (log + rest) + [m];
      HeardNothing(log, rest);
      HeardOne(log + rest, m);
    }
  }

  /** Nobody starts, stops or joins: the occasions on which the recorded approval is replayed. */
  predicate Quiet(e: Event) {
    !e.StartEvent? && !e.StopEvent? && !e.AddReplicatorEvent?
  }

  lemma BaseSaysNoApproval(c: Chain, e: Event, r: Key)
    requires Quiet(e) && !e.ApprovalReadyEvent?
    ensures forall m :: m in Outgoing(c, e, r) ==> !m.ApprovalPublished?
  {
  }

  lemma HeardStep(t: Withholding, forbidden: seq<Hash>, e: Event, r: Key)
    requires Quiet(e) && r in t.chain.mail
    ensures var u, told := WithholdingStep(t, forbidden, e), PublishedBy(t, forbidden, e);
            && r in u.chain.mail && |told| <= 1
            && Heard(u.chain.mail[r]) == Heard(t.chain.mail[r]) + AllPublished(told)
  {
    var log, told := t.chain.mail[r], PublishedBy(t, forbidden, e);
    if told != [] {
      HeardOne(log, ApprovalPublished(Publish(told[0])));
      assert told == [told[0]] && AllPublished(told) == [Publish(told[0])];
    } else if !e.ApprovalReadyEvent? && !(e.SingleApprovalReadyEvent? && e.info.modifyTransactionHash in forbidden) {
      BaseSaysNoApproval(t.chain, e, r);
      HeardNothing(log, Outgoing(t.chain, e, r));
    }
  }

  lemma AllPublishedAppend(a: seq<ApprovalTransactionInfo>, b: seq<ApprovalTransactionInfo>)
    requires |b| <= 1
    ensures AllPublished(a + b) == AllPublished(a) + AllPublished(b)
  {
    if b == [] {
      assert a + b == a;
    } else {
      assert b == [b[0]] && (a + b)[..|a|] == a;
    }
  }

  /** While nobody starts, stops or joins, every running replicator hears exactly the published
      approvals, in order: of what is held or was overwritten it hears nothing. */
  lemma {:induction false} HeardIsPublished(s: Withholding, forbidden: seq<Hash>, events: seq<Event>, r: Key)
    requires StartsWithholding(s) && r in s.chain.mail && forall e :: e in events ==> Quiet(e)
    ensures var t := WithholdingRun(s, forbidden, events);
            r in t.chain.mail && Heard(t.chain.mail[r]) == AllPublished(PublishedApprovals(s, forbidden, events))
  {
    if events == [] {
    } else {
      var earlier, e := events[..|events| - 1], events[|events| - 1];
      assert e in events && forall x :: x in earlier ==> x in events;
      HeardIsPublished(s, forbidden, earlier, r);
      var t := WithholdingRun(s, forbidden, earlier);
      HeardStep(t, forbidden, e, r);
      AllPublishedAppend(PublishedApprovals(s, forbidden, earlier), PublishedBy(t, forbidden, e));
    }
  }

  lemma WithholdingWellFormed(t: Withholding, forbidden: seq<Hash>, e: Event)
    requires WellFormed(t.chain) && WithholdingDefined(t, forbidden, e)
    ensures WellFormed(WithholdingStep(t, forbidden, e).chain)
  {
    if Withholds(t, e) {
      assert WellFormedDrive(e.info.driveKey, Popped(t.chain.Drive(e.info.driveKey), e.info));
    } else if !e.ApprovalReadyEvent? && !(e.SingleApprovalReadyEvent? && e.info.modifyTransactionHash in forbidden) {
      StepWellFormed(t.chain, e);
    }
  }

  lemma {:induction false} WithholdingRunWellFormed(s: Withholding, forbidden: seq<Hash>, events: seq<Event>)
    requires StartsWithholding(s) && WithholdingDefinedRun(s, forbidden, events)
    ensures WellFormed(WithholdingRun(s, forbidden, events).chain)
  {
    if events == [] {
    } else {
      WithholdingRunWellFormed(s, forbidden, events[..|events| - 1]);
      WithholdingWellFormed(WithholdingRun(s, forbidden, events[..|events| - 1]), forbidden, events[|events| - 1]);
    }
  }

  /** The inherited start handler does not know of withholding: a member that starts while an approval
      is held is told of it although it is unpublished. */
  lemma StartRevealsHeld(s: Withholding, forbidden: seq<Hash>, events: seq<Event>, r: Key)
    requires StartsWithholding(s) && WithholdingDefinedRun(s, forbidden, events) && AddsFresh(s, forbidden, events)
    requires var t := WithholdingRun(s, forbidden, events);
             t.held.Some? && r in t.chain.addrList && r !in t.chain.mail && r in t.chain.Members(t.held.value.driveKey)
    ensures var t := WithholdingRun(s, forbidden, events);
            var started := WithholdingStep(t, forbidden, StartEvent(r)).chain;
            && r in started.mail
            && ViewOf(t.held.value.driveKey, started.mail[r]).Some?
            && ViewOf(t.held.value.driveKey, started.mail[r]).value.lastApproval == Some(Publish(t.held.value))
  {
    HeldIsRecorded(s, forbidden, events);
    WithholdingRunWellFormed(s, forbidden, events);
    var t := WithholdingRun(s, forbidden, events);
    StartMirrored(t.chain, t.held.value.driveKey, r);
  }
}
