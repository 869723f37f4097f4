/** Runs, from a freshly constructed ledger, on which the code promises less than one might expect. */
module Witnesses {
  import opened Basics
  import opened Protocol
  import opened Replica
  import opened Chain
  import opened Convergence
  import opened History
  import opened HonestRuns
  import opened Opinions
  import opened Rejoin
  import opened Uploads
  import opened Withheld

  /** All replicators run from the beginning. */
  ghost function Fresh(keys: seq<Key>): Chain {
    Chain(keys, map[], map[], map[], map[], map r | r in keys :: [])
  }

  const OWNER: Key := 7
  const DRIVE: Key := 0

  function Addition(list: seq<Key>): Event {
    AddDriveEvent(DRIVE, OWNER, 0, list)
  }

  const ADDED := Addition([1])

  /** The record of the new drive, with a queue. */
  function Queued(list: seq<Key>, queue: seq<ModificationRequest>): DriveInfo {
    EMPTY_DRIVE.(driveRequest := AddDriveRequest(0, 0, [], list, OWNER, list, list), pendingModifications := queue)
  }

  function Submission(h: Hash, size: nat): ModificationRequest {
    ModificationRequest(0, h, size, [])
  }

  function Approval(h: Hash, layout: seq<KeyAndBytes>): ApprovalTransactionInfo {
    ApprovalTransactionInfo(DRIVE, h, 0, [SingleOpinion(1, layout)])
  }

  // ----- runs of the ledger, one event at a time

  /** A defined run that leaves the drive with this record and all replicators running. */
  ghost predicate Reaches(keys: seq<Key>, events: seq<Event>, di: DriveInfo) {
    && DefinedRun(Fresh(keys), events)
    && var s := Run(Fresh(keys), events);
       s.addrList == keys && s.Drive(DRIVE) == di && forall r :: r in s.mail <==> r in keys
  }

  lemma Extend(keys: seq<Key>, events: seq<Event>, di: DriveInfo, e: Event)
    requires Reaches(keys, events, di) && e.Subject() == Some(DRIVE) && Defined(Run(Fresh(keys), events), e)
    ensures Reaches(keys, events + [e], Local(keys, di, e))
    ensures Run(Fresh(keys), events + [e]) == Step(Run(Fresh(keys), events), e)
  {
    var all := events + [e];
    assert all[..|all| - 1] == events;
    forall i | 0 <= i < |all| ensures Defined(Run(Fresh(keys), all[..i]), all[i]) {
      if i < |events| {
        assert all[..i] == events[..i];
      } else {
        assert all[..i] == events;
      }
    }
  }

  lemma Reached(keys: seq<Key>, events: seq<Event>, di: DriveInfo)
    requires Reaches(keys, events, di)
    ensures var s := Run(Fresh(keys), events);
            && s.Drive(DRIVE) == di && s.Members(DRIVE) == di.driveRequest.fullReplicatorList
            && forall r :: r in keys ==> r in s.mail
  {
  }

  lemma AfterAdding(keys: seq<Key>, list: seq<Key>)
    requires Distinct(keys) && Distinct(list) && list != []
    ensures Initial(Fresh(keys)) && Reaches(keys, [Addition(list)], Queued(list, []))
    ensures Run(Fresh(keys), [Addition(list)]) == Step(Fresh(keys), Addition(list))
  {
    assert Run(Fresh(keys), []) == Fresh(keys) && Reaches(keys, [], EMPTY_DRIVE);
    Extend(keys, [], EMPTY_DRIVE, Addition(list));
    assert [] + [Addition(list)] == [Addition(list)];
  }

  lemma AfterModify(keys: seq<Key>, events: seq<Event>, di: DriveInfo, m: ModificationRequest)
    requires Reaches(keys, events, di)
    ensures Reaches(keys, events + [ModifyEvent(DRIVE, m)],
                    di.(pendingModifications := di.pendingModifications + [m]))
  {
    Extend(keys, events, di, ModifyEvent(DRIVE, m));
  }

  lemma AfterReportTo(keys: seq<Key>, events: seq<Event>, di: DriveInfo, info: ApprovalTransactionInfo)
    requires Reaches(keys, events, di) && 1 in keys && info.driveKey == DRIVE
    ensures Reaches(keys, events + [ApprovalReadyEvent(1, info)], Approve(di, info))
  {
    Extend(keys, events, di, ApprovalReadyEvent(1, info));
  }

  // ----- what the upload check lets through, and what it does when it fails

  function TwoSubmitted(): seq<Event> {
    [ADDED] + [ModifyEvent(DRIVE, Submission(5, 10))] + [ModifyEvent(DRIVE, Submission(6, 10))]
  }

  lemma TwoSubmittedReaches()
    ensures Initial(Fresh([1])) && Reaches([1], TwoSubmitted(), Queued([1], [Submission(5, 10), Submission(6, 10)]))
  {
    AfterAdding([1], [1]);
    AfterModify([1], [ADDED], Queued([1], []), Submission(5, 10));
    assert [] + [Submission(5, 10)] == [Submission(5, 10)];
    AfterModify([1], [ADDED] + [ModifyEvent(DRIVE, Submission(5, 10))], Queued([1], [Submission(5, 10)]),
                Submission(6, 10));
    assert [Submission(5, 10)] + [Submission(6, 10)] == [Submission(5, 10), Submission(6, 10)];
  }

  /** The first is approved with ten bytes from key 8. */
  function OneApproved(): seq<Event> {
    TwoSubmitted() + [ApprovalReadyEvent(1, Approval(5, [KeyAndBytes(8, 10)]))]
  }

  function ApprovedOnce(): DriveInfo {
    Queued([1], [Submission(6, 10)]).(
      driveRequest := Queued([1], []).driveRequest.(expectedCumulativeDownloadSize := 10),
      lastApprovedModification := Some(Approval(5, [KeyAndBytes(8, 10)])),
      uploads := map[1 := [KeyAndBytes(8, 10)]])
  }

  lemma FirstOpinion(uploads: map<Key, seq<KeyAndBytes>>, o: SingleOpinion)
    ensures Record(uploads, [o]) ==
            if Admissible(uploads, o) then Recorded(uploads[o.replicatorKey := o.uploadLayout], true)
            else Recorded(uploads, false)
  {
    assert [o][1..] == [];
  }

  lemma FirstApproval(queue: seq<ModificationRequest>)
    requires queue == [Submission(5, 10), Submission(6, 10)]
    ensures Approve(Queued([1], queue), Approval(5, [KeyAndBytes(8, 10)])) == ApprovedOnce()
  {
    FirstOpinion(map[], SingleOpinion(1, [KeyAndBytes(8, 10)]));
    assert queue[1..] == [Submission(6, 10)];
  }

  lemma OneApprovedReaches()
    ensures Initial(Fresh([1])) && Reaches([1], OneApproved(), ApprovedOnce())
  {
    var queue := [Submission(5, 10), Submission(6, 10)];
    TwoSubmittedReaches();
    FirstApproval(queue);
    AfterReportTo([1], TwoSubmitted(), Queued([1], queue), Approval(5, [KeyAndBytes(8, 10)]));
  }

  /** Then fewer bytes from the same key fail the check, and a layout without the key passes. */
  lemma NextVerdicts()
    ensures ApprovalVerdict(ApprovedOnce(), Approval(6, [KeyAndBytes(8, 4)])).UploadFault?
    ensures ApprovalVerdict(ApprovedOnce(), Approval(6, [])).Accepted?
    ensures Approve(ApprovedOnce(), Approval(6, [])).uploads == map[1 := []]
  {
    FirstOpinion(ApprovedOnce().uploads, SingleOpinion(1, [KeyAndBytes(8, 4)]));
    FirstOpinion(ApprovedOnce().uploads, SingleOpinion(1, []));
    assert KeyAndBytes(8, 4) in [KeyAndBytes(8, 4)];
    assert BytesOf([KeyAndBytes(8, 10)], 8) == Some(10);
  }

  /** The check can fail, after the pop, in a run that nothing else has gone wrong in. */
  lemma FaultIsReached()
    ensures var s := Run(Fresh([1]), OneApproved());
            var e := ApprovalReadyEvent(1, Approval(6, [KeyAndBytes(8, 4)]));
            && Initial(Fresh([1])) && DefinedRun(Fresh([1]), OneApproved()) && Defined(s, e)
            && Pops(s, e) && !Approves(s, e) && 1 in s.mail && 1 in s.Members(DRIVE)
  {
    OneApprovedReaches();
    NextVerdicts();
  }

  /** A layout without the key passes, and its counter falls from ten to nothing. */
  lemma CounterVanishes()
    ensures var s, e := Run(Fresh([1]), OneApproved()), ApprovalReadyEvent(1, Approval(6, []));
            && Initial(Fresh([1])) && DefinedRun(Fresh([1]), OneApproved()) && Defined(s, e) && Approves(s, e)
            && s.Drive(DRIVE).uploads == map[1 := [KeyAndBytes(8, 10)]]
            && Step(s, e).Drive(DRIVE).uploads == map[1 := []]
            && Counter([KeyAndBytes(8, 10)], 8) == 10 && Counter([], 8) == 0
  {
    OneApprovedReaches();
    NextVerdicts();
    assert BytesOf([KeyAndBytes(8, 10)], 8) == Some(10) && BytesOf([], 8) == None;
    AfterReportTo([1], OneApproved(), ApprovedOnce(), Approval(6, []));
    LastStep([1], OneApproved(), ApprovalReadyEvent(1, Approval(6, [])));
  }

  lemma LastStep(keys: seq<Key>, events: seq<Event>, e: Event)
    ensures Run(Fresh(keys), events + [e]) == Step(Run(Fresh(keys), events), e)
  {
    assert (events + [e])[..|events|] == events;
  }

  // ----- two members that disagree on a pending verification

  const VERIFICATION := VerificationRequest(3, 0, 0, [])
  const STARTED := StartVerificationEvent(DRIVE, VERIFICATION)
  const JOINED := AddReplicatorEvent(DRIVE, 2)

  function JoinedMeanwhile(): seq<Event> {
    [ADDED] + [STARTED] + [JOINED]
  }

  lemma StartedReaches()
    ensures Initial(Fresh([1, 2])) && Reaches([1, 2], [ADDED], Queued([1], []))
    ensures Reaches([1, 2], [ADDED] + [STARTED], Queued([1], []).(pendingVerification := Some(VERIFICATION)))
  {
    AfterAdding([1, 2], [1]);
    Extend([1, 2], [ADDED], Queued([1], []), STARTED);
  }

  function JoinedRecord(): DriveInfo {
    EMPTY_DRIVE.(driveRequest := AddDriveRequest(0, 0, [], [1, 2], OWNER, [1, 2], [1, 2]),
                 pendingVerification := Some(VERIFICATION))
  }

  lemma JoinedRecordIs()
    ensures Local([1, 2], Queued([1], []).(pendingVerification := Some(VERIFICATION)), JOINED) == JoinedRecord()
  {
    assert [1] + [2] == [1, 2];
  }

  lemma JoinedMeanwhileReaches()
    ensures Initial(Fresh([1, 2])) && Reaches([1, 2], JoinedMeanwhile(), JoinedRecord())
  {
    StartedReaches();
    JoinedRecordIs();
    Extend([1, 2], [ADDED] + [STARTED], Queued([1], []).(pendingVerification := Some(VERIFICATION)), JOINED);
  }

  lemma ListeningStep(keys: seq<Key>, events: seq<Event>, e: Event)
    ensures Listening(Fresh(keys), events + [e], DRIVE)
         == NowListening(Run(Fresh(keys), events), e, DRIVE, Listening(Fresh(keys), events, DRIVE))
  {
    assert (events + [e])[..|events|] == events;
  }

  lemma OnlyTheFirstListens()
    ensures Listening(Fresh([1, 2]), JoinedMeanwhile(), DRIVE) == {1}
  {
    StartedReaches();
    ListeningStep([1, 2], [ADDED], STARTED);
    ListeningStep([1, 2], [ADDED] + [STARTED], JOINED);
  }

  lemma JoinedMeanwhileIsOrderly()
    ensures OrderlyRun(Fresh([1, 2]), JoinedMeanwhile())
  {
    JoinedMeanwhileReaches();
    JoinedMeanwhileIsFresh();
    assert JoinedMeanwhile() == [ADDED, STARTED, JOINED];
  }

  lemma JoinedMeanwhileIsFresh()
    ensures FreshDrives(Fresh([1, 2]), JoinedMeanwhile())
  {
    var c, events := Fresh([1, 2]), JoinedMeanwhile();
    assert events == [ADDED, STARTED, JOINED];
    forall i | 0 <= i < |events| && events[i].AddDriveEvent? ensures events[i].d !in Run(c, events[..i]).drives {
      assert i == 0 && events[..i] == [];
      assert Run(c, []) == c;
    }
  }

  lemma BothAreMembers()
    ensures var s := Run(Fresh([1, 2]), JoinedMeanwhile());
            1 in s.mail && 2 in s.mail && s.Members(DRIVE) == [1, 2] && s.Drive(DRIVE).pendingVerification.Some?
  {
    JoinedMeanwhileReaches();
    Reached([1, 2], JoinedMeanwhile(), JoinedRecord());
  }

  ghost predicate SeeDifferentVerifications(s: Chain, d: Key, r: Key, r': Key) {
    && r in s.mail && r' in s.mail && r in s.Members(d) && r' in s.Members(d)
    && var v, v' := ViewOf(d, s.mail[r]), ViewOf(d, s.mail[r']);
       v.Some? && v'.Some? && v.value.verification != v'.value.verification
  }

  lemma OneOfTwoListens(c: Chain, events: seq<Event>, d: Key, r: Key, r': Key)
    requires OrderlyRun(c, events)
    requires r in Listening(c, events, d) && r' !in Listening(c, events, d)
    requires var s := Run(c, events);
             && r in s.mail && r' in s.mail && r in s.Members(d) && r' in s.Members(d)
             && s.Drive(d).pendingVerification.Some?
    ensures SeeDifferentVerifications(Run(c, events), d, r, r')
  {
    MembersAgree(c, events, d, r, r');
  }

  /** A replicator that joined during a verification is not told of it: the two members' views differ. */
  lemma VerificationsDiffer()
    ensures OrderlyRun(Fresh([1, 2]), JoinedMeanwhile())
    ensures SeeDifferentVerifications(Run(Fresh([1, 2]), JoinedMeanwhile()), DRIVE, 1, 2)
  {
    BothAreMembers();
    JoinedMeanwhileIsOrderly();
    OnlyTheFirstListens();
    OneOfTwoListens(Fresh([1, 2]), JoinedMeanwhile(), DRIVE, 1, 2);
  }

  // ----- a withheld approval that is lost

  /** The state with this queue and this approval held; so many were overwritten, popped and published. */
  ghost predicate Holds(s: Withholding, events: seq<Event>, queue: seq<ModificationRequest>,
                             held: Option<ApprovalTransactionInfo>, overwritten: nat,
                             popped: seq<ApprovalTransactionInfo>)
  {
    var t := WithholdingRun(s, [9], events);
    && t.chain.addrList == [1] && t.chain.Drive(DRIVE).pendingModifications == queue && t.held == held
    && Overwritten(s, [9], events) == overwritten
    && PoppedApprovals(s, [9], events) == popped && PublishedApprovals(s, [9], events) == []
  }

  lemma WithholdOneMore(s: Withholding, forbidden: seq<Hash>, events: seq<Event>, e: Event)
    ensures var t := WithholdingRun(s, forbidden, events);
            && WithholdingRun(s, forbidden, events + [e]) == WithholdingStep(t, forbidden, e)
            && Overwritten(s, forbidden, events + [e])
               == Overwritten(s, forbidden, events) + (if Withholds(t, e) && t.held.Some? then 1 else 0)
            && PoppedApprovals(s, forbidden, events + [e]) == PoppedApprovals(s, forbidden, events) + PoppedBy(t, e)
            && PublishedApprovals(s, forbidden, events + [e])
               == PublishedApprovals(s, forbidden, events) + PublishedBy(t, forbidden, e)
  {
    assert (events + [e])[..|events|] == events;
  }

  lemma WithholdModify(s: Withholding, events: seq<Event>, queue: seq<ModificationRequest>, m: ModificationRequest)
    requires Holds(s, events, queue, None, 0, [])
    ensures Holds(s, events + [ModifyEvent(DRIVE, m)], queue + [m], None, 0, [])
  {
    WithholdOneMore(s, [9], events, ModifyEvent(DRIVE, m));
  }

  lemma WithholdReport(s: Withholding, events: seq<Event>, queue: seq<ModificationRequest>,
                       held: Option<ApprovalTransactionInfo>, overwritten: nat, popped: seq<ApprovalTransactionInfo>,
                       info: ApprovalTransactionInfo)
    requires Holds(s, events, queue, held, overwritten, popped) && queue != []
    requires info.driveKey == DRIVE && queue[0].transactionHash == info.modifyTransactionHash != 9
    ensures Holds(s, events + [ApprovalReadyEvent(1, info)], queue[1..], Some(info),
                       overwritten + (if held.Some? then 1 else 0), popped + [info])
  {
    WithholdOneMore(s, [9], events, ApprovalReadyEvent(1, info));
  }

  lemma WithholdSubmitted(s: Withholding)
    requires s == Withholding(Fresh([1]), None)
    ensures Holds(s, TwoSubmitted(), [Submission(5, 10), Submission(6, 10)], None, 0, [])
  {
    var m, m' := Submission(5, 10), Submission(6, 10);
    WithholdOneMore(s, [9], [], ADDED);
    assert [] + [ADDED] == [ADDED];
    assert Holds(s, [ADDED], [], None, 0, []);
    WithholdModify(s, [ADDED], [], m);
    assert [] + [m] == [m] && [m] + [m'] == [m, m'];
    WithholdModify(s, [ADDED] + [ModifyEvent(DRIVE, m)], [m], m');
  }

  lemma OneIsHeld(s: Withholding)
    requires s == Withholding(Fresh([1]), None)
    ensures Holds(s, TwoSubmitted() + [ApprovalReadyEvent(1, Approval(5, []))], [Submission(6, 10)],
                  Some(Approval(5, [])), 0, [Approval(5, [])])
  {
    var queue, a := [Submission(5, 10), Submission(6, 10)], Approval(5, []);
    WithholdSubmitted(s);
    WithholdReport(s, TwoSubmitted(), queue, None, 0, [], a);
    assert queue[1..] == [Submission(6, 10)] && [] + [a] == [a];
  }

  /** Neither modification is the one that is published at once; both are popped. */
  function TwoPopped(): seq<Event> {
    TwoSubmitted() + [ApprovalReadyEvent(1, Approval(5, []))] + [ApprovalReadyEvent(1, Approval(6, []))]
  }

  /** The first approval is overwritten while it is held and never published. */
  lemma ApprovalIsLost()
    ensures var s := Withholding(Fresh([1]), None);
            && StartsWithholding(s) && Overwritten(s, [9], TwoPopped()) == 1
            && PoppedApprovals(s, [9], TwoPopped()) == [Approval(5, []), Approval(6, [])]
            && PublishedApprovals(s, [9], TwoPopped()) == []
            && WithholdingRun(s, [9], TwoPopped()).held == Some(Approval(6, []))
  {
    TwoAreHeld(Withholding(Fresh([1]), None));
  }

  lemma TwoAreHeld(s: Withholding)
    requires s == Withholding(Fresh([1]), None)
    ensures Holds(s, TwoPopped(), [], Some(Approval(6, [])), 1, [Approval(5, []), Approval(6, [])])
  {
    var a, a' := Approval(5, []), Approval(6, []);
    OneIsHeld(s);
    WithholdReport(s, TwoSubmitted() + [ApprovalReadyEvent(1, a)], [Submission(6, 10)], Some(a), 0, [a], a');
    assert [a] + [a'] == [a, a'];
  }

  // ----- a replicator that leaves and joins again

  /** Ten bytes from `x` and none from the others of the two members and the client. */
  ghost function TenFrom(x: Key): map<Key, nat> {
    AllTo({1, 2, OWNER}, x, 10)
  }

  ghost function TenAccounted(x: Key): Accounts {
    NewAccounts(0).(notApproved := CumulativeUploads(5, TenFrom(x)))
  }

  /** A drive of two members, just added. */
  ghost function Pair(): Honest {
    Honest(Run(Fresh([1, 2]), [Addition([1, 2])]), map[1 := NewAccounts(0), 2 := NewAccounts(0)], {}, {})
  }

  const SUBMIT := Submit(Submission(5, 10))

  /** Replicator 1 got its ten bytes from 2, and 2 from the client. */
  ghost function FromTwo(): Move {
    Calculate(1, [1, 2], map[2 := 1], TenAccounted(2))
  }

  ghost function FromOwner(): Move {
    Calculate(2, [1, 2], map[OWNER := 1], TenAccounted(OWNER))
  }

  ghost function BothOpinions(): ApprovalTransactionInfo {
    ApprovalTransactionInfo(DRIVE, 5, 0,
                            [SingleOpinion(1, Layout(TenFrom(2))), SingleOpinion(2, Layout(TenFrom(OWNER)))])
  }

  /** Both opinions are approved, and the first member leaves. */
  ghost function ApprovedThenLeft(): seq<Move> {
    [SUBMIT] + [FromTwo()] + [FromOwner()] + [Report(1, BothOpinions())] + [Leave(1)]
  }

  /** The state of an honest run in which all shards are told and all reports pass. */
  ghost predicate HonestState(moves: seq<Move>, t: Honest) {
    && PossibleRun(Pair(), DRIVE, OWNER, moves) && ToldRun(Pair(), DRIVE, moves) && AllPass(Pair(), DRIVE, moves)
    && t == HonestRun(Pair(), DRIVE, moves)
  }

  lemma MoveFrom(moves: seq<Move>, t: Honest, mv: Move)
    requires HonestState(moves, t) && Possible(t, DRIVE, OWNER, mv) && UsesTold(t.chain, DRIVE, mv)
    requires IsReport(mv) ==> Passes(t.chain, ReportEvent(mv))
    ensures HonestState(moves + [mv], AfterMove(t, DRIVE, mv))
  {
    OneMoveMore(Pair(), DRIVE, OWNER, moves, mv);
  }

  lemma PairStarts()
    ensures StartsHonest(Pair(), DRIVE) && HonestState([], Pair())
    ensures Pair().chain.Drive(DRIVE) == Queued([1, 2], []) && Pair().chain.sizes == map[]
  {
    AfterAdding([1, 2], [1, 2]);
  }

  /** What the replicator can calculate from the traffic of `x` alone. */
  lemma TenIsUpdate(x: Key)
    requires x in {2, OWNER}
    ensures Updates(NewAccounts(0), TenAccounted(x), OWNER, 5, [1, 2], 10, map[x := 1])
    ensures Updatable(NewAccounts(0), 10)
  {
    var current := Current([1, 2], OWNER, map[x := 1]);
    assert current.Keys == {1, 2, OWNER};
    SkewedTraffic([1, 2], OWNER, x, 10);
    assert Added(map[], TenFrom(x)) == TenFrom(x);
    AddingUpdates(NewAccounts(0), TenAccounted(x), TenFrom(x), OWNER, 5, [1, 2], 10, map[x := 1]);
  }

  lemma CanCalculate(u: Honest, r: Key, x: Key)
    requires u.chain.Drive(DRIVE) == Queued([1, 2], [Submission(5, 10)]) && x in {2, OWNER}
    requires r in u.team && u.team[r] == NewAccounts(0) && r !in u.ready
    ensures var mv := Calculate(r, [1, 2], map[x := 1], TenAccounted(x));
            && Possible(u, DRIVE, OWNER, mv) && UsesTold(u.chain, DRIVE, mv)
            && AfterMove(u, DRIVE, mv) == Honest(u.chain, u.team[r := TenAccounted(x)], u.ready + {r}, u.settled)
  {
    TenIsUpdate(x);
    assert Queue(u.chain, DRIVE)[0] == Submission(5, 10);
  }

  lemma CanSubmit(u: Honest)
    requires u.chain.Drive(DRIVE) == Queued([1, 2], []) && u.chain.sizes == map[]
    ensures var t := AfterMove(u, DRIVE, SUBMIT);
            && Possible(u, DRIVE, OWNER, SUBMIT)
            && t.chain.Drive(DRIVE) == Queued([1, 2], [Submission(5, 10)]) && t.chain.sizes == map[]
            && t.team == u.team && t.ready == u.ready
  {
    assert [] + [Submission(5, 10)] == [Submission(5, 10)];
  }

  /** The queue is as submitted, and nothing is approved. */
  ghost predicate Calculating(t: Honest) {
    t.chain.Drive(DRIVE) == Queued([1, 2], [Submission(5, 10)]) && t.chain.sizes == map[]
  }

  lemma PairSubmits() returns (t: Honest)
    ensures HonestState([SUBMIT], t)
    ensures Calculating(t) && TeamIs(t, NewAccounts(0), NewAccounts(0), {})
  {
    PairStarts();
    CanSubmit(Pair());
    MoveFrom([], Pair(), SUBMIT);
    assert [] + [SUBMIT] == [SUBMIT];
    t := AfterMove(Pair(), DRIVE, SUBMIT);
  }

  lemma Calculates(moves: seq<Move>, t: Honest, r: Key, x: Key, mv: Move)
    requires HonestState(moves, t) && Calculating(t) && x in {2, OWNER}
    requires r in t.team && t.team[r] == NewAccounts(0) && r !in t.ready
    requires mv == Calculate(r, [1, 2], map[x := 1], TenAccounted(x))
    ensures HonestState(moves + [mv], Honest(t.chain, t.team[r := TenAccounted(x)], t.ready + {r}, t.settled))
  {
    CanCalculate(t, r, x);
    MoveFrom(moves, t, mv);
  }

  /** The team of two, and who of it is ready. */
  ghost predicate TeamIs(t: Honest, a: Accounts, b: Accounts, ready: set<Key>) {
    t.team == map[1 := a, 2 := b] && t.ready == ready
  }

  ghost function WithAccounts(t: Honest, r: Key, a: Accounts): Honest {
    Honest(t.chain, t.team[r := a], t.ready + {r}, t.settled)
  }

  lemma FirstCalculates(moves: seq<Move>, t: Honest)
    requires HonestState(moves, t) && Calculating(t) && 1 in t.team && t.team[1] == NewAccounts(0) && 1 !in t.ready
    ensures HonestState(moves + [FromTwo()], WithAccounts(t, 1, TenAccounted(2)))
  {
    Calculates(moves, t, 1, 2, FromTwo());
  }

  lemma SecondCalculates(moves: seq<Move>, t: Honest)
    requires HonestState(moves, t) && Calculating(t) && 2 in t.team && t.team[2] == NewAccounts(0) && 2 !in t.ready
    ensures HonestState(moves + [FromOwner()], WithAccounts(t, 2, TenAccounted(OWNER)))
  {
    Calculates(moves, t, 2, OWNER, FromOwner());
  }

  lemma TeamsFollow(t: Honest)
    requires Calculating(t) && TeamIs(t, NewAccounts(0), NewAccounts(0), {})
    ensures var u := WithAccounts(t, 1, TenAccounted(2));
            var v := WithAccounts(u, 2, TenAccounted(OWNER));
            && Calculating(u) && TeamIs(u, TenAccounted(2), NewAccounts(0), {1})
            && Calculating(v) && TeamIs(v, TenAccounted(2), TenAccounted(OWNER), {1, 2})
  {
  }

  /** Two first opinions of two members are accepted and recorded. */
  lemma AcceptsBoth(a: SingleOpinion, b: SingleOpinion)
    requires a.replicatorKey == 1 && b.replicatorKey == 2
    ensures var di, info := Queued([1, 2], [Submission(5, 10)]), ApprovalTransactionInfo(DRIVE, 5, 0, [a, b]);
            && ApprovalVerdict(di, info).Accepted?
            && Approve(di, info).uploads == map[1 := a.uploadLayout, 2 := b.uploadLayout]
  {
    assert [a, b][1..] == [b];
    FirstOpinion(map[1 := a.uploadLayout], b);
  }

  lemma TotalsOfBoth()
    ensures Totals(BothOpinions().opinions) == {10}
  {
    LayoutEntries(TenFrom(2));
    LayoutEntries(TenFrom(OWNER));
    SumAllTo({1, 2, OWNER}, 2, 10);
    SumAllTo({1, 2, OWNER}, OWNER, 10);
    assert BothOpinions().opinions[0] in BothOpinions().opinions;
  }

  lemma BothPass(t: Honest)
    requires t.chain.Drive(DRIVE) == Queued([1, 2], [Submission(5, 10)]) && t.chain.sizes == map[]
    ensures Passes(t.chain, ApprovalReadyEvent(1, BothOpinions()))
  {
    AcceptsBoth(BothOpinions().opinions[0], BothOpinions().opinions[1]);
    TotalsOfBoth();
    assert t.chain.Sizes(5) + Totals(BothOpinions().opinions) == {10};
  }

  lemma BothArePossible(u: Honest)
    requires Calculating(u) && TeamIs(u, TenAccounted(2), TenAccounted(OWNER), {1, 2})
    ensures Possible(u, DRIVE, OWNER, Report(1, BothOpinions()))
  {
    forall o | o in BothOpinions().opinions
      ensures o.replicatorKey in u.ready && o.uploadLayout == Layout(u.team[o.replicatorKey].notApproved.uploads)
    {
    }
    assert HonestOpinions(u, BothOpinions().opinions);
  }

  lemma BothAreReported(u: Honest, t: Honest)
    requires Calculating(u) && t == AfterMove(u, DRIVE, Report(1, BothOpinions()))
    ensures t.chain.Members(DRIVE) == [1, 2] && t.chain.Drive(DRIVE).uploads.Keys == {1, 2}
    ensures t.chain.Drive(DRIVE).uploads[1] == Layout(TenFrom(2))
  {
    AcceptsBoth(BothOpinions().opinions[0], BothOpinions().opinions[1]);
    AfterReport(u, DRIVE, 1, BothOpinions());
  }

  lemma PairReports(moves: seq<Move>, u: Honest, mv: Move) returns (t: Honest)
    requires HonestState(moves, u) && Calculating(u) && mv == Report(1, BothOpinions())
    requires TeamIs(u, TenAccounted(2), TenAccounted(OWNER), {1, 2})
    ensures HonestState(moves + [mv], t)
    ensures t.chain.Members(DRIVE) == [1, 2] && t.chain.Drive(DRIVE).uploads.Keys == {1, 2}
    ensures t.chain.Drive(DRIVE).uploads[1] == Layout(TenFrom(2))
  {
    BothArePossible(u);
    BothPass(u);
    MoveFrom(moves, u, mv);
    t := AfterMove(u, DRIVE, mv);
    BothAreReported(u, t);
  }

  lemma AfterLeaving(t: Honest, u: Honest)
    requires u == AfterMove(t, DRIVE, Leave(1)) && t.chain.Members(DRIVE) == [1, 2]
    ensures u.chain.Members(DRIVE) == [2] && u.chain.Drive(DRIVE).uploads == t.chain.Drive(DRIVE).uploads
  {
    assert Without([1, 2], 1) == [2];
  }

  lemma OneLeaves(moves: seq<Move>, t: Honest) returns (u: Honest)
    requires HonestState(moves, t) && t.chain.Members(DRIVE) == [1, 2]
    ensures HonestState(moves + [Leave(1)], u) && u.chain.Members(DRIVE) == [2]
    ensures u.chain.Drive(DRIVE).uploads == t.chain.Drive(DRIVE).uploads
  {
    u := AfterMove(t, DRIVE, Leave(1));
    MoveFrom(moves, t, Leave(1));
    AfterLeaving(t, u);
  }

  lemma ApprovedAndLeft() returns (moves: seq<Move>, u: Honest)
    ensures moves == ApprovedThenLeft() && HonestState(moves, u) && u.chain.Members(DRIVE) == [2]
    ensures 1 in u.chain.Drive(DRIVE).uploads && u.chain.Drive(DRIVE).uploads[1] == Layout(TenFrom(2))
  {
    moves := [SUBMIT];
    var t := PairSubmits();
    TeamsFollow(t);
    FirstCalculates(moves, t);
    moves, t := moves + [FromTwo()], WithAccounts(t, 1, TenAccounted(2));
    SecondCalculates(moves, t);
    moves, t := moves + [FromOwner()], WithAccounts(t, 2, TenAccounted(OWNER));
    t := PairReports(moves, t, Report(1, BothOpinions()));
    moves := moves + [Report(1, BothOpinions())];
    u := OneLeaves(moves, t);
    moves := moves + [Leave(1)];
  }

  /** In a run from a fresh ledger a member gets its ten bytes from the other one, both opinions are
      approved, it leaves and joins again; then its report can fail. */
  lemma RejoinFails() returns (moves: seq<Move>, u: Honest, t: Honest, catchUp: Move, report: Move)
    ensures StartsHonest(Pair(), DRIVE) && moves == ApprovedThenLeft() && HonestState(moves, u)
    ensures u.chain.Members(DRIVE) == [2] && t == AfterMove(u, DRIVE, Join(1))
    ensures FailsAfter(t, DRIVE, OWNER, 1, catchUp, report)
    ensures catchUp.traffic == map[OWNER := 1] && catchUp.shard == [2] == Without(t.chain.Members(DRIVE), 1)
  {
    PairStarts();
    moves, u := ApprovedAndLeft();
    PairInStep(u, moves);
    t := AfterMove(u, DRIVE, Join(1));
    OneJoins(u, t);
    catchUp, report := OwnerOnly(t);
  }

  lemma PairInStep(u: Honest, moves: seq<Move>)
    requires HonestState(moves, u)
    ensures InStep(u, DRIVE)
  {
    PairStarts();
    HonestRunInStep(Pair(), DRIVE, OWNER, moves);
  }

  lemma CatchesUpFromOwner(t: Honest, total: nat, b: Accounts)
    requires JustJoined(t, DRIVE, 1) && Cumulative(t.chain, DRIVE) == total > 0
    requires 1 in t.chain.Drive(DRIVE).uploads && t.chain.Drive(DRIVE).uploads[1] == Layout(TenFrom(2))
    requires b == NewlyUpdated(total, LastHash(t.chain, DRIVE), AllTo({2, OWNER}, OWNER, total))
    ensures Possible(t, DRIVE, OWNER, CatchUp(1, [2], map[OWNER := 1], b))
    ensures !Passes(t.chain, ReportEvent(FirstReport(t.chain, DRIVE, 1, b)))
  {
    var n := b.notApproved.uploads;
    assert Current([2], OWNER, map[OWNER := 1]).Keys == {2, OWNER};
    SkewedTraffic([2], OWNER, OWNER, total);
    CatchesUpIff(t, DRIVE, OWNER, 1, [2], map[OWNER := 1], b);
    SumAllTo({2, OWNER}, OWNER, total);
    LayoutBytes(TenFrom(2), 2);
    FitsIff(Layout(TenFrom(2)), n);
    assert 2 in n && n[2] == 0;
    FirstReportPassesIfFits(t, DRIVE, 1, b);
  }

  lemma OwnerOnly(t: Honest) returns (catchUp: Move, report: Move)
    requires JustJoined(t, DRIVE, 1) && Cumulative(t.chain, DRIVE) > 0
    requires 1 in t.chain.Drive(DRIVE).uploads && t.chain.Drive(DRIVE).uploads[1] == Layout(TenFrom(2))
    ensures FailsAfter(t, DRIVE, OWNER, 1, catchUp, report)
    ensures catchUp.traffic == map[OWNER := 1] && catchUp.shard == [2]
  {
    var total := Cumulative(t.chain, DRIVE);
    var b := NewlyUpdated(total, LastHash(t.chain, DRIVE), AllTo({2, OWNER}, OWNER, total));
    CatchesUpFromOwner(t, total, b);
    catchUp, report := CatchUp(1, [2], map[OWNER := 1], b), FirstReport(t.chain, DRIVE, 1, b);
    FirstReportFails(t, DRIVE, OWNER, 1, catchUp);
  }

  lemma TotalIsPositive(u: Honest)
    requires InStep(u, DRIVE)
    requires 1 in u.chain.Drive(DRIVE).uploads && u.chain.Drive(DRIVE).uploads[1] == Layout(TenFrom(2))
    ensures Cumulative(u.chain, DRIVE) > 0 && u.chain.Drive(DRIVE).uploads != map[]
  {
    LayoutBytes(TenFrom(2), 2);
    CounterWithin(Layout(TenFrom(2)), 2);
  }

  lemma OneJoins(u: Honest, t: Honest)
    requires InStep(u, DRIVE) && u.chain.Members(DRIVE) == [2] && t == AfterMove(u, DRIVE, Join(1))
    requires 1 in u.chain.Drive(DRIVE).uploads && u.chain.Drive(DRIVE).uploads[1] == Layout(TenFrom(2))
    ensures JustJoined(t, DRIVE, 1) && Cumulative(t.chain, DRIVE) > 0 && Without(t.chain.Members(DRIVE), 1) == [2]
    ensures t.chain.Drive(DRIVE).uploads == u.chain.Drive(DRIVE).uploads
  {
    TotalIsPositive(u);
    JoinsFromNothing(u, DRIVE, 1);
    assert Without([2] + [1], 1) == [2];
  }
}
