/** The ledger as a state machine: what each handler does to the drives, to the maps shared by all
    drives, and to the message logs of the running replicators. Handlers are atomic: each holds
    the ledger's lock from its first access to its last. */
module Chain {
  import opened Basics
  import opened Protocol

  datatype Event =
    | AddDriveEvent(d: Key, client: Key, driveSize: nat, replicators: seq<Key>)
    | AddReplicatorEvent(d: Key, replicator: Key)
    | RemoveReplicatorEvent(d: Key, replicator: Key)
    | ModifyEvent(d: Key, modification: ModificationRequest)
    | CancelEvent(d: Key, hash: Hash)
    | StartVerificationEvent(d: Key, verification: VerificationRequest)
    | CancelVerificationEvent(d: Key, hash: Hash)
    | VerificationReadyEvent(verifyInfo: VerifyApprovalTxInfo)
    | ApprovalReadyEvent(reporter: Key, info: ApprovalTransactionInfo)
    | SingleApprovalReadyEvent(reporter: Key, info: ApprovalTransactionInfo)
    | StartEvent(replicator: Key)
    | StopEvent(replicator: Key)
  {
    /** The drive whose record the event touches; starting and stopping touch none. */
    function Subject(): Option<Key> {
      match this
      case VerificationReadyEvent(info) => Some(info.driveKey)
      case ApprovalReadyEvent(_, info) => Some(info.driveKey)
      case SingleApprovalReadyEvent(_, info) => Some(info.driveKey)
      case StartEvent(_) => None
      case StopEvent(_) => None
      case _ => Some(d)
    }
  }

  /** `mail` holds one log per running replicator, empty since its start. */
  datatype Chain = Chain(
    addrList: seq<Key>,
    drives: map<Key, DriveInfo>,
    rootHashes: map<Hash, Hash>,
    sizes: map<Hash, set<nat>>,
    verified: map<Hash, VerifyApprovalTxInfo>,
    mail: map<Key, seq<Message>>)
  {
    function Drive(d: Key): DriveInfo {
      if d in drives then drives[d] else EMPTY_DRIVE
    }

    function Members(d: Key): seq<Key> {
      Drive(d).driveRequest.fullReplicatorList
    }

    function Sizes(h: Hash): set<nat> {
      if h in sizes then sizes[h] else {}
    }
  }

  // ----- modification approval

  predicate OpinionsFromMembers(opinions: seq<SingleOpinion>, members: seq<Key>) {
    forall o :: o in opinions ==> o.replicatorKey in members
  }

  /** The code's test is `size <= (2 * n) / 3`, in unsigned integers. */
  predicate TooFew(opinions: nat, members: nat) {
    opinions <= (2 * members) / 3
  }

  /** No counter of the replicator's last recorded layout that the new one mentions may fall. */
  predicate Admissible(uploads: map<Key, seq<KeyAndBytes>>, opinion: SingleOpinion) {
    opinion.replicatorKey in uploads ==>
      var known := uploads[opinion.replicatorKey];
      forall e :: e in opinion.uploadLayout ==>
        var before := BytesOf(known, e.key);
        before.Some? ==> before.value <= e.uploadedBytes
  }

  datatype Recorded = Recorded(uploads: map<Key, seq<KeyAndBytes>>, passed: bool)

  /** Records the opinions in order and stops, keeping what it recorded, at the first inadmissible one. */
  function Record(uploads: map<Key, seq<KeyAndBytes>>, opinions: seq<SingleOpinion>): Recorded
    decreases |opinions|
  {
    if opinions == [] then Recorded(uploads, true)
    else if !Admissible(uploads, opinions[0]) then Recorded(uploads, false)
    else Record(uploads[opinions[0].replicatorKey := opinions[0].uploadLayout], opinions[1..])
  }

  function Totals(opinions: seq<SingleOpinion>): set<nat> {
    set o | o in opinions :: Total(o.uploadLayout)
  }

  /** The modification is the first of the drive's queue. */
  predicate Fronted(di: DriveInfo, h: Hash) {
    di.pendingModifications != [] && di.pendingModifications[0].transactionHash == h
  }

  datatype Verdict = NotFront | InvalidOpinions | UploadFault | Accepted

  function ApprovalVerdict(di: DriveInfo, info: ApprovalTransactionInfo): Verdict {
    var members := di.driveRequest.fullReplicatorList;
    if !Fronted(di, info.modifyTransactionHash) then NotFront
    else if !OpinionsFromMembers(info.opinions, members) || TooFew(|info.opinions|, |members|) then InvalidOpinions
    else if !Record(di.uploads, info.opinions).passed then UploadFault
    else Accepted
  }

  /** The front is popped and its size added before the upload check, so a failed check leaves both done. */
  function Approve(di: DriveInfo, info: ApprovalTransactionInfo): DriveInfo {
    var verdict := ApprovalVerdict(di, info);
    if verdict.NotFront? || verdict.InvalidOpinions? then di
    else
      var request := di.driveRequest;
      var popped := di.(
        driveRequest := request.(expectedCumulativeDownloadSize :=
          request.expectedCumulativeDownloadSize + di.pendingModifications[0].maxDataSize),
        pendingModifications := di.pendingModifications[1..],
        uploads := Record(di.uploads, info.opinions).uploads);
      if verdict.UploadFault? then popped else popped.(lastApprovedModification := Some(info))
  }

  datatype SingleVerdict = NotMember | Stale | SingleUploadFault | NotSingle | Counted

  /** Meaningful when there is an opinion and, for a member's opinion, a last approval:
      the code reads both without testing for them. */
  function SingleApprovalVerdict(di: DriveInfo, info: ApprovalTransactionInfo): SingleVerdict {
    if info.opinions == [] || info.opinions[0].replicatorKey !in di.driveRequest.fullReplicatorList then NotMember
    else if di.lastApprovedModification.None?
            || di.lastApprovedModification.value.modifyTransactionHash != info.modifyTransactionHash then Stale
    else if !Record(di.uploads, info.opinions).passed then SingleUploadFault
    else if |info.opinions| != 1 then NotSingle
    else Counted
  }

  function ApproveSingle(di: DriveInfo, info: ApprovalTransactionInfo): DriveInfo {
    var verdict := SingleApprovalVerdict(di, info);
    if verdict.NotMember? || verdict.Stale? then di
    else di.(uploads := Record(di.uploads, info.opinions).uploads)
  }

  // ----- the record of one drive

  function NewDrive(e: Event, addrList: seq<Key>): DriveInfo
    requires e.AddDriveEvent?
  {
    var list := if e.replicators == [] then addrList else e.replicators;
    EMPTY_DRIVE.(driveRequest := AddDriveRequest(e.driveSize, 0, [], list, e.client, list, list))
  }

  function WithMembers(di: DriveInfo, full: seq<Key>, donator: seq<Key>, recipient: seq<Key>): DriveInfo {
    di.(driveRequest := di.driveRequest.(
      fullReplicatorList := full, modifyDonatorShard := donator, modifyRecipientShard := recipient))
  }

  function Joined(di: DriveInfo, r: Key): DriveInfo {
    var q := di.driveRequest;
    WithMembers(di, q.fullReplicatorList + [r], q.modifyDonatorShard + [r], q.modifyRecipientShard + [r])
  }

  function Left(di: DriveInfo, r: Key): DriveInfo {
    var q := di.driveRequest;
    WithMembers(di, Without(q.fullReplicatorList, r), Without(q.modifyDonatorShard, r),
                Without(q.modifyRecipientShard, r))
  }

  predicate VerifiesNow(di: DriveInfo, tx: Hash) {
    di.pendingVerification.Some? && di.pendingVerification.value.tx == tx
  }

  /** The record of the event's own drive afterwards. */
  function Local(addrList: seq<Key>, di: DriveInfo, e: Event): DriveInfo {
    match e
    case AddDriveEvent(_, _, _, _) => NewDrive(e, addrList)
    case AddReplicatorEvent(_, r) => Joined(di, r)
    case RemoveReplicatorEvent(_, r) => Left(di, r)
    case ModifyEvent(_, m) => di.(pendingModifications := di.pendingModifications + [m])
    case CancelEvent(_, h) =>
      di.(driveRequest := di.driveRequest.(completedModifications :=
            di.driveRequest.completedModifications + [CompletedModification(h, CANCELLED)]),
          pendingModifications := EraseHash(di.pendingModifications, h))
    case StartVerificationEvent(_, v) =>
      if di.pendingVerification.Some? then di else di.(pendingVerification := Some(v))
    case CancelVerificationEvent(_, tx) =>
      if VerifiesNow(di, tx) then di.(pendingVerification := None) else di
    case VerificationReadyEvent(info) =>
      if VerifiesNow(di, info.tx) then di.(pendingVerification := None) else di
    case ApprovalReadyEvent(_, info) => Approve(di, info)
    case SingleApprovalReadyEvent(_, info) => ApproveSingle(di, info)
    case StartEvent(_) => di
    case StopEvent(_) => di
  }

  // ----- the messages of one event

  function Modifies(d: Key, queue: seq<ModificationRequest>): seq<Message> {
    seq(|queue|, i requires 0 <= i < |queue| => Modify(d, queue[i]))
  }

  function ReplayApproval(di: DriveInfo): seq<Message> {
    if di.lastApprovedModification.Some? then [ApprovalPublished(Publish(di.lastApprovedModification.value))] else []
  }

  function ReplayVerification(d: Key, di: DriveInfo, withVerification: bool): seq<Message> {
    if withVerification && di.pendingVerification.Some?
    then [StartDriveVerification(d, di.pendingVerification.value)] else []
  }

  function Replay(d: Key, request: AddDriveRequest, di: DriveInfo, withVerification: bool): seq<Message> {
    [AddDrive(d, request)] + ReplayApproval(di) + ReplayVerification(d, di, withVerification)
    + Modifies(d, di.pendingModifications)
  }

  /** What a starting replicator is told: its drives, in ascending key order. */
  ghost function ReplayDrives(drives: map<Key, DriveInfo>, keys: set<Key>, r: Key): seq<Message>
    requires keys <= drives.Keys
    decreases |keys|
  {
    if keys == {} then []
    else
      var d := Least(keys);
      (if r in drives[d].driveRequest.fullReplicatorList
       then Replay(d, drives[d].driveRequest, drives[d], true) else [])
      + ReplayDrives(drives, keys - {d}, r)
  }

  /** The part of the replay for the smallest remaining key can be said first. */
  lemma {:induction false} ReplayFirst(drives: map<Key, DriveInfo>, keys: set<Key>, r: Key, before: seq<Message>)
    requires keys != {} && keys <= drives.Keys
    ensures var d := Least(keys);
            before + ReplayDrives(drives, keys, r) ==
            (if r in drives[d].driveRequest.fullReplicatorList
             then before + Replay(d, drives[d].driveRequest, drives[d], true) else before)
            + ReplayDrives(drives, keys - {d}, r)
  {
    var d := Least(keys);
    var rest := ReplayDrives(drives, keys - {d}, r);
    if r in drives[d].driveRequest.fullReplicatorList {
      Associative(before, Replay(d, drives[d].driveRequest, drives[d], true), rest);
    } else {
      assert ReplayDrives(drives, keys, r) == [] + rest == rest;
    }
  }

  /** What a replicator joining a drive is told: its own key is taken out of the shards, and a
      pending verification is not mentioned. */
  function JoinReplay(d: Key, joined: DriveInfo, r: Key): seq<Message> {
    var q := joined.driveRequest;
    Replay(d, q.(modifyDonatorShard := Without(q.modifyDonatorShard, r),
                 modifyRecipientShard := Without(q.modifyRecipientShard, r)), joined, false)
  }

  function Reconfigured(d: Key, full: seq<Key>, donator: seq<Key>, recipient: seq<Key>): seq<Message> {
    [SetReplicators(d, full), SetShardDonator(d, donator), SetShardRecipient(d, recipient)]
  }

  function Announced(c: Chain, info: VerifyApprovalTxInfo): bool {
    VerifiesNow(c.Drive(info.driveKey), info.tx) && info.tx !in c.verified
  }

  /** The modification's set of totals, with these opinions' totals, has one element. */
  ghost predicate SizesAgree(c: Chain, info: ApprovalTransactionInfo) {
    exists t :: c.Sizes(info.modifyTransactionHash) + Totals(info.opinions) == {t}
  }

  /** The messages a running replicator `r` gets, in order; member lists have no repetitions. */
  ghost function Outgoing(c: Chain, e: Event, r: Key): seq<Message> {
    match e
    case AddDriveEvent(d, _, _, _) =>
      var request := NewDrive(e, c.addrList).driveRequest;
      if r in request.fullReplicatorList then [AddDrive(d, request)] else []
    case AddReplicatorEvent(d, k) =>
      var di := Joined(c.Drive(d), k);
      var q := di.driveRequest;
      if r == k then JoinReplay(d, di, r)
      else if r in q.fullReplicatorList then
        Reconfigured(d, q.fullReplicatorList, Without(q.modifyDonatorShard, r), Without(q.modifyRecipientShard, r))
      else []
    case RemoveReplicatorEvent(d, k) =>
      var q := Left(c.Drive(d), k).driveRequest;
      if r == k then [RemoveDrive(d)]
      else if r in q.fullReplicatorList then
        Reconfigured(d, q.fullReplicatorList, q.modifyDonatorShard, q.modifyRecipientShard)
      else []
    case ModifyEvent(d, m) => if r in c.Members(d) then [Modify(d, m)] else []
    case CancelEvent(d, h) => if r in c.Members(d) then [CancelModify(d, h)] else []
    case StartVerificationEvent(d, v) =>
      if c.Drive(d).pendingVerification.None? && r in c.Members(d) then [StartDriveVerification(d, v)] else []
    case CancelVerificationEvent(d, tx) =>
      if VerifiesNow(c.Drive(d), tx) && r in c.Members(d) then [CancelDriveVerification(d)] else []
    case VerificationReadyEvent(info) => if Announced(c, info) then [VerifyApprovalPublished(info)] else []
    case ApprovalReadyEvent(reporter, info) =>
      var verdict := ApprovalVerdict(c.Drive(info.driveKey), info);
      if verdict.InvalidOpinions? && r == reporter then [ApprovalFailed(info.driveKey, info.modifyTransactionHash)]
      else if verdict.Accepted? && r in c.Members(info.driveKey) then [ApprovalPublished(Publish(info))]
      else []
    case SingleApprovalReadyEvent(reporter, info) =>
      if SingleApprovalVerdict(c.Drive(info.driveKey), info).Counted? && SizesAgree(c, info) && r == reporter
      then [SingleApprovalPublished(info.driveKey, info.modifyTransactionHash)] else []
    case StartEvent(_) => []
    case StopEvent(_) => []
  }

  ghost function Deliver(c: Chain, e: Event): map<Key, seq<Message>> {
    match e
    case StartEvent(k) =>
      if k in c.mail || k !in c.addrList then c.mail else c.mail[k := ReplayDrives(c.drives, c.drives.Keys, k)]
    case StopEvent(k) => c.mail - {k}
    case _ => map r | r in c.mail :: c.mail[r] + Outgoing(c, e, r)
  }

  predicate Addressed(e: Event) {
    !e.StartEvent? && !e.StopEvent?
  }

  /** `log` is what `r` has after the event, up to the way an empty suffix is written. */
  ghost predicate Told(c: Chain, e: Event, r: Key, log: seq<Message>)
    requires r in c.mail
  {
    var told := Outgoing(c, e, r);
    log == c.mail[r] + told || (told == [] && log == c.mail[r])
  }

  lemma Delivered(c: Chain, e: Event, mail: map<Key, seq<Message>>)
    requires Addressed(e) && mail.Keys == c.mail.Keys
    requires forall r :: r in mail ==> Told(c, e, r, mail[r])
    ensures mail == Deliver(c, e)
  {
    forall r | r in mail ensures mail[r] == c.mail[r] + Outgoing(c, e, r) {
      assert Told(c, e, r, mail[r]);
    }
  }

  lemma ApprovalUnanswered(c: Chain, reporter: Key, info: ApprovalTransactionInfo)
    requires var verdict := ApprovalVerdict(c.Drive(info.driveKey), info); verdict.NotFront? || verdict.UploadFault?
    ensures c.mail == Deliver(c, ApprovalReadyEvent(reporter, info))
  {
    Delivered(c, ApprovalReadyEvent(reporter, info), c.mail);
  }

  lemma SingleApprovalUnanswered(c: Chain, reporter: Key, info: ApprovalTransactionInfo)
    requires !(SingleApprovalVerdict(c.Drive(info.driveKey), info).Counted? && SizesAgree(c, info))
    ensures c.mail == Deliver(c, SingleApprovalReadyEvent(reporter, info))
  {
    Delivered(c, SingleApprovalReadyEvent(reporter, info), c.mail);
  }

  // ----- the whole step

  predicate Approves(c: Chain, e: Event) {
    e.ApprovalReadyEvent? && ApprovalVerdict(c.Drive(e.info.driveKey), e.info).Accepted?
  }

  predicate Counts(c: Chain, e: Event) {
    e.SingleApprovalReadyEvent? && SingleApprovalVerdict(c.Drive(e.info.driveKey), e.info).Counted?
  }

  function NewDrives(c: Chain, e: Event): map<Key, DriveInfo> {
    if e.Subject().Some? then c.drives[e.Subject().value := Local(c.addrList, c.Drive(e.Subject().value), e)]
    else c.drives
  }

  function NewRootHashes(c: Chain, e: Event): map<Hash, Hash> {
    if Approves(c, e) then c.rootHashes[e.info.modifyTransactionHash := e.info.rootHash] else c.rootHashes
  }

  function NewSizes(c: Chain, e: Event): map<Hash, set<nat>> {
    if Approves(c, e) || Counts(c, e)
    then c.sizes[e.info.modifyTransactionHash := c.Sizes(e.info.modifyTransactionHash) + Totals(e.info.opinions)]
    else c.sizes
  }

  function NewVerified(c: Chain, e: Event): map<Hash, VerifyApprovalTxInfo> {
    if e.VerificationReadyEvent? && Announced(c, e.verifyInfo) then c.verified[e.verifyInfo.tx := e.verifyInfo]
    else c.verified
  }

  ghost function Step(c: Chain, e: Event): Chain {
    Chain(c.addrList, NewDrives(c, e), NewRootHashes(c, e), NewSizes(c, e), NewVerified(c, e), Deliver(c, e))
  }

  /** Creating the event's own drive beforehand, as `operator[]` does, changes nothing. */
  lemma {:induction false} Touched(c: Chain, e: Event)
    requires e.ApprovalReadyEvent? || e.SingleApprovalReadyEvent?
    ensures var d := e.info.driveKey;
            var t := c.(drives := c.drives[d := c.Drive(d)]);
            Step(t, e) == Step(c, e) && (Passes(t, e) <==> Passes(c, e)) && (WellFormed(c) ==> WellFormed(t))
  {
    var d := e.info.driveKey;
    var t := c.(drives := c.drives[d := c.Drive(d)]);
    assert t.Drive(d) == c.Drive(d);
    assert t.drives[d := Local(c.addrList, c.Drive(d), e)] == c.drives[d := Local(c.addrList, c.Drive(d), e)];
    forall r | r in c.mail ensures Outgoing(t, e, r) == Outgoing(c, e, r) {
      SameOutgoing(c, t, e, r);
    }
    assert Deliver(t, e) == Deliver(c, e);
  }

  lemma SameOutgoing(c: Chain, t: Chain, e: Event, r: Key)
    requires e.ApprovalReadyEvent? || e.SingleApprovalReadyEvent?
    requires t.Drive(e.info.driveKey) == c.Drive(e.info.driveKey) && t.sizes == c.sizes
    ensures Outgoing(t, e, r) == Outgoing(c, e, r)
  {
    assert SizesAgree(t, e.info) <==> SizesAgree(c, e.info);
  }

  /** No test assertion fails while the event is handled. */
  ghost predicate Passes(c: Chain, e: Event) {
    match e
    case StartVerificationEvent(d, _) => c.Drive(d).pendingVerification.None?
    case ApprovalReadyEvent(_, info) =>
      var verdict := ApprovalVerdict(c.Drive(info.driveKey), info);
      !verdict.UploadFault? && (verdict.Accepted? ==> SizesAgree(c, info))
    case SingleApprovalReadyEvent(_, info) =>
      var verdict := SingleApprovalVerdict(c.Drive(info.driveKey), info);
      !verdict.SingleUploadFault? && !verdict.NotSingle? && (verdict.Counted? ==> SizesAgree(c, info))
    case _ => true
  }

  /** What the code takes for granted: lists without repetitions, joining only non-members, existing
      objects behind every dereference. */
  ghost predicate Defined(c: Chain, e: Event) {
    match e
    case AddDriveEvent(_, _, _, list) => Distinct(list)
    case AddReplicatorEvent(d, r) => r !in c.Members(d)
    case CancelVerificationEvent(d, tx) =>
      VerifiesNow(c.Drive(d), tx) ==> forall r :: r in c.Members(d) ==> r in c.mail
    case ApprovalReadyEvent(reporter, _) => reporter in c.mail
    case SingleApprovalReadyEvent(reporter, info) =>
      && reporter in c.mail
      && info.opinions != []
      && (info.opinions[0].replicatorKey in c.Members(info.driveKey) ==>
            c.Drive(info.driveKey).lastApprovedModification.Some?)
    case StartEvent(r) => r in c.addrList
    case _ => true
  }

  // ----- runs

  /** A freshly constructed environment: no drives, some replicators running with empty logs. */
  ghost predicate Initial(c: Chain) {
    && Distinct(c.addrList)
    && c.drives == map[] && c.rootHashes == map[] && c.sizes == map[] && c.verified == map[]
    && (forall r :: r in c.mail ==> r in c.addrList && c.mail[r] == [])
  }

  ghost function Run(c: Chain, events: seq<Event>): Chain {
    if events == [] then c else Step(Run(c, events[..|events| - 1]), events[|events| - 1])
  }

  ghost predicate DefinedRun(c: Chain, events: seq<Event>) {
    forall i :: 0 <= i < |events| ==> Defined(Run(c, events[..i]), events[i])
  }

  ghost predicate CleanRun(c: Chain, events: seq<Event>) {
    forall i :: 0 <= i < |events| ==> Passes(Run(c, events[..i]), events[i])
  }

  /** A drive key is added once, before anything else mentions it. */
  ghost predicate FreshDrives(c: Chain, events: seq<Event>) {
    forall i :: 0 <= i < |events| && events[i].AddDriveEvent? ==> events[i].d !in Run(c, events[..i]).drives
  }

  /** The lists of every drive are one and the same, without repetitions, and a recorded approval
      names the drive it is recorded for. */
  ghost predicate WellFormedDrive(d: Key, di: DriveInfo) {
    && Distinct(di.driveRequest.fullReplicatorList)
    && di.driveRequest.modifyDonatorShard == di.driveRequest.fullReplicatorList
    && di.driveRequest.modifyRecipientShard == di.driveRequest.fullReplicatorList
    && (di.lastApprovedModification.Some? ==> di.lastApprovedModification.value.driveKey == d)
  }

  ghost predicate WellFormed(c: Chain) {
    && Distinct(c.addrList)
    && (forall d :: d in c.drives ==> WellFormedDrive(d, c.drives[d]))
  }

  lemma StepWellFormed(c: Chain, e: Event)
    requires WellFormed(c) && Defined(c, e)
    ensures WellFormed(Step(c, e))
  {
    if e.Subject().Some? {
      var d := e.Subject().value;
      var di := c.Drive(d);
      assert WellFormedDrive(d, di);
      if e.RemoveReplicatorEvent? {
        WithoutDistinct(di.driveRequest.fullReplicatorList, e.replicator);
      }
      assert WellFormedDrive(d, Local(c.addrList, di, e));
    }
  }

  lemma {:induction false} RunWellFormed(c: Chain, events: seq<Event>)
    requires Initial(c) && DefinedRun(c, events)
    ensures WellFormed(Run(c, events))
  {
    if events == [] {
    } else {
      var before := events[..|events| - 1];
      PrefixRuns(c, events);
      RunWellFormed(c, before);
      StepWellFormed(Run(c, before), events[|events| - 1]);
    }
  }

  /** A run's properties hold of the run without its last event, and of its last event. */
  lemma PrefixRuns(c: Chain, events: seq<Event>)
    requires events != []
    ensures var before := events[..|events| - 1];
            && (DefinedRun(c, events) ==> DefinedRun(c, before) && Defined(Run(c, before), events[|events| - 1]))
            && (CleanRun(c, events) ==> CleanRun(c, before) && Passes(Run(c, before), events[|events| - 1]))
  {
    var before := events[..|events| - 1];
    forall i | 0 <= i < |before| ensures before[..i] == events[..i] {}
    if DefinedRun(c, events) {
      forall i | 0 <= i < |before| ensures Defined(Run(c, before[..i]), before[i]) {
        assert before[..i] == events[..i];
      }
    }
    if CleanRun(c, events) {
      forall i | 0 <= i < |before| ensures Passes(Run(c, before[..i]), before[i]) {
        assert before[..i] == events[..i];
      }
    }
  }

  lemma FreshDrivesPrefix(c: Chain, events: seq<Event>)
    requires FreshDrives(c, events) && events != []
    ensures FreshDrives(c, events[..|events| - 1])
    ensures var e := events[|events| - 1]; e.AddDriveEvent? ==> e.d !in Run(c, events[..|events| - 1]).drives
  {
    var earlier := events[..|events| - 1];
    forall i | 0 <= i < |earlier| && earlier[i].AddDriveEvent? ensures earlier[i].d !in Run(c, earlier[..i]).drives {
      assert earlier[..i] == events[..i] && events[i].AddDriveEvent?;
    }
  }
}
