/** The environments that keep one replicator behind: its notifications of modifications,
    cancellations and approvals are posted to a queue and delivered later, in order. */
module Offline {
  import opened Basics
  import opened Protocol
  import opened Chain
  import opened Environment

  datatype Deferring = Deferring(chain: Chain, deferred: seq<Message>)

  /** A handler call, or the offline thread running the next posted notification. */
  datatype Action = Handle(e: Event) | DeliverNext

  ghost predicate AllRun(c: Chain) {
    c.addrList != [] && Distinct(c.addrList) && forall r :: r in c.mail <==> r in c.addrList
  }

  function Last(c: Chain): Key
    requires c.addrList != []
  {
    c.addrList[|c.addrList| - 1]
  }

  // ----- steps

  /** The report is about the queue's front and not about the modification that is filtered out. */
  predicate Considered(s: Deferring, cancelled: Option<Hash>, info: ApprovalTransactionInfo) {
    cancelled != Some(info.modifyTransactionHash) && Fronted(s.chain.Drive(info.driveKey), info.modifyTransactionHash)
  }

  function WithSizes(c: Chain, info: ApprovalTransactionInfo): Chain {
    c.(sizes := c.sizes[info.modifyTransactionHash := c.Sizes(info.modifyTransactionHash) + Totals(info.opinions)])
  }

  /** Pops the front and records the approval; the expected download is left as it was. */
  function PopFront(di: DriveInfo, info: ApprovalTransactionInfo): DriveInfo
    requires di.pendingModifications != []
  {
    di.(pendingModifications := di.pendingModifications[1..], lastApprovedModification := Some(info))
  }

  function Erased(di: DriveInfo, h: Hash): DriveInfo {
    di.(pendingModifications := EraseHash(di.pendingModifications, h))
  }

  function Enqueued(di: DriveInfo, m: ModificationRequest): DriveInfo {
    di.(pendingModifications := di.pendingModifications + [m])
  }

  function WithDrive(c: Chain, d: Key, di: DriveInfo): Chain {
    c.(drives := c.drives[d := di])
  }

  /** The totals are recorded, the front is popped and the root hash is known. */
  function PoppedChain(c: Chain, info: ApprovalTransactionInfo): Chain
    requires c.Drive(info.driveKey).pendingModifications != []
  {
    WithDrive(WithSizes(c, info), info.driveKey, PopFront(c.Drive(info.driveKey), info)).(
      rootHashes := c.rootHashes[info.modifyTransactionHash := info.rootHash])
  }

  function ToOnline(c: Chain, m: Message): map<Key, seq<Message>>
    requires c.addrList != []
  {
    map r | r in c.mail :: c.mail[r] + (if r == Last(c) then [] else [m])
  }

  /** All but the last replicator get the message now; the last gets it from the queue. */
  function Post(c: Chain, deferred: seq<Message>, m: Message): Deferring
    requires c.addrList != []
  {
    Deferring(c.(mail := ToOnline(c, m)), deferred + [m])
  }

  function PostTo(c: Chain, deferred: seq<Message>, r: Key, m: Message): Deferring
    requires c.addrList != [] && r in c.mail
  {
    if r == Last(c) then Deferring(c, deferred + [m]) else Deferring(c.(mail := c.mail[r := c.mail[r] + [m]]), deferred)
  }

  ghost predicate Countable(s: Deferring, info: ApprovalTransactionInfo) {
    var approval := s.chain.Drive(info.driveKey).lastApprovedModification;
    approval.Some? && approval.value.modifyTransactionHash == info.modifyTransactionHash && |info.opinions| == 1
  }

  /** The code reads a queue front and a last approval without testing that they are there, and calls
      every replicator without testing that it runs. */
  ghost predicate OfflineDefined(s: Deferring, cancelled: Option<Hash>, a: Action) {
    AllRun(s.chain) &&
    match a
    case DeliverNext => true
    case Handle(AddDriveEvent(_, _, _, list)) => Distinct(list)
    case Handle(StartVerificationEvent(_, _)) => true
    case Handle(CancelVerificationEvent(d, tx)) => Defined(s.chain, CancelVerificationEvent(d, tx))
    case Handle(VerificationReadyEvent(_)) => true
    case Handle(ModifyEvent(_, _)) => true
    case Handle(CancelEvent(_, _)) => true
    case Handle(ApprovalReadyEvent(r, info)) =>
      r in s.chain.mail && (cancelled == Some(info.modifyTransactionHash)
                            || s.chain.Drive(info.driveKey).pendingModifications != [])
    case Handle(SingleApprovalReadyEvent(r, info)) =>
      r in s.chain.mail && s.chain.Drive(info.driveKey).lastApprovedModification.Some?
    case _ => false
  }

  ghost function OfflineStep(s: Deferring, cancelled: Option<Hash>, a: Action): Deferring
    requires OfflineDefined(s, cancelled, a)
  {
    var c := s.chain;
    match a
    case DeliverNext =>
      if s.deferred == [] then s
      else Deferring(c.(mail := c.mail[Last(c) := c.mail[Last(c)] + [s.deferred[0]]]), s.deferred[1..])
    case Handle(e) =>
      match e
      case ModifyEvent(d, m) => Post(WithDrive(c, d, Enqueued(c.Drive(d), m)), s.deferred, Modify(d, m))
      case CancelEvent(d, h) => Post(WithDrive(c, d, Erased(c.Drive(d), h)), s.deferred, CancelModify(d, h))
      case ApprovalReadyEvent(_, info) =>
        if !Considered(s, cancelled, info) then s
        else if !SizesAgree(c, info) then Deferring(WithSizes(c, info), s.deferred)
        else Post(PoppedChain(c, info), s.deferred, ApprovalPublished(Publish(info)))
      case SingleApprovalReadyEvent(r, info) =>
        if !Countable(s, info) then s
        else if !SizesAgree(c, info) then Deferring(WithSizes(c, info), s.deferred)
        else PostTo(WithSizes(c, info), s.deferred, r,
                    SingleApprovalPublished(info.driveKey, info.modifyTransactionHash))
      case _ => s.(chain := Step(c, e))
  }

  /** No assertion fails in the handler. */
  ghost predicate OfflinePasses(s: Deferring, cancelled: Option<Hash>, e: Event) {
    match e
    case ApprovalReadyEvent(_, info) => Considered(s, cancelled, info) ==> SizesAgree(s.chain, info)
    case SingleApprovalReadyEvent(_, info) =>
      var approval := s.chain.Drive(info.driveKey).lastApprovedModification;
      approval.Some? && approval.value.modifyTransactionHash == info.modifyTransactionHash ==>
        |info.opinions| == 1 && SizesAgree(s.chain, info)
    case StartVerificationEvent(_, _) => Passes(s.chain, e)
    case _ => true
  }

  // ----- the object

  class OfflineLedger {
    const ledger: Ledger
    var cancelledModification: Option<Hash>
    var deferred: seq<Message>

    ghost function State(): Deferring
      reads this, ledger
    {
      Deferring(ledger.State(), deferred)
    }

    ghost predicate Valid()
      reads this, ledger
    {
      ledger.Valid() && AllRun(ledger.State())
    }

    constructor (ledger: Ledger, cancelled: Option<Hash>)
      requires ledger.Valid() && AllRun(ledger.State())
      ensures Valid() && this.ledger == ledger && deferred == [] && cancelledModification == cancelled
    {
      this.ledger := ledger;
      cancelledModification := cancelled;
      deferred := [];
    }

    method AddDrive(driveKey: Key, client: Key, driveSize: nat, replicators: seq<Key>)
      requires Valid() && Distinct(replicators)
      modifies this, ledger
      ensures Valid() && cancelledModification == old(cancelledModification)
      ensures State() == OfflineStep(old(State()), old(cancelledModification),
                                     Handle(AddDriveEvent(driveKey, client, driveSize, replicators)))
    {
      ledger.AddDrive(driveKey, client, driveSize, replicators);
    }

    /** The handlers of verifications are inherited: they reach the last replicator at once. */
    method StartVerification(driveKey: Key, request: VerificationRequest) returns (passed: bool)
      requires Valid()
      modifies this, ledger
      ensures Valid() && cancelledModification == old(cancelledModification)
      ensures State() == OfflineStep(old(State()), old(cancelledModification),
                                     Handle(StartVerificationEvent(driveKey, request)))
      ensures passed
              == OfflinePasses(old(State()), old(cancelledModification), StartVerificationEvent(driveKey, request))
    {
      passed := ledger.StartVerification(driveKey, request);
    }

    method CancelVerification(driveKey: Key, tx: Hash)
      requires Valid() && OfflineDefined(State(), cancelledModification, Handle(CancelVerificationEvent(driveKey, tx)))
      modifies this, ledger
      ensures Valid() && cancelledModification == old(cancelledModification)
      ensures State() == OfflineStep(old(State()), old(cancelledModification),
                                     Handle(CancelVerificationEvent(driveKey, tx)))
    {
      ledger.CancelVerification(driveKey, tx);
    }

    method VerificationTransactionIsReady(info: VerifyApprovalTxInfo)
      requires Valid()
      modifies this, ledger
      ensures Valid() && cancelledModification == old(cancelledModification)
      ensures State() == OfflineStep(old(State()), old(cancelledModification), Handle(VerificationReadyEvent(info)))
    {
      ledger.VerificationTransactionIsReady(info);
    }

    /** The loop over all replicator slots but the last. */
    method SendToOnline(m: Message)
      requires ledger.SlotsMatch() && AllRun(ledger.State())
      modifies ledger`mail
      ensures ledger.SlotsMatch() && ledger.mail == ToOnline(old(ledger.State()), m)
    {
      var keys := ledger.keys;
      var n := |keys| - 1;
      ghost var mail := ledger.mail;
      for i := 0 to n
        modifies ledger`mail
        invariant ledger.SlotsMatch() && ledger.mail.Keys == mail.Keys
        invariant forall r :: r in mail ==> ledger.mail[r] == mail[r] + (if r in keys[..i] then [m] else [])
      {
        assert keys[..i + 1] == keys[..i] + [keys[i]];
        assert keys[i] !in keys[..i];
        ledger.Send(keys[i], m);
      }
      AllButLast(keys);
    }

    static lemma AllButLast(keys: seq<Key>)
      requires keys != [] && Distinct(keys)
      ensures var n := |keys| - 1; forall r :: r in keys ==> (r in keys[..n] <==> r != keys[n])
    {
      var n := |keys| - 1;
      assert keys == keys[..n] + [keys[n]];
    }

    /** Calls all the others and posts the call for the last. */
    method PostToAll(m: Message)
      requires Valid()
      modifies this`deferred, ledger`mail
      ensures Valid() && State() == Post(old(ledger.State()), old(deferred), m)
    {
      SendToOnline(m);
      deferred := deferred + [m];
    }

    method ModifyDrive(driveKey: Key, request: ModificationRequest)
      requires Valid()
      modifies this, ledger
      ensures Valid() && cancelledModification == old(cancelledModification)
      ensures State() == OfflineStep(old(State()), old(cancelledModification), Handle(ModifyEvent(driveKey, request)))
    {
      ledger.Touch(driveKey);
      var drive := ledger.drives[driveKey];
      ledger.drives := ledger.drives[driveKey :=
        drive.(pendingModifications := drive.pendingModifications + [request])];
      assert ledger.drives == old(ledger.drives)[driveKey := Enqueued(old(ledger.State()).Drive(driveKey), request)];
      PostToAll(Modify(driveKey, request));
    }

    /** Unlike the handler it overrides, this one does not list the cancelled modification as completed. */
    method CancelModification(driveKey: Key, transactionHash: Hash)
      requires Valid()
      modifies this, ledger
      ensures Valid() && cancelledModification == old(cancelledModification)
      ensures State()
              == OfflineStep(old(State()), old(cancelledModification), Handle(CancelEvent(driveKey, transactionHash)))
    {
      ledger.Touch(driveKey);
      var drive := ledger.drives[driveKey];
      ledger.drives := ledger.drives[driveKey :=
        drive.(pendingModifications := EraseHash(drive.pendingModifications, transactionHash))];
      assert ledger.drives
        == old(ledger.drives)[driveKey := Erased(old(ledger.State()).Drive(driveKey), transactionHash)];
      PostToAll(CancelModify(driveKey, transactionHash));
    }

    method ModifyApprovalTransactionIsReady(reporter: Key, info: ApprovalTransactionInfo) returns (passed: bool)
      requires Valid() && OfflineDefined(State(), cancelledModification, Handle(ApprovalReadyEvent(reporter, info)))
      modifies this, ledger
      ensures Valid() && cancelledModification == old(cancelledModification)
      ensures State()
              == OfflineStep(old(State()), old(cancelledModification), Handle(ApprovalReadyEvent(reporter, info)))
      ensures passed == OfflinePasses(old(State()), old(cancelledModification), ApprovalReadyEvent(reporter, info))
    {
      var d, h := info.driveKey, info.modifyTransactionHash;
      if cancelledModification == Some(h) {
        return true;
      }
      if ledger.drives[d].pendingModifications[0].transactionHash != h {
        return true;
      }
      passed := ledger.RecordSizesOf(h, info.opinions);
      if passed {
        ghost var c := old(ledger.State());
        assert c.Drive(d) == ledger.drives[d];
        PopAndPost(info);
        assert ledger.State().rootHashes == PoppedChain(c, info).rootHashes;
      }
    }

    /** The part of the approval handler after the assertion. */
    method PopAndPost(info: ApprovalTransactionInfo)
      requires Valid() && info.driveKey in ledger.drives
      requires ledger.drives[info.driveKey].pendingModifications != []
      modifies this, ledger
      ensures Valid() && cancelledModification == old(cancelledModification)
      ensures var c := old(ledger.State());
              var popped := WithDrive(c, info.driveKey, PopFront(c.Drive(info.driveKey), info));
              State() == Post(popped.(rootHashes := c.rootHashes[info.modifyTransactionHash := info.rootHash]),
                              old(deferred), ApprovalPublished(Publish(info)))
    {
      var d, drive := info.driveKey, ledger.drives[info.driveKey];
      assert WellFormedDrive(d, drive);
      ledger.drives := ledger.drives[d := drive.(pendingModifications := drive.pendingModifications[1..],
                                                 lastApprovedModification := Some(info))];
      ledger.rootHashes := ledger.rootHashes[info.modifyTransactionHash := info.rootHash];
      PostToAll(ApprovalPublished(Publish(info)));
    }

    method SingleModifyApprovalTransactionIsReady(reporter: Key, info: ApprovalTransactionInfo) returns (passed: bool)
      requires Valid()
               && OfflineDefined(State(), cancelledModification, Handle(SingleApprovalReadyEvent(reporter, info)))
      modifies this, ledger
      ensures Valid() && cancelledModification == old(cancelledModification)
      ensures State()
              == OfflineStep(old(State()), old(cancelledModification), Handle(SingleApprovalReadyEvent(reporter, info)))
      ensures passed
              == OfflinePasses(old(State()), old(cancelledModification), SingleApprovalReadyEvent(reporter, info))
    {
      var d, h := info.driveKey, info.modifyTransactionHash;
      if h != ledger.drives[d].lastApprovedModification.value.modifyTransactionHash {
        return true;
      }
      if |info.opinions| != 1 {
        return false;
      }
      passed := ledger.RecordSizesOf(h, info.opinions);
      if passed {
        PostToOne(reporter, SingleApprovalPublished(d, h));
      }
    }

    /** Calls the replicator, or posts the call if it is the last. */
    method PostToOne(r: Key, m: Message)
      requires Valid() && r in ledger.mail
      modifies this`deferred, ledger`mail
      ensures Valid() && State() == PostTo(old(ledger.State()), old(deferred), r, m)
      ensures if r == ledger.keys[|ledger.keys| - 1]
              then ledger.mail == old(ledger.mail) && deferred == old(deferred) + [m]
              else ledger.mail == old(ledger.mail)[r := old(ledger.mail)[r] + [m]] && deferred == old(deferred)
    {
      if r != ledger.keys[|ledger.keys| - 1] {
        ledger.Send(r, m);
      } else {
        deferred := deferred + [m];
      }
    }

    method RunOne()
      requires Valid()
      modifies this, ledger
      ensures Valid() && cancelledModification == old(cancelledModification)
      ensures State() == OfflineStep(old(State()), old(cancelledModification), DeliverNext)
    {
      if deferred != [] {
        ledger.Send(ledger.keys[|ledger.keys| - 1], deferred[0]);
        deferred := deferred[1..];
      }
    }

    /** `runBack` with nothing else happening: everything posted is delivered in order. */
    method RunBack()
      requires Valid()
      modifies this, ledger
      ensures Valid() && deferred == [] && cancelledModification == old(cancelledModification)
      ensures ledger.State() == old(ledger.State()).(mail := old(ledger.mail)[Last(old(ledger.State())) :=
                old(ledger.mail)[Last(old(ledger.State()))] + old(deferred)])
    {
      ghost var last := Last(ledger.State());
      while deferred != []
        invariant Valid() && cancelledModification == old(cancelledModification)
        invariant ledger.State() == old(ledger.State()).(mail := old(ledger.mail)[last := ledger.mail[last]])
        invariant ledger.mail[last] + deferred == old(ledger.mail)[last] + old(deferred)
        decreases |deferred|
      {
        assert deferred == [deferred[0]] + deferred[1..];
        Associative(ledger.mail[last], [deferred[0]], deferred[1..]);
        RunOne();
      }
      assert ledger.mail[last] + [] == ledger.mail[last];
    }
  }
}
