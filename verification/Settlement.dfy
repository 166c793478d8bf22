/** An approved claim is paid back exactly once, and the money adds up. */
module Settlement {
  import opened Prelude
  import opened Money
  import opened Tables
  import opened Totals
  import opened Books
  import opened Invariants

  ghost predicate PaidBack(b: Books, c: ClaimId) {
    c in b.claims && b.claims[c].reimbursedAt.Some?
  }

  /** The claims a request pays when it is done: those in what it marks paid. */
  ghost function PaidBy(b: Books, e: Event): set<ClaimId> {
    match e
    case MarksRunPaid(run, _) => set c | c in b.claims && b.claims[c].run == Some(run)
    case MarksBatchPaid(batch, _) => set c | c in b.claims && b.claims[c].batch == Some(batch)
    case _ => {}
  }

  ghost predicate Pays(b: Books, e: Event, c: ClaimId) {
    Call(b, e).Done? && c in PaidBy(b, e)
  }

  /** What a step that pays `paid` may do to one claim. */
  ghost predicate ClaimMoves(b: Books, after: Books, paid: set<ClaimId>, c: ClaimId) {
    && (PaidBack(after, c) <==> PaidBack(b, c) || c in paid)
    && (PaidBack(b, c) ==> c !in paid && after.claims[c] == b.claims[c])
    && (c in b.claims && b.claims[c].state != Submitted ==>
          && c in after.claims
          && var now := after.claims[c];
             now == b.claims[c].(batch := now.batch, run := now.run, reimbursedAt := now.reimbursedAt))
  }

  ghost predicate ClaimsMove(b: Books, answer: Answer, paid: set<ClaimId>) {
    answer.Done? ==> forall c :: ClaimMoves(b, answer.books, paid, c)
  }

  lemma PaidInPaid(b: Books, c: ClaimId)
    requires Valid(b) && PaidBack(b, c)
    ensures var claim := b.claims[c];
            && claim.state == Accepted && !Free(claim) && ContainerState(b, claim) == Some(Paid)
            && (claim.batch.Some? ==> claim.batch.value in b.batches && b.batches[claim.batch.value].state == Paid)
            && (claim.run.Some? ==> claim.run.value in b.runs && b.runs[claim.run.value].state == Paid)
  {
    var claim := b.claims[c];
    assert ClaimKept(b, claim);
    if claim.batch.Some? {
      assert BatchKept(b, claim.batch.value);
    } else {
      var r := claim.run.value;
      assert b.runs[r].paidAt.Some? <==> b.runs[r].state == Paid;
    }
  }

  lemma OwnClaimMoves(b: Books, e: Event)
    requires Valid(b) && Admissible(b, e)
    requires OnClaim(e)
    ensures ClaimsMove(b, Call(b, e), {})
  {
  }

  lemma IntoMoves(b: Books, e: Event)
    requires Valid(b) && (e.CreatesBatch? || e.Carries?)
    ensures ClaimsMove(b, Call(b, e), {})
  {
  }

  lemma OutMoves(b: Books, e: Event)
    requires Valid(b) && (e.DeletesBatch? || e.DeletesRun? || e.Releases?)
    ensures ClaimsMove(b, Call(b, e), {})
  {
    if Call(b, e).Done? {
      var after := Call(b, e).books;
      forall c ensures ClaimMoves(b, after, {}, c) {
        if PaidBack(b, c) { PaidInPaid(b, c); }
      }
    }
  }

  lemma PaymentMoves(b: Books, e: Event)
    requires Valid(b) && (e.MarksRunPaid? || e.MarksBatchPaid?)
    ensures ClaimsMove(b, Call(b, e), PaidBy(b, e))
  {
  }

  lemma OthersMove(b: Books, e: Event)
    requires OnDirectory(e) || OnRunOnly(e) || e.ApprovesBatch?
    ensures ClaimsMove(b, Call(b, e), {})
  {
    var answer := Call(b, e);
    if answer.Done? {
      if OnDirectory(e) {
        DirectoryFrame(b, e);
      } else if OnRunOnly(e) {
        RunFrame(b, e);
      } else {
        SettlementFrame(b, e);
      }
      SameClaimsMove(b, answer.books);
    }
  }

  lemma SameClaimsMove(b: Books, after: Books)
    requires after.claims == b.claims
    ensures forall c :: ClaimMoves(b, after, {}, c)
  {
  }

  /** What every request does to every claim. */
  lemma StepMoves(b: Books, e: Event)
    requires Valid(b) && Admissible(b, e)
    ensures ClaimsMove(b, Call(b, e), PaidBy(b, e))
  {
    if OnClaim(e) {
      OwnClaimMoves(b, e);
    } else if e.CreatesBatch? || e.Carries? {
      IntoMoves(b, e);
    } else if e.DeletesBatch? || e.DeletesRun? || e.Releases? {
      OutMoves(b, e);
    } else if e.MarksRunPaid? || e.MarksBatchPaid? {
      PaymentMoves(b, e);
    } else {
      OthersMove(b, e);
    }
  }

  /** A claim paid back never changes again and is not paid again; and the one
    * way to be paid back is to be paid. */
  lemma PaidBackStays(b: Books, e: Event, c: ClaimId)
    requires Valid(b) && Admissible(b, e)
    ensures PaidBack(Next(b, e), c) <==> PaidBack(b, c) || Pays(b, e, c)
    ensures PaidBack(b, c) ==> !Pays(b, e, c) && Next(b, e).claims[c] == b.claims[c]
  {
    StepMoves(b, e);
    var answer := Call(b, e);
    if answer.Done? { assert ClaimMoves(b, answer.books, PaidBy(b, e), c); }
  }

  /** A decided claim keeps its submitter, money, day, decision and department;
    * only where and when it is paid back can still change. */
  lemma DecidedIsFrozen(b: Books, e: Event, c: ClaimId)
    requires Valid(b) && Admissible(b, e) && c in b.claims && b.claims[c].state != Submitted
    ensures c in Next(b, e).claims
    ensures var now := Next(b, e).claims[c];
            now == b.claims[c].(batch := now.batch, run := now.run, reimbursedAt := now.reimbursedAt)
  {
    StepMoves(b, e);
    var answer := Call(b, e);
    if answer.Done? { assert ClaimMoves(b, answer.books, PaidBy(b, e), c); }
  }

  /** How often a run of requests pays a claim. */
  ghost function Payments(b: Books, events: seq<Event>, c: ClaimId): nat
    decreases |events|
  {
    if events == [] then 0
    else (if Pays(b, events[0], c) then 1 else 0) + Payments(Next(b, events[0]), events[1..], c)
  }

  /** Over any run of requests a claim is paid at most once, ends up paid back
    * exactly when it was, and from then on is the same row for ever. */
  lemma {:induction false} PaidAtMostOnce(b: Books, events: seq<Event>, c: ClaimId)
    requires Valid(b) && AllAdmissible(b, events)
    ensures Payments(b, events, c) <= (if PaidBack(b, c) then 0 else 1)
    ensures PaidBack(After(b, events), c) <==> PaidBack(b, c) || Payments(b, events, c) == 1
    ensures PaidBack(b, c) ==> c in After(b, events).claims && After(b, events).claims[c] == b.claims[c]
    decreases |events|
  {
    if events != [] {
      var e := events[0];
      PaidBackStays(b, e, c);
      StepKeepsValid(b, e);
      PaidAtMostOnce(Next(b, e), events[1..], c);
    }
  }

  // --- Conservation -----------------------------------------------------------------------

  datatype Container = InBatch(batch: BatchId) | OnPayroll(run: RunId)

  ghost predicate GoesOutIn(claim: Claim, x: Container) {
    match x
    case InBatch(batch) => claim.batch == Some(batch)
    case OnPayroll(run) => claim.run == Some(run)
  }

  /** Every batch and run marked paid. */
  ghost function PaidContainers(b: Books): set<Container> {
    (set batch | batch in b.batches && b.batches[batch].state == Paid :: InBatch(batch))
    + (set run | run in b.runs && b.runs[run].state == Paid :: OnPayroll(run))
  }

  ghost function Content(b: Books, x: Container, currency: Currency): map<ClaimId, int> {
    map c | c in b.claims && GoesOutIn(b.claims[c], x) && b.claims[c].currency == currency :: b.claims[c].amount
  }

  ghost function Reimbursed(b: Books, currency: Currency): map<ClaimId, int> {
    map c | c in b.claims && b.claims[c].reimbursedAt.Some? && b.claims[c].currency == currency :: b.claims[c].amount
  }

  /** A batch if the claim is in one, else the run it is on. */
  ghost function ContainerOf(claim: Claim): Container
    requires !Free(claim)
  {
    if claim.batch.Some? then InBatch(claim.batch.value) else OnPayroll(claim.run.value)
  }

  lemma PaidContentIsReimbursed(b: Books, x: Container, c: ClaimId)
    requires Valid(b) && x in PaidContainers(b) && c in b.claims && GoesOutIn(b.claims[c], x)
    ensures PaidBack(b, c)
  {
  }

  /** A claim goes out in a paid container exactly when it is paid back, and in one only. */
  lemma InContainer(b: Books, x: Container, c: ClaimId)
    requires Valid(b) && c in b.claims
    ensures PaidBack(b, c) ==> !Free(b.claims[c]) && ContainerOf(b.claims[c]) in PaidContainers(b)
    ensures x in PaidContainers(b) ==>
              (GoesOutIn(b.claims[c], x) <==> PaidBack(b, c) && ContainerOf(b.claims[c]) == x)
  {
    assert ClaimKept(b, b.claims[c]);
    if PaidBack(b, c) { PaidInPaid(b, c); }
    if x in PaidContainers(b) && GoesOutIn(b.claims[c], x) { PaidContentIsReimbursed(b, x, c); }
  }

  ghost function ContainersOf(b: Books, currency: Currency): (key: map<ClaimId, Container>)
    requires forall c | c in Reimbursed(b, currency) :: !Free(b.claims[c])
    ensures key.Keys == Reimbursed(b, currency).Keys
  {
    map c | c in Reimbursed(b, currency) :: ContainerOf(b.claims[c])
  }

  /** What each paid batch and run paid back, in one currency. */
  ghost function PaidContents(b: Books, currency: Currency): map<Container, map<ClaimId, int>> {
    map x | x in PaidContainers(b) :: Content(b, x, currency)
  }

  ghost predicate Settles(b: Books, x: Container, c: ClaimId)
    requires c in b.claims
  {
    PaidBack(b, c) && !Free(b.claims[c]) && ContainerOf(b.claims[c]) == x
  }

  lemma PaidContentIsFibre(b: Books, currency: Currency, x: Container)
    requires forall c | c in Reimbursed(b, currency) :: !Free(b.claims[c])
    requires forall c | c in b.claims :: GoesOutIn(b.claims[c], x) <==> Settles(b, x, c)
    ensures Content(b, x, currency).Keys == Fibre(Reimbursed(b, currency).Keys, ContainersOf(b, currency), x)
    ensures forall c | c in Content(b, x, currency) :: Content(b, x, currency)[c] == Reimbursed(b, currency)[c]
  {
    var m, key := Reimbursed(b, currency), ContainersOf(b, currency);
    forall c ensures c in Content(b, x, currency) <==> c in Fibre(m.Keys, key, x) {
      if c in b.claims { assert GoesOutIn(b.claims[c], x) <==> Settles(b, x, c); }
    }
  }

  lemma ReimbursedHasContainer(b: Books, currency: Currency)
    requires Valid(b)
    ensures forall c | c in Reimbursed(b, currency) ::
              !Free(b.claims[c]) && ContainerOf(b.claims[c]) in PaidContainers(b)
  {
  }

  /** Per currency, the claims paid back sum to the totals of the paid batches
    * plus what the paid runs carried: nothing twice, nothing lost. */
  lemma ReimbursedAddsUp(b: Books, currency: Currency)
    requires Valid(b)
    ensures Total(Reimbursed(b, currency)) == Total(EachTotal(PaidContents(b, currency)))
  {
    ReimbursedHasContainer(b, currency);
    var m, key, contents := Reimbursed(b, currency), ContainersOf(b, currency), PaidContents(b, currency);
    forall x | x in contents
      ensures contents[x].Keys == Fibre(m.Keys, key, x)
      ensures forall c | c in contents[x] :: contents[x][c] == m[c]
    {
      forall c | c in b.claims ensures GoesOutIn(b.claims[c], x) <==> Settles(b, x, c) { InContainer(b, x, c); }
      PaidContentIsFibre(b, currency, x);
    }
    assert forall c | c in m :: key[c] in contents;
    PartsAddUp(m, key, contents);
  }
}
