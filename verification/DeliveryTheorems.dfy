/** Across both services: the books balance in every run, and a delivered command is always settled. */
module DeliveryTheorems {
  import opened Keys
  import opened Errands
  import opened StateMachine
  import opened Wallets
  import opened StoreModel
  import opened Lifecycle
  import opened CreditParts
  import opened Composite
  import opened CompositeInv
  import opened CompositeCredit
  import opened CompositeProofs
  import opened Economy
  import opened CreditAnswers
  import opened Theorems
  import Saga

  lemma StepKeepsBooks(w: World, s: Step)
    requires Books(w.credit)
    ensures Books(Do(w, s).credit)
  {
    hide Books, DoSubmit, DoDecide, DoWrite, Process, CreateWallet, KeyOf, RejectionKey, FirstStage, StageAfterRead,
         MessageOf, ResultEvent;
    match s
    case OpenWallet(owner, subject) => CreateKeepsBooks(w.credit, owner, subject);
    case DeliverCommand(m) => ProcessKeepsBooks(w.credit, m.id, m.cmd);
    case _ => CreditOnlyChangesByMessages(w, s);
  }

  lemma CreditOnlyChangesByMessages(w: World, s: Step)
    requires !s.OpenWallet? && !s.DeliverCommand?
    ensures Do(w, s).credit == w.credit
  {
    hide Next, KeyOf, RejectionKey, FirstStage, StageAfterRead, MessageOf, ResultEvent, Apply, Create, Fresh;
  }

  lemma {:induction false} BooksInSystemRuns(initialCredit: nat, steps: seq<Step>)
    ensures Books(Run(initialCredit, steps).credit)
  {
    hide Books, Do;
    if steps == [] {
      EmptyBooks(initialCredit);
    } else {
      BooksInSystemRuns(initialCredit, steps[..|steps| - 1]);
      StepKeepsBooks(Run(initialCredit, steps[..|steps| - 1]), steps[|steps| - 1]);
    }
  }

  // ---------------------------------------------------------------- delivered commands settle

  /** The subjects a command names are ones credit-service accepts. */
  predicate SubjectsOk(cmd: Command) {
    SubjectOk(cmd.requester) && (cmd.TransferCommand? ==> SubjectOk(cmd.courier))
  }

  /** What a transfer of a stored errand gets: it is paid once, or as soon as its courier has a wallet and the
      reservation and the requester's available credits together cover the amount. */
  ghost predicate TransferSettles(c: Credit, cmd: Command, result: Result)
    requires cmd.TransferCommand?
  {
    && cmd.order in c.reservations && cmd.requester in c.wallets
    && var res := c.reservations[cmd.order];
    && result == if res.status == Transferred then TransferredResult
                 else if cmd.courier !in c.wallets then OperationFailedResult(AccountNotFound)
                 else if cmd.amount <= res.amount + c.wallets[cmd.requester].available then TransferredResult
                 else OperationFailedResult(InsufficientCredits)
  }

  /** A result of the command's kind; only a transfer may fail. */
  ghost predicate ResultFits(c: Credit, cmd: Command, result: Result) {
    && (result.OperationFailedResult? ==> cmd.TransferCommand?)
    && (cmd.TransferCommand? ==> TransferSettles(c, cmd, result))
  }

  ghost predicate SettlesWell(c: Credit, message: string, cmd: Command) {
    var r := Execute(c, message, cmd);
    r.Settled? && ResultFits(c, cmd, r.result)
  }

  lemma RowCommandOk(e: Errand, x: Slot, row: OutboxRow)
    requires Saga.RowOk(e, x, row) && IsUuid(e.id) && e.courierId != e.requesterId
    ensures row.kind.Credit() && row.payload.CommandPayload?
    ensures SubjectsOk(Saga.ToCommand(row)) ==> CommandOk(Saga.ToCommand(row))
    ensures Saga.ToCommand(row).version >= 1
    ensures Saga.ToCommand(row).requester == e.requesterId
  {
    LowerUuid(e.id);
    hide KeyOf, SubjectOk, MatchesUuid, Lower, IsUuid;
  }

  /** What the saga rules out: a release of paid credits, and a transfer of nothing or of released credits. */
  lemma CommandsFindTheirState(s: Saga.State, x: Slot)
    requires x in s.rows
    requires Saga.Inv(s)
    ensures s.res.Some? ==> s.res.value.wallet == s.e.requesterId
    ensures x.op == Release ==> !(s.res.Some? && s.res.value.status == Transferred)
    ensures x.op == Transfer ==> s.res.Some? && s.res.value.status != Released
    ensures x.op == Transfer ==> (x in s.done <==> s.res.value.status == Transferred)
    ensures x.op == Transfer && x in s.done ==> s.done[x] == TransferredResult
  {
    hide KeyOf, Saga.BaseInv, Saga.DroppedInv, Saga.SeqInv, Saga.LedgerInv, Saga.StatusInv;
    assert Saga.RowOk(s.e, x, s.rows[x]);
  }

  lemma JudgedWell(c: Credit, s: Saga.State, x: Slot)
    requires x in s.rows && Saga.RowOk(s.e, x, s.rows[x]) && IsUuid(s.e.id) && s.e.courierId != s.e.requesterId
    requires Shows(s, c)
    requires s.res.Some? ==> s.res.value.wallet == s.e.requesterId
    requires x.op == Release ==> !(s.res.Some? && s.res.value.status == Transferred)
    requires x.op == Transfer ==> s.res.Some? && s.res.value.status == Active
    requires s.rows[x].kind.Credit() && CommandOk(Saga.ToCommand(s.rows[x]))
    requires Books(c)
    ensures var cmd := Saga.ToCommand(s.rows[x]);
      var j := Judge(c, cmd);
      j.Settled? && ResultFits(c, cmd, j.result)
  {
    hide Books, KeyOf, EntriesOf, CanInsert, SubjectOk, MatchesUuid, Judge;
    LowerUuid(s.e.id);
    hide Lower, IsUuid;
    OwnerKnown(c, s.e.id);
    JudgeGives(c, s.e.id, Saga.ToCommand(s.rows[x]));
  }

  /** Every published command whose subjects and key length credit-service accepts settles on delivery, whatever was
      delivered before it. */
  ghost predicate CommandsSettle(w: World) {
    forall m :: m in w.wire && SubjectsOk(m.cmd) && |m.id| <= MAX_MESSAGE_ID_LENGTH ==>
      SettlesWell(w.credit, m.id, m.cmd)
  }

  lemma ExecuteWell(c: Credit, message: string, cmd: Command)
    requires CommandOk(cmd) && 0 < |message| <= MAX_MESSAGE_ID_LENGTH && cmd.version >= 1
    requires message in c.processed ==> ResultFits(c, cmd, c.processed[message])
    requires message !in c.processed ==> Judge(c, cmd).Settled? && ResultFits(c, cmd, Judge(c, cmd).result)
    ensures SettlesWell(c, message, cmd)
  {
    hide Judge, CommandOk, ResultFits;
  }

  lemma RememberedFits(c: Credit, s: Saga.State, x: Slot)
    requires x in s.rows && x in s.done && Saga.RowOk(s.e, x, s.rows[x]) && Shows(s, c)
    requires s.res.Some? ==> s.res.value.wallet == s.e.requesterId
    requires Saga.AnswerFits(x.op, s.done[x])
    requires x.op == Transfer ==> s.res.Some? && s.res.value.status == Transferred
    requires Books(c)
    ensures s.rows[x].kind.Credit() && ResultFits(c, Saga.ToCommand(s.rows[x]), s.done[x])
  {
    hide Books, KeyOf, EntriesOf;
    OwnerKnown(c, s.e.id);
  }

  lemma RememberedIn(w: World, id: string, x: Slot)
    requires id in w.db.errands && x.op.Credit()
    ensures KeyOf(id, x) in w.credit.processed <==> x in View(w, id).done
    ensures x in View(w, id).done ==> View(w, id).done[x] == w.credit.processed[KeyOf(id, x)]
  {
    hide KeyOf, PartOf, RowsView;
  }

  lemma WireSettles(w: World, m: Message)
    requires m in w.wire && SubjectsOk(m.cmd) && |m.id| <= MAX_MESSAGE_ID_LENGTH
    requires Books(w.credit)
    requires WorldInv(w)
    ensures SettlesWell(w.credit, m.id, m.cmd)
  {
    hide Books, SubjectsOk, SettlesWell, Saga.Inv, Saga.RowOk, IsUuid, KeyOf, Judge, CommandOk, WellFormed, IdsInv,
         KeyInv, NoticeInv, WireInv, CreditInv, ReplyInv, PastInv, SagaInv, HandlerInv, ConfirmInv, RowsView, DoneView,
         EntriesOf, Saga.ToCommand, ResultFits, Saga.AnswerFits;
    var id, x := WireSlot(w, m);
    var s := View(w, id);
    SagaOfRun(w, id);
    ErrandOfRun(w, id);
    RowCommandOk(s.e, x, s.rows[x]);
    CommandsFindTheirState(s, x);
    KeyNotEmpty(id, x);
    RememberedIn(w, id, x);
    if x in s.done {
      AnswerInSlot(s, x);
      RememberedFits(w.credit, s, x);
    } else {
      JudgedWell(w.credit, s, x);
    }
    ExecuteWell(w.credit, m.id, m.cmd);
  }

  lemma CommandsSettleInRuns(initialCredit: nat, steps: seq<Step>)
    ensures CommandsSettle(Run(initialCredit, steps))
  {
    hide WorldInv, Run, Books, SubjectsOk, SettlesWell;
    RunKeepsInv(initialCredit, steps);
    BooksInSystemRuns(initialCredit, steps);
    var w := Run(initialCredit, steps);
    forall m | m in w.wire && SubjectsOk(m.cmd) && |m.id| <= MAX_MESSAGE_ID_LENGTH
      ensures SettlesWell(w.credit, m.id, m.cmd)
    {
      WireSettles(w, m);
    }
  }
}
