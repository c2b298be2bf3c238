/** credit-service's steps keep the invariant of the whole system: each delivery answers at most one command of one
    errand, and does so once. */
module CompositeCredit {
  import opened Keys
  import opened Errands
  import opened StateMachine
  import opened Wallets
  import opened StoreModel
  import opened Lifecycle
  import opened CreditParts
  import opened Composite
  import opened CompositeInv
  import opened SagaProofs
  import Saga

  // ---------------------------------------------------------------- what a command may touch

  /** A command leaves remembered results and recorded replies alone, and touches its own order only. */
  ghost predicate Touches(c: Credit, c': Credit, order: string) {
    && c'.processed == c.processed && c'.outbox == c.outbox
    && (forall o :: o in c'.reservations ==> o in c.reservations || o == order)
    && (forall o :: o in c'.tombstones ==> o in c.tombstones || o == order)
    && (forall i :: 0 <= i < |c'.ledger| ==> c'.ledger[i].order == order || c'.ledger[i] in c.ledger)
  }

  lemma JudgeTouches(c: Credit, cmd: Command)
    requires CommandOk(cmd)
    ensures Judge(c, cmd).Settled? ==> Touches(c, Judge(c, cmd).credit, Lower(cmd.order))
  {
    hide MatchesUuid, SubjectOk, CanInsert, Lower;
  }

  /** A failed operation changes nothing. */
  lemma FailureTouchesNothing(c: Credit, cmd: Command)
    requires CommandOk(cmd)
    ensures var j := Judge(c, cmd); j.Settled? && j.result.OperationFailedResult? ==> j.credit == c
  {
    hide MatchesUuid, SubjectOk, CanInsert, Lower;
  }

  // ---------------------------------------------------------------- frames

  /** A change of credit-service that shows the same to every errand, except for newly recorded replies. */
  ghost predicate SameParts(db: Db, c: Credit, c': Credit) {
    && c'.processed == c.processed
    && (forall id :: id in db.errands ==> PartOf(c', id) == PartOf(c, id))
  }

  lemma SamePartsKeeps(w: World, c': Credit)
    requires WorldInv(w) && SameParts(w.db, w.credit, c') && CreditInv(w.db, c') && ReplyInv(w.db, c')
    ensures WorldInv(w.(credit := c'))
  {
    hide WellFormed, KeyOf, Next, Saga.Inv, PartOf, Earlier, CommandKey, Spent;
    var w' := w.(credit := c');
    assert WireInv(w') by { assert forall k :: CreditRecord(w', k) == CreditRecord(w, k); }
    forall id | id in w.db.errands
      ensures View(w', id) == View(w, id)
    {
    }
    hide View;
  }

  lemma {:induction false} OtherEntries(ledger: seq<LedgerEntry>, order: string)
    requires forall i :: 0 <= i < |ledger| ==> ledger[i].order != order
    ensures EntriesOf(ledger, order) == []
  {
    if ledger != [] {
      OtherEntries(ledger[..|ledger| - 1], order);
    }
  }

  lemma CreateWalletParts(c: Credit, owner: string, subject: string, id: string)
    requires id != ""
    ensures PartOf(CreateWallet(c, owner, subject), id) == PartOf(c, id)
  {
    hide MatchesUuid, SubjectOk, CanInsert, OwnerHasWallet, Lower, EntriesOf;
    EntriesPush(c.ledger, LedgerEntry(subject, Allocate, c.initialCredit, 0, "", "", INITIAL_ALLOCATION_KEY), id);
  }

  lemma CreateWalletTouches(c: Credit, owner: string, subject: string)
    ensures Touches(c, CreateWallet(c, owner, subject), "")
    ensures var c' := CreateWallet(c, owner, subject);
      c'.reservations == c.reservations && c'.tombstones == c.tombstones
  {
    hide MatchesUuid, SubjectOk, CanInsert, OwnerHasWallet, Lower;
  }

  lemma TouchKeepsCredit(db: Db, c: Credit, c': Credit, order: string)
    requires CreditInv(db, c) && Touches(c, c', order)
    requires if order == "" then c'.reservations == c.reservations && c'.tombstones == c.tombstones
      else order in db.errands
    ensures CreditInv(db, c')
  {
    hide CommandKey;
    forall i | 0 <= i < |c'.ledger|
      ensures c'.ledger[i].order == "" || c'.ledger[i].order in db.errands
    {
      if c'.ledger[i] in c.ledger {
        var j :| 0 <= j < |c.ledger| && c.ledger[j] == c'.ledger[i];
      }
    }
  }

  lemma OpenWalletKeeps(w: World, owner: string, subject: string)
    requires WorldInv(w)
    ensures WorldInv(w.(credit := CreateWallet(w.credit, owner, subject)))
  {
    hide CreateWallet, PartOf, CommandKey, WellFormed, HandlerInv, SagaInv, PastInv, WireInv, KeyInv, NoticeInv,
         ConfirmInv, CreditInv;
    var c, c' := w.credit, CreateWallet(w.credit, owner, subject);
    CreateWalletTouches(c, owner, subject);
    forall id | id in w.db.errands
      ensures PartOf(c', id) == PartOf(c, id)
    {
      assert IsUuid(id);
      CreateWalletParts(c, owner, subject, id);
    }
    hide IsUuid;
    TouchKeepsCredit(w.db, c, c', "");
    assert ReplyInv(w.db, c');
    SamePartsKeeps(w, c');
  }

  // ---------------------------------------------------------------- deliveries

  lemma SagaRow(w: World, id: string, x: Slot)
    requires SagaInv(w) && CommandKey(w.db, KeyOf(id, x), id, x)
    ensures var s := View(w, id);
      && x in s.rows && s.rows[x] == w.db.outbox[KeyOf(id, x)].row && Saga.RowOk(s.e, x, s.rows[x])
  {
    hide KeyOf, PartOf, DoneView, Saga.StatusInv, Saga.AnswerInv, Saga.DroppedInv, Saga.BaseInv, Saga.ReservationInv,
         Saga.SeqInv, Saga.LedgerInv;
    assert Saga.RowsInv(View(w, id));
    hide Saga.RowOk;
  }

  /** A published message is the command of one slot of one errand. */
  lemma WireSlot(w: World, m: Message) returns (id: string, x: Slot)
    requires IdsInv(w.db) && KeyInv(w.db) && WireInv(w) && SagaInv(w) && m in w.wire
    ensures CommandKey(w.db, m.id, id, x) && IsUuid(id)
    ensures var s := View(w, id);
      && x in s.rows && s.rows[x] == w.db.outbox[m.id].row && Saga.RowOk(s.e, x, s.rows[x]) && s.e.id == id
      && m == MessageOf(s.rows[x]) && m.cmd.order == id
  {
    hide KeyOf, Used, WellFormed, SagaInv, PartOf, DoneView, IsUuid, RowsView;
    assert m.id in w.db.outbox;
    id, x :| OwnedBy(w.db, m.id, id, x) && (x.op.Credit() <==> w.db.outbox[m.id].row.kind.Credit());
    SagaRow(w, id, x);
  }

  lemma RecordKeeps(w: World, r: Reply)
    requires WorldInv(w) && ReplyOk(w.db, w.credit, r)
    ensures WorldInv(w.(credit := w.credit.(outbox := w.credit.outbox + {r})))
  {
    hide CommandKey, WellFormed, HandlerInv, SagaInv, PastInv, WireInv, KeyInv, NoticeInv, ConfirmInv, IdsInv,
         EntriesOf;
    SamePartsKeeps(w, w.credit.(outbox := w.credit.outbox + {r}));
  }

  /** One command of one errand is answered for the first time. */
  ghost predicate FirstAnswer(w: World, c': Credit, id: string, x: Slot, a: Saga.Answer) {
    && id in w.db.errands && CommandKey(w.db, KeyOf(id, x), id, x) && KeyOf(id, x) !in w.credit.processed
    && c'.processed == w.credit.processed[KeyOf(id, x) := a.r] && c'.outbox == w.credit.outbox
    && Saga.Answers(View(w, id), x, a)
    && PartOf(c', id) == Part(a.res, a.tomb, View(w, id).entries + a.extra)
    && (forall o :: o != id ==> PartOf(c', o) == PartOf(w.credit, o))
  }

  lemma FirstAnswerView(w: World, c': Credit, id: string, x: Slot, a: Saga.Answer)
    requires IdsInv(w.db) && FirstAnswer(w, c', id, x, a)
    ensures View(w.(credit := c'), id) == Saga.AfterAnswer(View(w, id), x, a)
  {
    hide KeyOf, PartOf, Saga.Answers, WellFormed;
    UuidColonFree(id);
    hide IsUuid;
    forall y: Slot | y != x
      ensures KeyOf(id, y) != KeyOf(id, x)
    {
      if KeyOf(id, y) == KeyOf(id, x) { KeyInjective(id, y, id, x); }
    }
    assert DoneView(c'.processed, id) == DoneView(w.credit.processed, id)[x := a.r];
  }

  lemma OtherView(w: World, c': Credit, id: string, x: Slot, a: Saga.Answer, o: string)
    requires IdsInv(w.db) && FirstAnswer(w, c', id, x, a) && o in w.db.errands && o != id
    ensures View(w.(credit := c'), o) == View(w, o)
  {
    hide KeyOf, PartOf, Saga.Answers, WellFormed;
    UuidColonFree(id);
    UuidColonFree(o);
    hide IsUuid;
    forall y: Slot
      ensures KeyOf(o, y) != KeyOf(id, x)
    {
      if KeyOf(o, y) == KeyOf(id, x) { KeyInjective(o, y, id, x); }
    }
    assert DoneView(c'.processed, o) == DoneView(w.credit.processed, o);
  }

  lemma FirstAnswerSagas(w: World, c': Credit, id: string, x: Slot, a: Saga.Answer)
    requires IdsInv(w.db) && SagaInv(w) && FirstAnswer(w, c', id, x, a)
    ensures SagaInv(w.(credit := c'))
  {
    hide View, Saga.Inv, IdsInv, PartOf, KeyOf;
    var w' := w.(credit := c');
    forall o | o in w.db.errands
      ensures Saga.Inv(View(w', o))
    {
      if o == id {
        FirstAnswerView(w, c', id, x, a);
        AnswerKeepsInv(View(w, id), x, a);
      } else {
        OtherView(w, c', id, x, a, o);
      }
    }
  }

  lemma FirstAnswerReplies(w: World, c': Credit, id: string, x: Slot, a: Saga.Answer)
    requires ReplyInv(w.db, w.credit) && HandlerInv(w) && FirstAnswer(w, c', id, x, a)
    ensures ReplyInv(w.db, c') && HandlerInv(w.(credit := c'))
  {
    hide View, PartOf, KeyOf, CommandKey, Next, Earlier, Spent, Saga.Answers;
    forall r | ReplyOk(w.db, w.credit, r)
      ensures ReplyOk(w.db, c', r)
    {
    }
    hide ReplyOk;
  }

  lemma FirstAnswerKeeps(w: World, c': Credit, id: string, x: Slot, a: Saga.Answer)
    requires WorldInv(w) && FirstAnswer(w, c', id, x, a) && CreditInv(w.db, c')
    ensures WorldInv(w.(credit := c'))
  {
    hide FirstAnswer, CreditInv, ReplyInv, HandlerInv, SagaInv, Earlier, KeyInv, NoticeInv, ConfirmInv, IdsInv, KeyOf;
    FirstAnswerSagas(w, c', id, x, a);
    FirstAnswerReplies(w, c', id, x, a);
    var w' := w.(credit := c');
    assert forall k :: CreditRecord(w', k) == CreditRecord(w, k);
  }

  /** Deciding a message: a repeat and a failure change nothing, a first handling is judged and remembered. */
  function Decided(c: Credit, message: string, cmd: Command): (r: Judged)
    requires CommandOk(cmd)
  {
    if message in c.processed then Settled(c, c.processed[message])
    else
      var j := Judge(c, cmd);
      if j.Refused? || j.result.OperationFailedResult? then j
      else Settled(j.credit.(processed := c.processed[message := j.result]), j.result)
  }

  /** Executing a message is deciding it and recording the reply. */
  lemma ExecuteDecides(c: Credit, message: string, cmd: Command)
    ensures var r := Execute(c, message, cmd);
      r.Settled? ==>
        && CommandOk(cmd)
        && var d := Decided(c, message, cmd);
        && d.Settled? && r.result == d.result
        && r.credit == d.credit.(outbox := d.credit.outbox + {Reply(message, Lower(cmd.order), cmd.version, d.result)})
  {
    hide Judge, Lower, SubjectOk, MatchesUuid;
    if CommandOk(cmd) {
      JudgeTouches(c, cmd);
      if message in c.processed {
        assert c.processed[message := c.processed[message]] == c.processed;
      }
    }
    hide CommandOk, Touches;
  }

  lemma DecidedFacts(c: Credit, message: string, cmd: Command)
    requires CommandOk(cmd) && Decided(c, message, cmd).Settled?
    ensures var d := Decided(c, message, cmd);
      && d.credit.outbox == c.outbox
      && (message in c.processed || d.result.OperationFailedResult? ==> d.credit == c)
      && (d.result.OperationFailedResult? || (message in d.credit.processed && d.credit.processed[message] == d.result))
  {
    hide Judge, CommandOk;
    if message !in c.processed {
      JudgeTouches(c, cmd);
      FailureTouchesNothing(c, cmd);
    }
  }

  lemma RowOkCredit(e: Errand, x: Slot, row: OutboxRow)
    requires Saga.RowOk(e, x, row)
    ensures row.kind.Credit() && row.payload.CommandPayload?
  {
    hide KeyOf;
  }

  lemma DecidedFirst(w: World, id: string, x: Slot) returns (a: Saga.Answer)
    requires id in w.db.errands && IsUuid(id) && CommandKey(w.db, KeyOf(id, x), id, x)
    requires KeyOf(id, x) !in w.credit.processed
    requires var s := View(w, id); s.e.id == id && x in s.rows && Saga.RowOk(s.e, x, s.rows[x])
    requires var cmd := Saga.ToCommand(View(w, id).rows[x]); CommandOk(cmd) && cmd.order == id
    requires var j := Judge(w.credit, Saga.ToCommand(View(w, id).rows[x]));
      j.Settled? && !j.result.OperationFailedResult?
    ensures var d := Decided(w.credit, KeyOf(id, x), Saga.ToCommand(View(w, id).rows[x]));
      d.Settled? && FirstAnswer(w, d.credit, id, x, a) && a.r == d.result
  {
    hide Judge, KeyOf, CommandOk, EntriesOf, RowsView, Saga.RowOk, Saga.Answers;
    var s := View(w, id);
    RowOkCredit(s.e, x, s.rows[x]);
    var cmd := Saga.ToCommand(s.rows[x]);
    LowerUuid(id);
    hide IsUuid, Lower, MatchesUuid;
    assert x !in s.done;
    a := JudgeAnswers(s, x, w.credit);
    JudgeTouches(w.credit, cmd);
    forall o | o != id
      ensures PartOf(Judge(w.credit, cmd).credit, o) == PartOf(w.credit, o)
    {
      JudgeFrame(w.credit, cmd, o);
    }
  }

  lemma DecidedCredit(db: Db, c: Credit, message: string, cmd: Command, x: Slot)
    requires CreditInv(db, c) && CommandOk(cmd) && cmd.order in db.errands && Lower(cmd.order) == cmd.order
    requires CommandKey(db, message, cmd.order, x) && cmd.order != ""
    requires Decided(c, message, cmd).Settled?
    ensures CreditInv(db, Decided(c, message, cmd).credit)
  {
    hide Judge, CommandOk, CommandKey, Lower;
    if message !in c.processed {
      JudgeTouches(c, cmd);
      TouchKeepsCredit(db, c, Judge(c, cmd).credit, cmd.order);
    }
    hide Touches;
  }

  lemma DecisionKeeps(w: World, m: Message, id: string, x: Slot)
    requires CommandOk(m.cmd) && Decided(w.credit, m.id, m.cmd).Settled?
    requires CommandKey(w.db, m.id, id, x) && IsUuid(id) && m.cmd.order == id
    requires var s := View(w, id);
      s.e.id == id && x in s.rows && Saga.RowOk(s.e, x, s.rows[x]) && m == MessageOf(s.rows[x])
    requires WorldInv(w)
    ensures WorldInv(w.(credit := Decided(w.credit, m.id, m.cmd).credit))
  {
    hide Judge, CommandOk, EntriesOf, RowsView, Saga.RowOk, IdsInv, KeyInv, NoticeInv, WireInv, CreditInv, ReplyInv,
         PastInv, SagaInv, HandlerInv, ConfirmInv, KeyOf, FirstAnswer, View, Saga.ToCommand;
    LowerUuid(id);
    DecidedFacts(w.credit, m.id, m.cmd);
    RowOkCredit(View(w, id).e, x, View(w, id).rows[x]);
    DecidedCredit(w.db, w.credit, m.id, m.cmd, x);
    hide IsUuid, Lower, MatchesUuid;
    var d := Decided(w.credit, m.id, m.cmd);
    if m.id !in w.credit.processed && !d.result.OperationFailedResult? {
      assert m.id == KeyOf(id, x) && m.cmd == Saga.ToCommand(View(w, id).rows[x]);
      var a := DecidedFirst(w, id, x);
      FirstAnswerKeeps(w, d.credit, id, x, a);
    } else {
      assert w.(credit := w.credit) == w;
    }
  }

  lemma DeliverKeeps(w: World, m: Message)
    requires WorldInv(w) && m in w.wire
    ensures WorldInv(w.(credit := Process(w.credit, m.id, m.cmd)))
  {
    hide Execute, Decided, CommandOk, View, Saga.RowOk, IdsInv, KeyInv, NoticeInv, WireInv, CreditInv, ReplyInv,
         PastInv, SagaInv, HandlerInv, ConfirmInv, KeyOf, CommandKey, IsUuid, Lower, MatchesUuid;
    var id, x := WireSlot(w, m);
    ExecuteDecides(w.credit, m.id, m.cmd);
    LowerUuid(id);
    if Execute(w.credit, m.id, m.cmd).Settled? {
      var d := Decided(w.credit, m.id, m.cmd);
      DecisionKeeps(w, m, id, x);
      DecidedFacts(w.credit, m.id, m.cmd);
      var w1 := w.(credit := d.credit);
      var r := Reply(m.id, id, m.cmd.version, d.result);
      assert ReplyOk(w1.db, w1.credit, r);
      RecordKeeps(w1, r);
      assert w1.(credit := w1.credit.(outbox := w1.credit.outbox + {r}))
        == w.(credit := Process(w.credit, m.id, m.cmd));
    } else {
      assert w.(credit := w.credit) == w;
    }
  }
}
