/** What the dispatcher's steps and the result handlers' steps do to the rows of every run, on the columns
    themselves. */
module Handling {
  import opened Prelude
  import opened Keys
  import opened Errands
  import opened StateMachine
  import opened Wallets
  import opened StoreModel
  import opened Lifecycle
  import opened Composite
  import opened CompositeInv
  import opened CompositeCredit
  import opened CompositeProofs
  import opened Theorems
  import opened ResultTheorems
  import opened StoreSteps
  import opened StoreAnswers
  import opened DeliveryTheorems
  import AnnouncedRows
  import CreditParts
  import Saga

  // ---------------------------------------------------------------- settling

  /** A row on its way is confirmed, or failed if the operation failed; any other row keeps its status. */
  function SettledStatus(was: RowStatus, result: Result): (status: RowStatus) {
    if was == RowPending || was == RowSent then (if result.OperationFailedResult? then RowFailed else RowConfirmed)
    else was
  }

  /** Only the status of the row under `key` changes. */
  ghost predicate RowBecomes(w: World, w': World, key: string, status: RowStatus) {
    && key in w.db.outbox && w'.db.outbox.Keys == w.db.outbox.Keys
    && (forall k :: k in w.db.outbox && k != key ==> w'.db.outbox[k] == w.db.outbox[k])
    && w'.db.outbox[key].status == status
    && w'.db.outbox[key].(status := w.db.outbox[key].status) == w.db.outbox[key]
    && w'.db.(outbox := w.db.outbox) == w.db
  }

  ghost predicate Ready(h: Handler) {
    h.stage.Confirming? || h.stage.Failing?
  }

  ghost predicate SettlesRow(w: World, w': World, h: nat)
    requires h in w.handlers
  {
    var handler := w.handlers[h];
    var key := handler.reply.command;
    if Ready(handler) then
      && key in w.db.outbox
      && RowBecomes(w, w', key, SettledStatus(w.db.outbox[key].status, handler.reply.result))
      && w'.handlers == w.handlers[h := handler.(stage := Finished(Ack))]
      && w'.credit == w.credit && w'.wire == w.wire && w'.past == w.past
    else w' == w
  }

  /** The row a reply answers is a credit row. */
  lemma ReplyRow(w: World, r: Reply)
    requires ReplyOk(w.db, w.credit, r) && SagaInv(w)
    ensures CreditRecord(w, r.command)
  {
    hide KeyOf, SagaInv, View;
    var x: Slot :| CommandKey(w.db, r.command, r.order, x);
    SagaRow(w, r.order, x);
    RowIsCommand(w.db.errands[r.order], x, w.db.outbox[r.command].row, View(w, r.order));
  }

  lemma RowIsCommand(e: Errand, x: Slot, row: OutboxRow, s: Saga.State)
    requires x in s.rows && s.rows[x] == row && Saga.RowOk(s.e, x, row)
    ensures row.kind.Credit() && row.payload.CommandPayload?
  {
    hide KeyOf;
  }

  lemma StageOfResult(db: Db, c: Credit, h: Handler)
    requires HandlerOk(db, c, h) && Ready(h)
    ensures ReplyOk(db, c, h.reply) && (h.stage.Failing? <==> h.reply.result.OperationFailedResult?)
  {
    hide ReplyOk, Next, Spent, Rank, Earlier, ResultEvent;
  }

  lemma SettleGives(w: World, h: nat)
    requires h in w.handlers
    requires Ready(w.handlers[h]) ==>
      && CreditRecord(w, w.handlers[h].reply.command)
      && (w.handlers[h].stage.Failing? <==> w.handlers[h].reply.result.OperationFailedResult?)
    ensures SettlesRow(w, DoSettle(w, h), h)
  {
  }

  /** In every run, `SettleRow` of a handler that is ready settles its command's row, by the kind of its result, touches
      nothing else and acknowledges. */
  lemma SettlesInRuns(initialCredit: nat, steps: seq<Step>, h: nat)
    ensures var w := Run(initialCredit, steps);
      h in w.handlers ==> SettlesRow(w, Run(initialCredit, steps + [SettleRow(h)]), h)
  {
    hide WorldInv, Run, SettlesRow, HandlerOk, CreditRecord, Do;
    RunStep(initialCredit, steps, SettleRow(h));
    RunKeepsInv(initialCredit, steps);
    var w := Run(initialCredit, steps);
    if h in w.handlers {
      HandlersOfRun(w);
      if Ready(w.handlers[h]) {
        StageOfResult(w.db, w.credit, w.handlers[h]);
        SagasOfRun(w);
        ReplyRow(w, w.handlers[h].reply);
      }
      DoSettles(w, h);
      SettleGives(w, h);
    }
  }

  lemma SagasOfRun(w: World)
    requires WorldInv(w)
    ensures SagaInv(w)
  {
    hide SagaInv, IdsInv, KeyInv, NoticeInv, WireInv, CreditInv, ReplyInv, PastInv, HandlerInv, ConfirmInv;
  }

  lemma DoSettles(w: World, h: nat)
    ensures Do(w, SettleRow(h)) == DoSettle(w, h)
  {
    hide DoSettle;
  }

  // ---------------------------------------------------------------- finishing

  ghost predicate IsFinished(w: World, h: nat) {
    h in w.handlers && w.handlers[h].stage.Finished?
  }

  /** Only settling acknowledges: reading and writing never finish with an acknowledgement. */
  lemma OnlySettlingFinishes(w: World, s: Step, h: nat)
    requires !IsFinished(w, h) && IsFinished(Do(w, s), h) && Do(w, s).handlers[h].stage.d == Ack
    ensures s == SettleRow(h) && h in w.handlers && Ready(w.handlers[h])
  {
    hide Next, Apply, Create, Fresh, FromResult, CreditRecord, CreateWallet, Process, ResultEvent, IsUuid, KeyOf,
         RejectionKey, MessageOf;
  }

  /** In every run, when a handler finishes it acknowledges, and at that step its command's row is CONFIRMED or FAILED;
      a result that no failed operation reports never fails a row that was on its way. */
  lemma FinishedIsSettledInRuns(initialCredit: nat, steps: seq<Step>, s: Step, h: nat)
    ensures var w, w' := Run(initialCredit, steps), Run(initialCredit, steps + [s]);
      !IsFinished(w, h) && IsFinished(w', h) ==>
        && w'.handlers[h].stage == Finished(Ack)
        && var r := w'.handlers[h].reply;
        && r.command in w.db.outbox && r.command in w'.db.outbox
        && w'.db.outbox[r.command].status == SettledStatus(w.db.outbox[r.command].status, r.result)
        && (w'.db.outbox[r.command].status == RowConfirmed || w'.db.outbox[r.command].status == RowFailed)
  {
    hide WorldInv, Run, Do, HandlerSafe, NoLostReservation;
    var w, w' := Run(initialCredit, steps), Run(initialCredit, steps + [s]);
    if !IsFinished(w, h) && IsFinished(w', h) {
      RunStep(initialCredit, steps, s);
      ResultsSafeInRuns(initialCredit, steps + [s]);
      SafeAcks(w', h);
      OnlySettlingFinishes(w, s, h);
      SettlesInRuns(initialCredit, steps, h);
    }
  }

  lemma SafeAcks(w: World, h: nat)
    requires ResultsSafe(w) && IsFinished(w, h)
    ensures w.handlers[h].stage.d == Ack
  {
    hide NoLostReservation, NoLongerApplies, WriteIsSafe;
    assert HandlerSafe(w, w.handlers[h]);
  }

  // ---------------------------------------------------------------- a result is carried out

  /** The errand after a result reached it: what the result decides, if the errand still waits for it. */
  function AfterResult(e: Errand, r: Reply, now: Time): (e': Errand) {
    var waiting := e.pendingEdit.Some? && e.pendingEdit.value.key == r.command;
    match r.result
    case ReservedResult(_) =>
      if e.status == PendingReservation then e.(status := Open, version := e.version + 1, updatedAt := now) else e
    case ReservationRefusedResult(_) =>
      if e.status == PendingReservation then e.(status := Rejected, version := e.version + 1, updatedAt := now) else e
    case AdjustedResult(_, _) =>
      if waiting then e.(details := e.pendingEdit.value.details, pendingEdit := None, version := e.version + 1,
                         updatedAt := now)
      else e
    case AdjustRefusedResult(_, _) =>
      if waiting then e.(pendingEdit := None, version := e.version + 1, updatedAt := now) else e
    case _ => e
  }

  lemma ResultEffect(e: Errand, r: Reply, now: Time)
    requires WellFormed(e) && r.command != ""
    ensures ResultEvent(r).None? ==> AfterResult(e, r, now) == e
    ensures ResultEvent(r).Some? ==>
      var (ev, input) := ResultEvent(r).value;
      if Enabled(e, ev, SYSTEM, input, now) then Effect(e, ev, SYSTEM, input, now) == AfterResult(e, r, now)
      else AfterResult(e, r, now) == e
  {
    hide KeyOf, CodeText, DeliveryInv, ReviewInv, IsBlank, DetailsOk;
  }

  /** A handler that has read the errand as it is. */
  ghost predicate ReadBy(w: World, h: nat, r: Reply, now: Time) {
    && h in w.handlers && w.handlers[h].reply == r && r.order in w.db.errands
    && var e := w.db.errands[r.order];
    && match w.handlers[h].stage
       case Applying(t, seen) =>
         && seen == e && ResultEvent(r).Some?
         && Next(e, ResultEvent(r).value.0, SYSTEM, ResultEvent(r).value.1, now) == Ok(t)
       case Confirming => AfterResult(e, r, now) == e
       case Failing => AfterResult(e, r, now) == e
       case _ => false
  }

  lemma ReceiveGives(w: World, h: nat, r: Reply)
    requires r in w.credit.outbox && h !in w.handlers
    ensures Do(w, Receive(h, r)) == w.(handlers := w.handlers[h := Handler(r, 0, FirstStage(r))])
  {
    hide FirstStage;
  }

  lemma ReadGives(w: World, h: nat, r: Reply, now: Time)
    requires h in w.handlers && w.handlers[h] == Handler(r, 0, FirstStage(r))
    requires HandlerOk(w.db, w.credit, w.handlers[h])
    requires IdsInv(w.db)
    ensures var w' := Do(w, ReadErrand(h, now)); ReadBy(w', h, r, now) && w'.(handlers := w.handlers) == w
  {
    hide KeyOf, CodeText, Next, WellFormed, IsUuid, ReplyOk, Rank, Spent, AfterResult;
    var e := w.db.errands[r.order];
    ReplyKeyed(w.db, w.credit, r);
    ResultEffect(e, r, now);
    if ResultEvent(r).Some? {
      var (ev, input) := ResultEvent(r).value;
      ResultOutcome(e, r, now);
      NextAccepts(e, ev, SYSTEM, input, now);
      SpentResolves(e, r, now);
      KeyedEvent(e, r, now);
    }
    hide Enabled;
  }

  /** A result that does not apply finds its edit gone, or is refused with a resolved code. */
  lemma SpentResolves(e: Errand, r: Reply, now: Time)
    requires WellFormed(e) && ResultEvent(r).Some? && r.command != ""
    ensures var (ev, input) := ResultEvent(r).value;
      Next(e, ev, SYSTEM, input, now).Fail? ==>
        || (input.editKey != "" && (e.pendingEdit.None? || e.pendingEdit.value.key != input.editKey))
        || Resolved(Next(e, ev, SYSTEM, input, now).code)
  {
    hide Next, WellFormed, KeyOf, CodeText;
    ResultOutcome(e, r, now);
  }

  lemma KeyedEvent(e: Errand, r: Reply, now: Time)
    requires ResultEvent(r).Some? && r.command != ""
    ensures var (ev, input) := ResultEvent(r).value;
      Enabled(e, ev, SYSTEM, input, now) && input.editKey != "" ==>
        e.pendingEdit.Some? && e.pendingEdit.value.key == input.editKey
  {
    hide CodeText, IsBlank, DetailsOk;
  }

  lemma WriteGives(w: World, h: nat, r: Reply, now: Time)
    requires ReadBy(w, h, r, now)
    requires WorldInv(w)
    ensures var w' := Do(w, WriteErrand(h));
      && h in w'.handlers && w'.handlers[h].reply == r && Ready(w'.handlers[h])
      && w'.db.errands == w.db.errands[r.order := AfterResult(w.db.errands[r.order], r, now)]
      && (r.command in w.db.outbox ==>
            r.command in w'.db.outbox && w'.db.outbox[r.command].status == w.db.outbox[r.command].status)
  {
    hide WorldInv, Next, Apply, Commit, AfterResult, HandlerOk, WellFormed, ResultEvent;
    HandlersOfRun(w);
    if w.handlers[h].stage.Applying? {
      ResultWrite(w, w.handlers[h]);
      WrittenResult(w, h, r, now);
    } else {
      assert w.db.errands[r.order := w.db.errands[r.order]] == w.db.errands;
    }
  }

  lemma WrittenResult(w: World, h: nat, r: Reply, now: Time)
    requires ReadBy(w, h, r, now) && w.handlers[h].stage.Applying?
    requires WorldInv(w)
    ensures var e, t := w.db.errands[r.order], w.handlers[h].stage.t;
      && Commit(w.db, e, t).errands == w.db.errands[r.order := AfterResult(e, r, now)]
      && (r.command in w.db.outbox ==>
            && r.command in Commit(w.db, e, t).outbox
            && Commit(w.db, e, t).outbox[r.command].status == w.db.outbox[r.command].status)
  {
    hide WorldInv, Next, Effect, Enabled, Commit, AfterResult, HandlerOk, WellFormed, ReplyOk, IsUuid, Submits,
         OutboxOf, ReasonOf;
    var e, t := w.db.errands[r.order], w.handlers[h].stage.t;
    var (ev, input) := ResultEvent(r).value;
    ErrandOfRun(w, r.order);
    HandlersOfRun(w);
    HandlerReply(w.db, w.credit, w.handlers[h]);
    ReplyKeyed(w.db, w.credit, r);
    ResultEffect(e, r, now);
    NextMeans(e, ev, SYSTEM, input, now);
    MeansApplied(t, e, ev, SYSTEM, input, now);
    CommitStoresErrand(w.db, e, t);
    PartsOfRun(w);
    NewRows(w, r.order, ev, SYSTEM, input, now);
    RowsGiven(w.db, e, t, ev, SYSTEM, input, now);
    hide Means, ResultEvent;
  }

  lemma HandlerReply(db: Db, c: Credit, h: Handler)
    requires HandlerOk(db, c, h)
    ensures ReplyOk(db, c, h.reply)
  {
    hide ReplyOk, Next, Spent, Rank, Earlier, ResultEvent;
  }

  /** The four steps of an undisturbed handler. */
  ghost function Handles(h: nat, r: Reply, now: Time): (steps: seq<Step>) {
    [Receive(h, r), ReadErrand(h, now), WriteErrand(h), SettleRow(h)]
  }

  /** After every run, for every recorded reply, however old or repeated: a handler that is not disturbed acknowledges
      it after four steps, with the errand as the result decides, if it was still waiting for it, and the row
      settled. */
  lemma HandledInRuns(initialCredit: nat, steps: seq<Step>, h: nat, r: Reply, now: Time)
    requires r in Run(initialCredit, steps).credit.outbox && h !in Run(initialCredit, steps).handlers
    ensures var w, w' := Run(initialCredit, steps), Run(initialCredit, steps + Handles(h, r, now));
      && h in w'.handlers && w'.handlers[h].stage == Finished(Ack)
      && r.order in w.db.errands && r.command in w.db.outbox && r.command in w'.db.outbox
      && w'.db.errands == w.db.errands[r.order := AfterResult(w.db.errands[r.order], r, now)]
      && w'.db.outbox[r.command].status == SettledStatus(w.db.outbox[r.command].status, r.result)
  {
    hide WorldInv, Run, Do, AfterResult, HandlerOk, WellFormed, ReplyOk, FirstStage, IdsInv, SagaInv, CreditRecord;
    var s1 := steps + [Receive(h, r)];
    var s2 := s1 + [ReadErrand(h, now)];
    var s3 := s2 + [WriteErrand(h)];
    assert steps + Handles(h, r, now) == s3 + [SettleRow(h)];
    var w := Run(initialCredit, steps);
    RunKeepsInv(initialCredit, steps);
    RepliesOf(w, r);
    RunStep(initialCredit, steps, Receive(h, r));
    ReceiveGives(w, h, r);
    RunKeepsInv(initialCredit, s1);
    HandlersOfRun(Run(initialCredit, s1));
    PastOfRun(Run(initialCredit, s1));
    RunStep(initialCredit, s1, ReadErrand(h, now));
    ReadGives(Run(initialCredit, s1), h, r, now);
    RunKeepsInv(initialCredit, s2);
    RunStep(initialCredit, s2, WriteErrand(h));
    WriteGives(Run(initialCredit, s2), h, r, now);
    SettlesInRuns(initialCredit, s3, h);
  }

  lemma RepliesOf(w: World, r: Reply)
    requires r in w.credit.outbox
    requires WorldInv(w)
    ensures r.order in w.db.errands && r.command in w.db.outbox
  {
    hide IdsInv, KeyInv, NoticeInv, WireInv, CreditInv, PastInv, SagaInv, HandlerInv, ConfirmInv, KeyOf;
    assert ReplyOk(w.db, w.credit, r);
  }

  // ---------------------------------------------------------------- the dispatcher

  /** The delivery states a dispatcher step moves a credit row between. */
  function DispatchMove(s: Step): (move: Option<(RowStatus, RowStatus)>) {
    match s
    case MarkSent(_) => Some((RowPending, RowSent))
    case Resend(_) => Some((RowSent, RowPending))
    case GiveUp(_) => Some((RowPending, RowFailed))
    case RequeueRow(_) => Some((RowFailed, RowPending))
    case _ => None
  }

  /** The command of the row is on the wire. */
  ghost predicate OnWire(w: World, key: string) {
    exists m :: m in w.wire && m.id == key
  }

  /** A credit row moves exactly from the step's state to the next, a sent one only after it was published. */
  ghost predicate Dispatches(w: World, w': World, s: Step)
    requires DispatchMove(s).Some?
  {
    var (from, to) := DispatchMove(s).value;
    var key := s.key;
    && (if && key in w.db.outbox && w.db.outbox[key].row.kind.Credit() && w.db.outbox[key].status == from
           && (s.MarkSent? ==> OnWire(w, key))
        then RowBecomes(w, w', key, to) else w'.db == w.db)
    && w'.credit == w.credit && w'.wire == w.wire && w'.past == w.past && w'.handlers == w.handlers
  }

  lemma SetRowGives(w: World, key: string, from: RowStatus, to: RowStatus)
    ensures var w' := SetRow(w, key, {from}, to);
      && (if CreditRecord(w, key) && w.db.outbox[key].status == from then RowBecomes(w, w', key, to) else w' == w)
      && w'.credit == w.credit && w'.wire == w.wire && w'.past == w.past && w'.handlers == w.handlers
  {
  }

  lemma DispatchGives(w: World, s: Step)
    requires DispatchMove(s).Some?
    requires s.key in w.db.outbox ==> w.db.outbox[s.key].row.key == s.key
    requires s.key in w.db.outbox && w.db.outbox[s.key].row.kind.Credit() ==> CreditRecord(w, s.key)
    requires WireInv(w)
    ensures Dispatches(w, Do(w, s), s)
  {
    hide WireInv, SetRow, RowBecomes, OnWire, MessageOf;
    var (from, to) := DispatchMove(s).value;
    SetRowGives(w, s.key, from, to);
    WireRow(w, s.key);
  }

  lemma WireRow(w: World, key: string)
    requires key in w.db.outbox ==> w.db.outbox[key].row.key == key
    requires WireInv(w)
    ensures CreditRecord(w, key) ==> (OnWire(w, key) <==> MessageOf(w.db.outbox[key].row) in w.wire)
    ensures OnWire(w, key) ==> CreditRecord(w, key)
  {
  }

  lemma CreditRowsOfRun(w: World, key: string)
    requires key in w.db.outbox && w.db.outbox[key].row.kind.Credit()
    requires WorldInv(w)
    ensures CreditRecord(w, key)
  {
    hide KeyOf, Used, WellFormed, SagaInv, NoticeInv, WireInv, CreditInv, ReplyInv, PastInv, HandlerInv, ConfirmInv,
         IsUuid;
    var id, x: Slot :| OwnedBy(w.db, key, id, x) && (x.op.Credit() <==> w.db.outbox[key].row.kind.Credit());
    SagaRow(w, id, x);
    RowIsCommand(w.db.errands[id], x, w.db.outbox[key].row, View(w, id));
  }

  lemma KeysOfRows(db: Db)
    ensures KeyInv(db) ==> forall k :: k in db.outbox ==> db.outbox[k].row.key == k
  {
    hide OwnedBy;
  }

  lemma WireOfRun(w: World)
    requires WorldInv(w)
    ensures WireInv(w) && forall k :: k in w.db.outbox ==> w.db.outbox[k].row.key == k
  {
    KeysOfRows(w.db);
    hide SagaInv, IdsInv, KeyInv, NoticeInv, WireInv, CreditInv, ReplyInv, PastInv, HandlerInv, ConfirmInv;
  }

  /** In every run, marking sent, resending, giving up and requeueing move a credit row exactly between their states. */
  lemma DispatchesInRuns(initialCredit: nat, steps: seq<Step>, s: Step)
    requires DispatchMove(s).Some?
    ensures Dispatches(Run(initialCredit, steps), Run(initialCredit, steps + [s]), s)
  {
    hide WorldInv, Run, Do, Dispatches, CreditRecord, WireInv;
    RunStep(initialCredit, steps, s);
    RunKeepsInv(initialCredit, steps);
    var w := Run(initialCredit, steps);
    WireOfRun(w);
    if s.key in w.db.outbox && w.db.outbox[s.key].row.kind.Credit() {
      CreditRowsOfRun(w, s.key);
    }
    DispatchGives(w, s);
  }

  // ---------------------------------------------------------------- notices and crashes

  /** The key a rejection or reminder of a stored errand is recorded under. */
  function NoticeKey(w: World, s: Step): (key: Option<string>) {
    match s
    case Reject(id, RejectAccept, request) => Some(id + ":accept-rejected:" + request)
    case Reject(id, RejectCancel, request) => Some(id + ":cancel-rejected:" + request)
    case Reject(id, RejectPickup, request) => Some(id + ":pickup-rejected:" + request)
    case Remind(id, VerifyReminder) =>
      if id in w.db.errands then Some(id + ":verify-reminder:" + Itoa(w.db.errands[id].version)) else None
    case Remind(id, PickupReminder) =>
      if id in w.db.errands then Some(id + ":pickup-reminder:" + Itoa(w.db.errands[id].version)) else None
    case _ => None
  }

  /** A notice adds its one key; a crash forgets the handler and leaves what it has done. */
  ghost predicate NoticesOrForgets(w: World, w': World, s: Step) {
    match s
    case Crash(h) =>
      w' == w.(handlers := w'.handlers) && w'.handlers == map k | k in w.handlers && k != h :: w.handlers[k]
    case Reject(id, _, _) => NoticeAdded(w, w', id, NoticeKey(w, s))
    case Remind(id, _) => NoticeAdded(w, w', id, NoticeKey(w, s))
    case _ => true
  }

  ghost predicate NoticeAdded(w: World, w': World, id: string, key: Option<string>) {
    && w' == w.(db := w.db.(notices := w'.db.notices))
    && w'.db.notices == if id in w.db.errands && key.Some? then w.db.notices + {key.value} else w.db.notices
  }

  lemma ReminderKey(w: World, id: string, op: Op)
    requires id in w.db.errands && w.db.errands[id].version >= 1 && (op == VerifyReminder || op == PickupReminder)
    ensures NoticeKey(w, Remind(id, op)) == Some(KeyOf(id, Slot(op, w.db.errands[id].version)))
  {
    hide Itoa;
    var n := Itoa(w.db.errands[id].version);
    if op == VerifyReminder {
      assert id + ":" + "verify-reminder" + ":" + n == id + ":verify-reminder:" + n;
    } else {
      assert id + ":" + "pickup-reminder" + ":" + n == id + ":pickup-reminder:" + n;
    }
  }

  lemma RejectedKey(w: World, id: string, a: RejectedAction, request: string)
    ensures NoticeKey(w, Step.Reject(id, a, request)) == Some(RejectionKey(id, a, request))
  {
    assert id + ":" + "accept" + "-rejected:" + request == id + ":accept-rejected:" + request;
    assert id + ":" + "cancel" + "-rejected:" + request == id + ":cancel-rejected:" + request;
    assert id + ":" + "pickup" + "-rejected:" + request == id + ":pickup-rejected:" + request;
  }

  lemma NoticeGives(w: World, s: Step)
    requires s.Crash? || s.Reject? || s.Remind?
    requires s.Remind? && s.id in w.db.errands ==> w.db.errands[s.id].version >= 1
    ensures NoticesOrForgets(w, Do(w, s), s)
  {
    hide KeyOf, RejectionKey, Itoa;
    match s
    case Crash(h) =>
    case Reject(id, a, request) => RejectedKey(w, id, a, request);
    case Remind(id, op) =>
      if id in w.db.errands && (op == VerifyReminder || op == PickupReminder) {
        ReminderKey(w, id, op);
      }
  }

  /** In every run. */
  lemma NoticesInRuns(initialCredit: nat, steps: seq<Step>, s: Step)
    requires s.Crash? || s.Reject? || s.Remind?
    ensures NoticesOrForgets(Run(initialCredit, steps), Run(initialCredit, steps + [s]), s)
  {
    hide WorldInv, Run, Do, NoticesOrForgets, WellFormed, IsUuid;
    RunStep(initialCredit, steps, s);
    RunKeepsInv(initialCredit, steps);
    var w := Run(initialCredit, steps);
    if s.Remind? && s.id in w.db.errands {
      ErrandOfRun(w, s.id);
      AnnouncedRows.VersionSet(w.db.errands[s.id]);
    }
    NoticeGives(w, s);
  }

  // ---------------------------------------------------------------- a command is carried out

  ghost function Sends(key: string, m: Message): (steps: seq<Step>) {
    [Publish(key), MarkSent(key), DeliverCommand(m)]
  }

  lemma PublishGives(w: World, key: string)
    requires CreditRecord(w, key) && w.db.outbox[key].status == RowPending
    ensures Do(w, Publish(key)) == w.(wire := w.wire + {MessageOf(w.db.outbox[key].row)})
  {
    hide MessageOf;
  }

  lemma DeliverGives(w: World, m: Message)
    requires m in w.wire && Execute(w.credit, m.id, m.cmd).Settled?
    ensures Do(w, DeliverCommand(m)) == w.(credit := Execute(w.credit, m.id, m.cmd).credit)
  {
    hide Execute;
  }

  lemma ExecuteReplies(c: Credit, message: string, cmd: Command)
    requires Execute(c, message, cmd).Settled?
    ensures var r := Execute(c, message, cmd);
      Reply(message, Lower(cmd.order), cmd.version, r.result) in r.credit.outbox
  {
    hide Judge, CommandOk, Lower;
  }

  /** After every run, a pending credit row whose subjects and key credit-service takes is published, sent and answered:
      the order's reply is recorded under the row's key. */
  lemma SentInRuns(initialCredit: nat, steps: seq<Step>, key: string)
    requires var w := Run(initialCredit, steps); CreditRecord(w, key) && w.db.outbox[key].status == RowPending
    requires var m := MessageOf(Run(initialCredit, steps).db.outbox[key].row);
      SubjectsOk(m.cmd) && |m.id| <= MAX_MESSAGE_ID_LENGTH
    ensures var w := Run(initialCredit, steps);
      var m := MessageOf(w.db.outbox[key].row);
      var w' := Run(initialCredit, steps + Sends(key, m));
      && RowBecomes(w, w', key, RowSent)
      && exists r :: r in w'.credit.outbox && r.command == key && r.order == w.db.outbox[key].row.errandId
  {
    hide WorldInv, Run, Do, SettlesWell, SubjectsOk, Execute, MessageOf;
    var w := Run(initialCredit, steps);
    RunKeepsInv(initialCredit, steps);
    var m := MessageOf(w.db.outbox[key].row);
    var s1 := steps + [Publish(key)];
    var s2 := s1 + [MarkSent(key)];
    assert steps + Sends(key, m) == s2 + [DeliverCommand(m)];
    RunStep(initialCredit, steps, Publish(key));
    PublishGives(w, key);
    RecordMessage(w, key);
    var w1 := Run(initialCredit, s1);
    assert m in w1.wire;
    DispatchesInRuns(initialCredit, s1, MarkSent(key));
    var w2 := Run(initialCredit, s2);
    CommandsSettleInRuns(initialCredit, s2);
    SettledDelivery(w2, m);
    RunStep(initialCredit, s2, DeliverCommand(m));
    DeliverGives(w2, m);
    ExecuteReplies(w2.credit, m.id, m.cmd);
  }

  lemma SettledDelivery(w: World, m: Message)
    requires SettlesWell(w.credit, m.id, m.cmd)
    ensures Execute(w.credit, m.id, m.cmd).Settled?
  {
    hide Execute, ResultFits;
  }

  lemma RecordMessage(w: World, key: string)
    requires CreditRecord(w, key)
    requires WorldInv(w)
    ensures var m := MessageOf(w.db.outbox[key].row);
      && m.id == key && Lower(m.cmd.order) == w.db.outbox[key].row.errandId && w.db.outbox[key].row.kind.Credit()
  {
    hide KeyOf, Used, WellFormed, SagaInv, NoticeInv, WireInv, CreditInv, ReplyInv, PastInv, HandlerInv, ConfirmInv,
         IsUuid, Lower;
    var id, x: Slot :| OwnedBy(w.db, key, id, x) && (x.op.Credit() <==> w.db.outbox[key].row.kind.Credit());
    SagaRow(w, id, x);
    RowOrder(View(w, id), x);
    CreditParts.LowerUuid(id);
  }

  lemma RowOrder(s: Saga.State, x: Slot)
    requires x in s.rows && Saga.RowOk(s.e, x, s.rows[x])
    ensures var row := s.rows[x];
      && row.kind.Credit() && row.payload.CommandPayload? && row.errandId == s.e.id
      && Saga.ToCommand(row).order == s.e.id
  {
    hide KeyOf;
  }
}
