/** A run in which an active reservation does not hold the reward: the requester raises the reward, credit-service
    applies the raise, and the requester cancels before the answer arrives. The release that is on its way returns the
    credits. */
module DroppedEdit {
  import opened Prelude
  import opened Keys
  import opened Errands
  import opened StateMachine
  import opened Wallets
  import opened StoreModel
  import opened Lifecycle
  import opened CreditParts
  import opened Composite
  import opened CompositeInv
  import opened CompositeRows
  import opened CompositeWrites
  import opened CompositeProofs
  import opened Theorems
  import opened ResultTheorems
  import opened ReviewTheorems
  import Saga
  import DeliveryTheorems
  import Economy

  /** The all-zero UUID, for the errand and for the wallet's owner. */
  function Id(): (s: string)
    ensures IsUuid(s) && MatchesUuid(s)
  {
    seq(36, i => if i == 8 || i == 13 || i == 18 || i == 23 then '-' else '0')
  }
  const REQUESTER := "r"
  const CREDITS := 100

  const DETAILS := Details("", "", "", "", "", Some(["tea"]), "", "Kim", "1", 10, 30 * MINUTE)
  const RAISED := DETAILS.(reward := 20)
  const SUBMITTED :=
    Errand(Id(), NoStatus, 0, REQUESTER, "", DETAILS, None, None, None, None, NoReview, "key", None, 0, 0)
  const ASKER := Actor(RequesterActor, REQUESTER)

  lemma NextRun(steps: seq<Step>, s: Step)
    ensures Run(CREDITS, steps + [s]) == Do(Run(CREDITS, steps), s)
  {
    assert (steps + [s])[..|steps|] == steps;
  }

  /** No adjust was ever reverted, and no supplier is fenced. */
  ghost predicate Plain(db: Db) {
    && (forall x: Slot :: x.op == AdjustRevert ==> KeyOf(Id(), x) !in db.outbox)
    && db.fences == map[] && Id() in db.errands
  }

  /** A command of the errand waits to be published. */
  ghost predicate Waits(w: World, x: Saga.Emission) {
    && x.Emits? && x.row.key == KeyOf(Id(), x.slot) && CreditRecord(w, KeyOf(Id(), x.slot))
    && w.db.outbox[KeyOf(Id(), x.slot)].row == x.row && w.db.outbox[KeyOf(Id(), x.slot)].status == RowPending
  }

  lemma RowsAppear(db: Db, db': Db, g: Change)
    requires IsUuid(g.e.id) && g.e.id == Id() && Keyed(g.rows, Id(), g.slots) && OneCommand(g.rows, g.slots, g.x)
    requires Stores(db, db', g) && KeysFree(db, g.rows)
    ensures g.x.Emits? ==> var k := KeyOf(Id(), g.x.slot);
      k in db'.outbox && db'.outbox[k].row == g.x.row && db'.outbox[k].status == RowPending && g.x.row.key == k
    ensures forall x: Slot :: x.op == AdjustRevert && KeyOf(Id(), x) !in db.outbox && !(g.x.Emits? && g.x.slot == x) ==>
      KeyOf(Id(), x) !in db'.outbox
  {
    hide KeyOf;
    DistinctKeys(g.rows, Id(), g.slots);
    AddRowsGives(db.outbox, g.rows, g.e.version, g.at);
    hide AddRows;
    UuidColonFree(Id());
    forall x: Slot, i | 0 <= i < |g.rows| && KeyOf(Id(), x) == g.rows[i].key
      ensures x == g.slots[i]
    {
      KeyInjective(Id(), x, Id(), g.slots[i]);
    }
    assert g.x.Emits? ==> g.rows[0] == g.x.row && g.rows[0].key == KeyOf(Id(), g.x.slot);
  }

  /** Deciding on the errand as it is stores the event's effect and its command. */
  lemma Decides(steps: seq<Step>, ev: Event, input: EventInput, now: Time) returns (steps': seq<Step>)
    requires var w := Run(CREDITS, steps);
      Plain(w.db) && Enabled(w.db.errands[Id()], ev, ASKER, input, now) && !FromResult(ev, input)
    requires var e := Run(CREDITS, steps).db.errands[Id()]; CreditOrderOf(e, ev, input, now) != OrderRevert
    ensures var w, w' := Run(CREDITS, steps), Run(CREDITS, steps');
      && Plain(w'.db) && w'.credit == w.credit && w'.wire == w.wire
      && w'.db.errands[Id()] == Effect(w.db.errands[Id()], ev, ASKER, input, now)
      && (forall k :: k in w.db.outbox ==> k in w'.db.outbox && w'.db.outbox[k] == w.db.outbox[k])
      && var x :=
         EmissionOf(w.db.errands[Id()], w'.db.errands[Id()], CreditOrderOf(w.db.errands[Id()], ev, input, now));
         x.Emits? && x.row.kind.Credit() && x.row.payload.CommandPayload? ==> Waits(w', x)
  {
    hide Run, WorldInv, Do, Next, Enabled, Effect, EmissionOf, CreditOrderOf, Means, KeyOf, Apply, EditTarget,
         WellFormed, IsUuid, Commit, TakesCurrent, Keyed, OneCommand, IdsInv, KeyInv, NoticeInv, SagaInv, PastInv,
         AddRows, Fenced, KeysFree, Used, Rank;
    var w := Run(CREDITS, steps);
    var e := w.db.errands[Id()];
    RunKeepsInv(CREDITS, steps);
    PartsOfRun(w);
    ErrandOfRun(w, Id());
    NextMeans(e, ev, ASKER, input, now);
    var t := Next(e, ev, ASKER, input, now).value;
    MeansHeader(t, e, ev, ASKER, input, now);
    TakenWithoutFences(steps, ev, input, now);
    var g := UpdateFits(w.db, t, e, ev, ASKER, input, now);
    UpdateStores(w.db, t, e, ev, ASKER, input, now, g);
    EffectKeepsId(e, ev, ASKER, input, now);
    var db' := Commit(w.db, e, t);
    RowsAppear(w.db, db', g);
    StoresGrows(w.db, db', g);
    StepDecides(steps, ev, input, now);
    NotRevert(e, g.e, CreditOrderOf(e, ev, input, now));
    CommitFences(w.db, e, t);
    steps' := steps + [Decide(e, ev, ASKER, input, now)];
  }

  lemma NotRevert(e: Errand, e': Errand, o: CreditOrder)
    requires o != OrderRevert
    ensures var x := EmissionOf(e, e', o); x.Emits? ==> x.slot.op != AdjustRevert
  {
    hide KeyOf;
  }

  lemma CommitFences(db: Db, e: Errand, t: Transition)
    ensures Commit(db, e, t).fences == db.fences
  {
    hide AddRows, WriteReview;
  }

  lemma TakenWithoutFences(steps: seq<Step>, ev: Event, input: EventInput, now: Time)
    requires var w := Run(CREDITS, steps);
      w.db.fences == map[] && Id() in w.db.errands && Next(w.db.errands[Id()], ev, ASKER, input, now).Ok?
    ensures var w := Run(CREDITS, steps);
      var t := Next(w.db.errands[Id()], ev, ASKER, input, now).value;
        Apply(w.db, t) == Committed(Commit(w.db, w.db.errands[Id()], t))
  {
    hide Run, Next, Apply, EditTarget, Commit;
    TakesCurrentInRuns(CREDITS, steps);
  }

  lemma StepDecides(steps: seq<Step>, ev: Event, input: EventInput, now: Time)
    requires var w := Run(CREDITS, steps);
      && Id() in w.db.errands && !FromResult(ev, input) && w.db.errands[Id()].id == Id()
         && Next(w.db.errands[Id()], ev, ASKER, input, now).Ok?
      && var t := Next(w.db.errands[Id()], ev, ASKER, input, now).value;
      && Apply(w.db, t) == Committed(Commit(w.db, w.db.errands[Id()], t))
         && Id() in Commit(w.db, w.db.errands[Id()], t).errands
    ensures var w := Run(CREDITS, steps);
      var e := w.db.errands[Id()];
      var t := Next(e, ev, ASKER, input, now).value;
      var w' := Run(CREDITS, steps + [Decide(e, ev, ASKER, input, now)]);
      && w'.db == Commit(w.db, e, t) && w'.credit == w.credit && w'.wire == w.wire
  {
    hide Run, WorldInv, Next, Apply, Commit, FromResult, PastInv;
    var w := Run(CREDITS, steps);
    RunKeepsInv(CREDITS, steps);
    PastOfRun(w);
    StoredIsPast(w, Id());
    assert w.db.errands[Id()] in w.past;
    NextRun(steps, Decide(w.db.errands[Id()], ev, ASKER, input, now));
  }

  // ---------------------------------------------------------------- the first two steps

  lemma OpensWallet() returns (steps: seq<Step>)
    ensures var w := Run(CREDITS, steps);
      && w == Init(CREDITS).(credit := w.credit)
      && REQUESTER in w.credit.wallets && w.credit.wallets[REQUESTER].available == CREDITS
      && w.credit.reservations == map[] && w.credit.processed == map[] && w.credit.tombstones == {}
  {
    var open := OpenWallet(Id(), REQUESTER);
    steps := [open];
    assert steps[..0] == [];
    assert Run(CREDITS, []) == Init(CREDITS);
    assert MatchesUuid(Id()) && SubjectOk(REQUESTER);
  }

  lemma SubmitEnabled()
    ensures Enabled(SUBMITTED, Submit, ASKER, NO_INPUT, 0) && Fresh(SUBMITTED)
  {
    assert DETAILS.contactName[0] == 'K' && DETAILS.contactMobile[0] == '1';
    assert IsUuid(Id());
  }

  const RESERVING := SUBMITTED.(status := PendingReservation, version := 1)

  lemma SubmitsErrand(steps: seq<Step>) returns (steps': seq<Step>)
    requires var w := Run(CREDITS, steps); w == Init(CREDITS).(credit := w.credit)
    ensures var w, w' := Run(CREDITS, steps), Run(CREDITS, steps');
      && Plain(w'.db) && w'.credit == w.credit && w'.wire == {} && w'.handlers == map[]
      && Id() in w'.db.errands && w'.db.errands[Id()] == RESERVING
      && Waits(w', EmissionOf(SUBMITTED, RESERVING, OrderReserve))
  {
    hide Run, Next, Means, WorldInv, KeyOf, Commit, IdsInv, KeyInv, NoticeInv, AddRows, KeysFree, Keyed, OneCommand,
         WellFormed, Used, Rank, DetailsOk;
    var w := Run(CREDITS, steps);
    SubmitEnabled();
    NextMeans(SUBMITTED, Submit, ASKER, NO_INPUT, 0);
    RunKeepsInv(CREDITS, steps);
    PartsOfRun(w);
    var t := Next(SUBMITTED, Submit, ASKER, NO_INPUT, 0).value;
    var g := CompositeSubmit.SubmitFits(w.db, t, SUBMITTED, 0);
    var db' := Commit(w.db, SUBMITTED, t).(createKeys := map[(REQUESTER, "key") := Id()]);
    CompositeSubmit.SubmitStores(w.db, t, SUBMITTED, 0, g, map[(REQUESTER, "key") := Id()]);
    RowsAppear(w.db, db', g);
    CommitFences(w.db, SUBMITTED, t);
    MeansHeader(t, SUBMITTED, Submit, ASKER, NO_INPUT, 0);
    NextRun(steps, SubmitErrand(SUBMITTED, 0));
    steps' := steps + [SubmitErrand(SUBMITTED, 0)];
    assert Create(w.db, SUBMITTED, t) == Committed(db');
  }

  // ---------------------------------------------------------------- commands reach credit-service

  lemma Delivers(steps: seq<Step>, x: Saga.Emission) returns (steps': seq<Step>)
    requires var w := Run(CREDITS, steps); Plain(w.db) && Waits(w, x)
    ensures var w, w' := Run(CREDITS, steps), Run(CREDITS, steps');
      && x.row.kind.Credit() && x.row.payload.CommandPayload?
      && w'.db == w.db && w'.handlers == w.handlers
      && w'.credit == Process(w.credit, x.row.key, Saga.ToCommand(x.row))
  {
    hide Run, KeyOf, Process;
    var key := KeyOf(Id(), x.slot);
    var publish, deliver := Publish(key), DeliverCommand(MessageOf(x.row));
    NextRun(steps, publish);
    NextRun(steps + [publish], deliver);
    steps' := steps + [publish] + [deliver];
  }

  lemma ShortKeys()
    ensures 0 < |KeyOf(Id(), Saga.RESERVE)| <= MAX_MESSAGE_ID_LENGTH
    ensures 0 < |KeyOf(Id(), Slot(Adjust, 2))| <= MAX_MESSAGE_ID_LENGTH
  {
    KeySplits(Id(), Saga.RESERVE);
    KeySplits(Id(), Slot(Adjust, 2));
    ItoaLength(2, 1);
  }

  lemma SameId()
    ensures Lower(Id()) == Id()
  {
    LowerUuid(Id());
  }

  /** credit-service reserves the reward. */
  lemma Reserves(c: Credit)
    requires REQUESTER in c.wallets && c.wallets[REQUESTER].available == CREDITS
    requires c.reservations == map[] && c.processed == map[] && c.tombstones == {} && Economy.Books(c)
    ensures var key := KeyOf(Id(), Saga.RESERVE);
      var c' := Process(c, key, ReserveCommand(Id(), 1, REQUESTER, 10));
      && c'.reservations == map[Id() := Reservation(REQUESTER, 10, Active, 0)]
      && c'.processed == map[key := ReservedResult(10)]
      && Reply(key, Id(), 1, ReservedResult(10)) in c'.outbox
      && REQUESTER in c'.wallets && c'.wallets[REQUESTER].available == 90
  {
    hide KeyOf, Economy.Books, HasKey, MatchesUuid, Id, Lower;
    ShortKeys();
    SameId();
    assert SubjectOk(REQUESTER);
    Economy.ReserveKeepsBooks(c, Id(), REQUESTER, 10);
  }

  /** credit-service applies the raise. */
  lemma Raises(c: Credit)
    requires REQUESTER in c.wallets && c.wallets[REQUESTER].available == 90
    requires c.reservations == map[Id() := Reservation(REQUESTER, 10, Active, 0)]
    requires KeyOf(Id(), Slot(Adjust, 2)) !in c.processed
    requires Economy.Books(c)
    ensures var key := KeyOf(Id(), Slot(Adjust, 2));
      var c' := Process(c, key, AdjustCommand(Id(), 2, REQUESTER, 20, 4));
      && c'.reservations == map[Id() := Reservation(REQUESTER, 20, Active, 4)]
      && key in c'.processed && c'.processed[key].AdjustedResult?
  {
    hide KeyOf, Economy.Books, HasKey, MatchesUuid, Id, Lower, Wallets.AdjustKey;
    ShortKeys();
    SameId();
    assert SubjectOk(REQUESTER);
    Economy.AdjustKeepsBooks(c, Id(), REQUESTER, 20, 4);
  }

  // ---------------------------------------------------------------- the errand opens

  const RESERVED := Reply(KeyOf(Id(), Saga.RESERVE), Id(), 1, ReservedResult(10))

  ghost predicate AtStage(w: World, w0: World, s: Stage) {
    w == w0.(handlers := map[0 := Handler(RESERVED, 0, s)])
  }

  lemma Reads(steps: seq<Step>) returns (steps': seq<Step>, t: Transition)
    requires var w := Run(CREDITS, steps);
      w.handlers == map[] && Id() in w.db.errands && w.db.errands[Id()] == RESERVING && RESERVED in w.credit.outbox
    ensures AtStage(Run(CREDITS, steps'), Run(CREDITS, steps), Applying(t, RESERVING))
    ensures Next(RESERVING, ReservationConfirmed, SYSTEM, NO_INPUT, 1) == Ok(t)
  {
    hide Run, Next, KeyOf, Id;
    var receive, read := Receive(0, RESERVED), ReadErrand(0, 1);
    NextRun(steps, receive);
    NextRun(steps + [receive], read);
    NextAccepts(RESERVING, ReservationConfirmed, SYSTEM, NO_INPUT, 1);
    t := Next(RESERVING, ReservationConfirmed, SYSTEM, NO_INPUT, 1).value;
    steps' := steps + [receive] + [read];
  }

  const OPENED := RESERVING.(status := Open, version := 2, updatedAt := 1)

  /** The confirmation commits. */
  lemma OpenCommits(w: World, t: Transition)
    requires Plain(w.db) && w.db.errands[Id()] == RESERVING
    requires Next(RESERVING, ReservationConfirmed, SYSTEM, NO_INPUT, 1) == Ok(t)
    requires IdsInv(w.db) && KeyInv(w.db) && NoticeInv(w.db)
    ensures var db' := Commit(w.db, RESERVING, t); Plain(db') && db'.errands[Id()] == OPENED
    ensures t.errandId == Id()
  {
    hide Next, Enabled, Means, KeyOf, WellFormed, Commit, Keyed, OneCommand, IdsInv, KeyInv, NoticeInv, AddRows,
         KeysFree, Used, Rank, Id;
    NextMeans(RESERVING, ReservationConfirmed, SYSTEM, NO_INPUT, 1);
    MeansHeader(t, RESERVING, ReservationConfirmed, SYSTEM, NO_INPUT, 1);
    var g := UpdateFits(w.db, t, RESERVING, ReservationConfirmed, SYSTEM, NO_INPUT, 1);
    UpdateStores(w.db, t, RESERVING, ReservationConfirmed, SYSTEM, NO_INPUT, 1, g);
    RowsAppear(w.db, Commit(w.db, RESERVING, t), g);
    CommitFences(w.db, RESERVING, t);
  }

  lemma WritesOpen(steps: seq<Step>, w0: World, t: Transition) returns (steps': seq<Step>)
    requires AtStage(Run(CREDITS, steps), w0, Applying(t, RESERVING)) && Plain(w0.db)
    requires w0.db.errands[Id()] == RESERVING
    requires Next(RESERVING, ReservationConfirmed, SYSTEM, NO_INPUT, 1) == Ok(t)
    ensures var w' := Run(CREDITS, steps'); Plain(w'.db) && w'.credit == w0.credit && w'.db.errands[Id()] == OPENED
  {
    hide Run, WorldInv, Next, KeyOf, Apply, Commit, IdsInv, KeyInv, NoticeInv, SagaInv, Id, HandlerOk,
         NoLostReservation, Plain;
    var w := Run(CREDITS, steps);
    RunKeepsInv(CREDITS, steps);
    HandlersOfRun(w);
    PartsOfRun(w);
    assert Id() in w.db.errands by { PlainStores(w.db); }
    OpenCommits(w, t);
    PlainStores(Commit(w.db, RESERVING, t));
    ResultWrite(w, w.handlers[0]);
    NextRun(steps, WriteErrand(0));
    steps' := steps + [WriteErrand(0)];
  }

  lemma PlainStores(db: Db)
    requires Plain(db)
    ensures Id() in db.errands
  {
  }

  // ---------------------------------------------------------------- the raise and the cancellation

  const RAISE := NO_INPUT.(edit := Some(RAISED))
  const EDITING := OPENED.(updatedAt := 2, pendingEdit := Some(PendingEdit(RAISED, KeyOf(Id(), Slot(Adjust, 2)), 2)))
  const ENDED := EDITING.(status := Cancelled, version := 3, updatedAt := 3, pendingEdit := None)

  lemma RaiseEnabled()
    ensures Enabled(OPENED, Edit, ASKER, RAISE, 2) && Effect(OPENED, Edit, ASKER, RAISE, 2) == EDITING
    ensures Enabled(EDITING, Cancel, ASKER, NO_INPUT, 3) && Effect(EDITING, Cancel, ASKER, NO_INPUT, 3) == ENDED
  {
    hide KeyOf, Id;
    assert DETAILS.contactName[0] == 'K' && DETAILS.contactMobile[0] == '1';
  }

  lemma RowsOfCommands()
    ensures var x := EmissionOf(SUBMITTED, RESERVING, OrderReserve);
      && x.Emits? && x.row.kind.Credit() && x.row.payload.CommandPayload? && x.row.key == KeyOf(Id(), Saga.RESERVE)
      && Saga.ToCommand(x.row) == ReserveCommand(Id(), 1, REQUESTER, 10)
    ensures CreditOrderOf(OPENED, Edit, RAISE, 2) == OrderAdjust
      && CreditOrderOf(EDITING, Cancel, NO_INPUT, 3) == OrderRelease
    ensures var x := EmissionOf(OPENED, EDITING, OrderAdjust);
      && x.Emits? && x.row.kind.Credit() && x.row.payload.CommandPayload? && x.slot == Slot(Adjust, 2)
         && x.row.key == KeyOf(Id(), x.slot)
      && Saga.ToCommand(x.row) == AdjustCommand(Id(), 2, REQUESTER, 20, 4)
  {
    hide KeyOf, Id;
  }

  lemma KeysDiffer()
    ensures KeyOf(Id(), Slot(Adjust, 2)) != KeyOf(Id(), Saga.RESERVE)
  {
    UuidColonFree(Id());
    if KeyOf(Id(), Slot(Adjust, 2)) == KeyOf(Id(), Saga.RESERVE) {
      KeyInjective(Id(), Slot(Adjust, 2), Id(), Saga.RESERVE);
    }
  }

  /** The errand is open and its reward of 10 is reserved. */
  lemma OpensErrand() returns (steps: seq<Step>)
    ensures var w := Run(CREDITS, steps);
      && Plain(w.db) && w.db.errands[Id()] == OPENED
      && REQUESTER in w.credit.wallets && w.credit.wallets[REQUESTER].available == 90
      && w.credit.reservations == map[Id() := Reservation(REQUESTER, 10, Active, 0)]
      && w.credit.processed == map[KeyOf(Id(), Saga.RESERVE) := ReservedResult(10)]
  {
    hide Run, KeyOf, Id, Process, Plain, Waits, Economy.Books, EmissionOf, Saga.ToCommand;
    steps := OpensWallet();
    var credit := Run(CREDITS, steps).credit;
    DeliveryTheorems.BooksInSystemRuns(CREDITS, steps);
    Reserves(credit);
    RowsOfCommands();
    steps := SubmitsErrand(steps);
    steps := Delivers(steps, EmissionOf(SUBMITTED, RESERVING, OrderReserve));
    var reserved := Run(CREDITS, steps);
    var t: Transition;
    steps, t := Reads(steps);
    steps := WritesOpen(steps, reserved, t);
  }

  /** The requester raised the reward to 20 and credit-service applied the raise. */
  lemma RaisesReward() returns (steps: seq<Step>)
    ensures var w := Run(CREDITS, steps);
      && Plain(w.db) && Id() in w.db.errands && w.db.errands[Id()] == EDITING
      && w.credit.reservations == map[Id() := Reservation(REQUESTER, 20, Active, 4)]
      && var key := KeyOf(Id(), Slot(Adjust, 2));
         key in w.db.outbox && key in w.credit.processed && w.credit.processed[key].AdjustedResult?
  {
    hide Run, KeyOf, Id, Process, Enabled, Effect, Economy.Books, EmissionOf, CreditOrderOf, Saga.ToCommand;
    steps := OpensErrand();
    DeliveryTheorems.BooksInSystemRuns(CREDITS, steps);
    KeysDiffer();
    Raises(Run(CREDITS, steps).credit);
    RaiseEnabled();
    RowsOfCommands();
    steps := Decides(steps, Edit, RAISE, 2);
    steps := Delivers(steps, EmissionOf(OPENED, EDITING, OrderAdjust));
  }

  /** The run: an active reservation of 20 for a cancelled errand whose reward is 10, with nothing pending and no
      revert. */
  lemma TrackingFails() returns (steps: seq<Step>)
    ensures var w := Run(CREDITS, steps);
      && Id() in w.db.errands && ReservedAs(w.credit, Id(), Active) && Quiescent(w, Id()) && EndedMidEdit(w, Id())
      && w.credit.reservations[Id()].amount == 20 && w.db.errands[Id()].details.reward == 10
  {
    hide Run, KeyOf, Id, Enabled, Effect, EmissionOf, CreditOrderOf, Quiescent, Waits;
    steps := RaisesReward();
    RaiseEnabled();
    RowsOfCommands();
    steps := Decides(steps, Cancel, NO_INPUT, 3);
    PlainIsQuiescent(Run(CREDITS, steps));
  }

  lemma PlainIsQuiescent(w: World)
    requires Plain(w.db) && w.db.errands[Id()].pendingEdit.None?
    ensures Quiescent(w, Id())
  {
    hide KeyOf, DoneView, PartOf;
  }
}
