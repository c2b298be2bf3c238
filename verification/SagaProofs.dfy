/** Every step of one errand's protocol keeps its invariant. */
module SagaProofs {
  import opened Keys
  import opened Errands
  import opened Wallets
  import opened Saga

  // ---------------------------------------------------------------- order-service steps

  /** Finished errands do not move. */
  lemma MovesFrom(s: State, e': Errand, x: Emission)
    requires Moves(s, e', x)
    ensures s.e.status == PendingReservation || Holding(s.e.status)
    ensures e'.id == s.e.id && e'.requesterId == s.e.requesterId
  {
    hide RowOk;
  }

  /** Rows do not depend on what moves change: a transfer row, which does, is the last. */
  lemma RowSurvives(e: Errand, e': Errand, y: Slot, row: OutboxRow)
    requires RowOk(e, y, row) && e'.id == e.id && e'.requesterId == e.requesterId && y.op != Transfer
    ensures RowOk(e', y, row)
  {
    hide KeyOf;
  }

  lemma EmittedRowOk(s: State, e': Errand, x: Emission)
    requires Moves(s, e', x)
    ensures x.Emits? ==> RowOk(e', x.slot, x.row)
  {
    hide RowOk;
  }

  lemma TransferSlot(e: Errand, y: Slot, row: OutboxRow)
    requires RowOk(e, y, row) && y.op == Transfer
    ensures y == TRANSFER
  {
    hide KeyOf;
  }

  lemma MoveKeepsRowOk(s: State, e': Errand, x: Emission)
    requires RowsInv(s) && Moves(s, e', x)
    ensures var s' := AfterMove(s, e', x); forall y :: y in s'.rows ==> RowOk(e', y, s'.rows[y])
  {
    MovesFrom(s, e', x);
    EmittedRowOk(s, e', x);
    hide RowOk, Moves;
    forall y | y in s.rows
      ensures RowOk(e', y, s.rows[y])
    {
      if y.op == Transfer {
        TransferSlot(s.e, y, s.rows[y]);
      } else {
        RowSurvives(s.e, e', y, s.rows[y]);
      }
    }
  }

  lemma MoveKeepsRows(s: State, e': Errand, x: Emission)
    requires RowsInv(s) && Moves(s, e', x)
    ensures RowsInv(AfterMove(s, e', x))
  {
    MoveKeepsRowOk(s, e', x);
    MoveKeepsAdjusts(s, e', x);
    MoveKeepsEnds(s, e', x);
    hide RowOk, AdjustsInv, EndsInv, Moves;
  }

  lemma MoveKeepsAdjusts(s: State, e': Errand, x: Emission)
    requires AdjustsInv(s) && Moves(s, e', x)
    ensures AdjustsInv(AfterMove(s, e', x))
  {
    hide RowOk;
  }

  lemma MoveKeepsEnds(s: State, e': Errand, x: Emission)
    requires EndsInv(s) && Moves(s, e', x)
    ensures EndsInv(AfterMove(s, e', x))
  {
    hide RowOk;
  }

  lemma MoveKeepsStatus(s: State, e': Errand, x: Emission)
    requires StatusInv(s) && Moves(s, e', x)
    ensures StatusInv(AfterMove(s, e', x))
  {
    hide KeyOf;
  }

  lemma MoveKeepsDropped(s: State, e': Errand, x: Emission)
    requires RowsInv(s) && StatusInv(s) && Moves(s, e', x)
    ensures DroppedInv(AfterMove(s, e', x))
  {
    hide RowOk;
  }

  lemma MoveKeepsAnswers(s: State, e': Errand, x: Emission)
    requires AnswerInv(s) && Moves(s, e', x)
    ensures AnswerInv(AfterMove(s, e', x))
  {
    hide RowOk;
  }

  /** The rows and results of settled commands survive a move. */
  lemma MoveKeepsReservation(s: State, e': Errand, x: Emission)
    requires RowsInv(s) && AnswerInv(s) && ReservationInv(s) && Moves(s, e', x)
    ensures ReservationInv(AfterMove(s, e', x))
  {
    hide RowOk;
  }

  lemma MoveKeepsSeq(s: State, e': Errand, x: Emission)
    requires RowsInv(s) && AnswerInv(s) && SeqInv(s) && Moves(s, e', x)
    ensures SeqInv(AfterMove(s, e', x))
  {
    hide RowOk;
  }

  lemma MoveKeepsLedger(s: State, e': Errand, x: Emission)
    requires RowsInv(s) && AnswerInv(s) && ReservationInv(s) && LedgerInv(s) && Moves(s, e', x)
    ensures LedgerInv(AfterMove(s, e', x))
  {
    MovesFrom(s, e', x);
    hide Moves, RowOk, AvailableOn, ReservedOn, Payments, OnlyOn;
  }

  /** A confirmed edit becomes the new base; every other move keeps the old one. */
  lemma MoveKeepsBase(s: State, e': Errand, x: Emission, c: nat)
    requires RowsInv(s) && StatusInv(s) && BaseAt(s, c) && Moves(s, e', x)
    ensures BaseAt(AfterMove(s, e', x), if ConfirmsEdit(s, e', x) then s.e.version else c)
  {
    MovesFrom(s, e', x);
    hide KeyOf;
    if ConfirmsEdit(s, e', x) {
      ConfirmSetsBase(s, e', x);
    } else if Closes(s, e', x) {
      CloseKeepsBase(s, e', x, c);
    } else if Reverts(s, e', x) {
      RevertKeepsBase(s, e', x, c);
    } else if RequestsEdit(s, e', x) {
      RequestKeepsBase(s, e', x, c);
    } else if RefusesEdit(s, e', x) {
      RefusalKeepsBase(s, e', x, c);
    } else {
      QuietMoveKeepsBase(s, e', x, c);
    }
  }

  lemma ConfirmSetsBase(s: State, e': Errand, x: Emission)
    requires RowsInv(s) && StatusInv(s) && ConfirmsEdit(s, e', x)
    ensures BaseAt(AfterMove(s, e', x), s.e.version)
  {
    hide KeyOf;
  }

  lemma CloseKeepsBase(s: State, e': Errand, x: Emission, c: nat)
    requires RowsInv(s) && StatusInv(s) && BaseAt(s, c) && Closes(s, e', x)
    ensures BaseAt(AfterMove(s, e', x), c)
  {
    hide RowOk;
    var s' := AfterMove(s, e', x);
    forall y | y in s'.rows && y.op == Adjust && c < y.version < s'.e.version
      ensures EditUndone(s', y.version)
    {
      CloseUndoes(s, e', x, c, y);
    }
    hide EditUndone;
  }

  lemma CloseUndoes(s: State, e': Errand, x: Emission, c: nat, y: Slot)
    requires RowsInv(s) && StatusInv(s) && BaseAt(s, c) && Closes(s, e', x)
    requires y in s.rows && y.op == Adjust && c < y.version <= s.e.version
    ensures EditUndone(AfterMove(s, e', x), y.version)
  {
    hide RowOk;
    if y.version == s.e.version {
      assert y == Slot(Adjust, s.e.version);
    } else {
      assert EditUndone(s, y.version);
    }
  }

  lemma RevertKeepsBase(s: State, e': Errand, x: Emission, c: nat)
    requires RowsInv(s) && StatusInv(s) && BaseAt(s, c) && Reverts(s, e', x)
    ensures BaseAt(AfterMove(s, e', x), c)
  {
    hide RowsInv, StatusInv, Reverts, BaseReward, LaterUndone, RevertsToBase;
    RevertKeepsReward(s, e', x, c);
    assert AdjustsInv(s) by { AdjustsOf(s); }
    RevertUndoes(s, e', x, c);
    RevertsAgree(s, e', x, c);
  }

  lemma AdjustsOf(s: State)
    requires RowsInv(s)
    ensures AdjustsInv(s)
  {
    hide RowOk, AdjustsInv;
  }

  lemma RevertKeepsReward(s: State, e': Errand, x: Emission, c: nat)
    requires BaseReward(s, c) && Reverts(s, e', x)
    ensures BaseReward(AfterMove(s, e', x), c)
  {
    hide RowOk;
  }

  lemma RevertsAgree(s: State, e': Errand, x: Emission, c: nat)
    requires RevertsToBase(s, c) && Reverts(s, e', x)
    ensures RevertsToBase(AfterMove(s, e', x), c)
  {
    hide RowOk;
  }

  lemma RevertUndoes(s: State, e': Errand, x: Emission, c: nat)
    requires AdjustsInv(s) && LaterUndone(s, c) && Reverts(s, e', x)
    ensures LaterUndone(AfterMove(s, e', x), c)
  {
    hide RowOk, EditUndone;
    var s' := AfterMove(s, e', x);
    forall y | y in s'.rows && y.op == Adjust && c < y.version < s'.e.version
      ensures EditUndone(s', y.version)
    {
      assert y in s.rows;
      if y.version < s.e.version {
        assert EditUndone(s, y.version);
      }
      RevertUndoesOne(s, e', x, y.version);
    }
  }

  lemma RevertUndoesOne(s: State, e': Errand, x: Emission, v: nat)
    requires Reverts(s, e', x) && v <= s.e.version && (v < s.e.version ==> EditUndone(s, v))
    ensures EditUndone(AfterMove(s, e', x), v)
  {
    hide RowOk;
    if v == s.e.version {
      assert Slot(AdjustRevert, v + 1) == x.slot;
    } else {
      assert !Dropped(s);
    }
  }

  lemma RequestKeepsBase(s: State, e': Errand, x: Emission, c: nat)
    requires RowsInv(s) && StatusInv(s) && BaseAt(s, c) && RequestsEdit(s, e', x)
    ensures BaseAt(AfterMove(s, e', x), c)
  {
    hide RowOk;
    var s' := AfterMove(s, e', x);
    forall y | y in s'.rows && y.op == Adjust && c < y.version < s'.e.version
      ensures EditUndone(s', y.version)
    {
      assert y in s.rows && s'.rows[y] == s.rows[y];
      assert EditUndone(s, y.version) && !Dropped(s);
    }
    assert forall y :: y in s'.rows && y.op == AdjustRevert ==> y in s.rows && s'.rows[y] == s.rows[y];
  }

  lemma RefusalKeepsBase(s: State, e': Errand, x: Emission, c: nat)
    requires RowsInv(s) && StatusInv(s) && BaseAt(s, c) && RefusesEdit(s, e', x)
    ensures BaseAt(AfterMove(s, e', x), c)
  {
    hide RowOk, EndsInv, StatusInv;
    var s' := AfterMove(s, e', x);
    forall y | y in s'.rows && y.op == Adjust && c < y.version < s'.e.version
      ensures EditUndone(s', y.version)
    {
      assert y in s.rows && y.version <= s.e.version;
      if y.version == s.e.version {
        assert y == Slot(Adjust, s.e.version);
      } else {
        assert EditUndone(s, y.version) && !Dropped(s);
      }
    }
    hide EditUndone, RowsInv;
  }

  lemma QuietMoveKeepsBase(s: State, e': Errand, x: Emission, c: nat)
    requires RowsInv(s) && StatusInv(s) && BaseAt(s, c)
    requires Opens(s, e', x) || Refuses(s, e', x) || EditsInPlace(s, e', x) || Progresses(s, e', x) || Pays(s, e', x)
    ensures BaseAt(AfterMove(s, e', x), c)
  {
    hide RowOk;
    var s' := AfterMove(s, e', x);
    forall y | y in s'.rows && y.op == Adjust && c < y.version < s'.e.version
      ensures EditUndone(s', y.version)
    {
      assert y in s.rows && y.version < s.e.version;
      assert EditUndone(s, y.version) && !Dropped(s);
    }
    hide EditUndone;
  }

  /** Every order-service step keeps the invariant. */
  lemma MoveKeepsInv(s: State, e': Errand, x: Emission)
    requires Inv(s) && Moves(s, e', x)
    ensures Inv(AfterMove(s, e', x))
  {
    MoveKeepsRows(s, e', x);
    MoveKeepsStatus(s, e', x);
    MoveKeepsDropped(s, e', x);
    MoveKeepsAnswers(s, e', x);
    MoveKeepsReservation(s, e', x);
    MoveKeepsSeq(s, e', x);
    MoveKeepsLedger(s, e', x);
    var c: nat :| BaseAt(s, c);
    MoveKeepsBase(s, e', x, c);
    hide RowsInv, StatusInv, DroppedInv, AnswerInv, ReservationInv, SeqInv, LedgerInv, BaseAt, Moves, ConfirmsEdit;
  }

  // ---------------------------------------------------------------- credit-service steps

  /** A remembered result changes neither the errand nor its rows. */
  lemma AnswerKeepsOrderSide(s: State, x: Slot, a: Answer)
    requires RowsInv(s) && StatusInv(s) && DroppedInv(s) && AnswerInv(s) && Answers(s, x, a)
    ensures RowsInv(AfterAnswer(s, x, a)) && StatusInv(AfterAnswer(s, x, a)) && DroppedInv(AfterAnswer(s, x, a))
    ensures AnswerInv(AfterAnswer(s, x, a))
  {
    var s' := AfterAnswer(s, x, a);
    hide RowsInv, StatusInv, DroppedInv, AnswerInv, Answers;
    AnswerKeepsAnswers(s, x, a);
    SameRows(s, s');
    SameStatus(s, s');
    SameDropped(s, s');
  }

  lemma SameRows(s: State, s': State)
    requires RowsInv(s) && s'.e == s.e && s'.rows == s.rows
    ensures RowsInv(s')
  {
    hide RowOk;
  }

  lemma SameStatus(s: State, s': State)
    requires StatusInv(s) && s'.e == s.e && s'.rows == s.rows
    ensures StatusInv(s')
  {
  }

  lemma SameDropped(s: State, s': State)
    requires DroppedInv(s) && s'.e == s.e && s'.rows == s.rows
    ensures DroppedInv(s')
  {
  }

  lemma AnswerKeepsAnswers(s: State, x: Slot, a: Answer)
    requires AnswerInv(s) && Answers(s, x, a)
    ensures AnswerInv(AfterAnswer(s, x, a))
  {
    hide RowOk;
    AnswersFit(s, x, a);
    hide Answers, AnswerFits;
  }

  lemma AnswersFit(s: State, x: Slot, a: Answer)
    requires Answers(s, x, a)
    ensures x in s.rows && x !in s.done && AnswerFits(x.op, a.r)
  {
  }

  lemma AnswerKeepsBase(s: State, x: Slot, a: Answer, c: nat)
    requires x !in s.done && BaseAt(s, c)
    ensures BaseAt(AfterAnswer(s, x, a), c)
  {
  }

  lemma SeqSlotOf(e: Errand, x: Slot, row: OutboxRow)
    requires RowOk(e, x, row) && (x.op == Adjust || x.op == AdjustRevert)
    ensures Cmd(row).seqNo > 0 && SeqSlot(Cmd(row).seqNo) == x
  {
    hide KeyOf;
  }

  lemma AnswerKeepsReservation(s: State, x: Slot, a: Answer)
    requires RowsInv(s) && AnswerInv(s) && ReservationInv(s) && Answers(s, x, a)
    ensures ReservationInv(AfterAnswer(s, x, a))
  {
    if x.op == Adjust || x.op == AdjustRevert {
      SeqSlotOf(s.e, x, s.rows[x]);
      AdjustKeepsReservation(s, x, a);
    } else {
      assert RowOk(s.e, x, s.rows[x]);
      OtherKeepsReservation(s, x, a);
    }
  }

  lemma AdjustKeepsReservation(s: State, x: Slot, a: Answer)
    requires x.op == Adjust || x.op == AdjustRevert
    requires x in s.rows && Cmd(s.rows[x]).seqNo > 0 && SeqSlot(Cmd(s.rows[x]).seqNo) == x
    requires Cmd(s.rows[x]).newAmount > 0
    requires AnswerInv(s) && ReservationInv(s) && Answers(s, x, a)
    ensures ReservationInv(AfterAnswer(s, x, a))
  {
    hide SeqSlot, AnswerFits;
  }

  lemma OtherKeepsReservation(s: State, x: Slot, a: Answer)
    requires x in s.rows && RowOk(s.e, x, s.rows[x])
    requires AnswerInv(s) && ReservationInv(s) && Answers(s, x, a)
    requires x.op != Adjust && x.op != AdjustRevert
    ensures ReservationInv(AfterAnswer(s, x, a))
  {
    hide KeyOf, SeqSlot, AnswerFits, TransferEntries;
  }

  lemma AnswerKeepsSeq(s: State, x: Slot, a: Answer)
    requires RowsInv(s) && SeqInv(s) && Answers(s, x, a)
    ensures SeqInv(AfterAnswer(s, x, a))
  {
    hide RowOk, TransferEntries;
  }

  lemma SumsAppend(entries: seq<LedgerEntry>, x: LedgerEntry, wallet: string)
    ensures AvailableOn(entries + [x], wallet)
         == AvailableOn(entries, wallet) + if x.wallet == wallet then x.availableDelta else 0
    ensures ReservedOn(entries + [x], wallet)
         == ReservedOn(entries, wallet) + if x.wallet == wallet then x.reservedDelta else 0
    ensures Payments(entries + [x]) == Payments(entries) + if x.kind == TransferIn then 1 else 0
  {
    assert (entries + [x])[..|entries|] == entries;
  }

  lemma {:induction false} NothingElsewhere(entries: seq<LedgerEntry>, wallets: set<string>, other: string)
    requires OnlyOn(entries, wallets) && other !in wallets
    ensures AvailableOn(entries, other) == 0 && ReservedOn(entries, other) == 0
  {
    if entries != [] {
      NothingElsewhere(entries[..|entries| - 1], wallets, other);
    }
  }

  /** A transfer pays the courier exactly `amount` and returns the rest of the reservation to its owner. */
  lemma TransferSums(entries: seq<LedgerEntry>, r: Reservation, order: string, courier: string, amount: int)
    requires r.wallet != courier && OnlyOn(entries, {r.wallet}) && Payments(entries) == 0
    requires AvailableOn(entries, r.wallet) == -r.amount && ReservedOn(entries, r.wallet) == r.amount
    ensures var after := entries + TransferEntries(r, order, courier, amount);
      && OnlyOn(after, {r.wallet, courier}) && Payments(after) == 1
      && AvailableOn(after, r.wallet) == -amount && ReservedOn(after, r.wallet) == 0
      && AvailableOn(after, courier) == amount && ReservedOn(after, courier) == 0
  {
    var out, into, surplus := TransferOutEntry(r, order, courier, amount), TransferInEntry(r, order, courier, amount),
                              SurplusEntry(r, order, amount);
    var one := entries + [out];
    var two := one + [into];
    SumsAppend(entries, out, r.wallet);
    SumsAppend(entries, out, courier);
    SumsAppend(one, into, r.wallet);
    SumsAppend(one, into, courier);
    SumsAppend(two, surplus, r.wallet);
    SumsAppend(two, surplus, courier);
    NothingElsewhere(entries, {r.wallet}, courier);
    assert entries + [out, into] == two;
    assert entries + [out, into, surplus] == two + [surplus];
  }

  lemma AnswerKeepsLedger(s: State, x: Slot, a: Answer)
    requires RowsInv(s) && StatusInv(s) && AnswerInv(s) && ReservationInv(s) && LedgerInv(s) && Answers(s, x, a)
    ensures LedgerInv(AfterAnswer(s, x, a))
  {
    assert RowOk(s.e, x, s.rows[x]);
    if a.extra == [] {
      assert s.entries + a.extra == s.entries;
      QuietAnswerKeepsLedger(s, x, a);
    } else if x.op == Transfer {
      TransferKeepsLedger(s, x, a);
    } else {
      PostKeepsLedger(s, x, a);
    }
  }

  lemma QuietAnswerKeepsLedger(s: State, x: Slot, a: Answer)
    requires a.extra == [] && s.entries + a.extra == s.entries
    requires ReservationInv(s) && LedgerInv(s) && Answers(s, x, a)
    ensures LedgerInv(AfterAnswer(s, x, a))
  {
    hide AvailableOn, ReservedOn, Payments, OnlyOn;
  }

  lemma TransferKeepsLedger(s: State, x: Slot, a: Answer)
    requires x in s.rows && RowOk(s.e, x, s.rows[x]) && x.op == Transfer && a.extra != []
    requires ReservationInv(s) && LedgerInv(s) && Answers(s, x, a)
    ensures LedgerInv(AfterAnswer(s, x, a))
  {
    hide KeyOf;
    var r, d := s.res.value, Cmd(s.rows[x]);
    TransferSums(s.entries, r, d.errandId, d.courierId, d.amount);
    hide AvailableOn, ReservedOn, Payments, OnlyOn, TransferEntries;
  }

  lemma PostKeepsLedger(s: State, x: Slot, a: Answer)
    requires x in s.rows && RowOk(s.e, x, s.rows[x]) && x.op != Transfer && a.extra != []
    requires ReservationInv(s) && LedgerInv(s) && Answers(s, x, a)
    ensures LedgerInv(AfterAnswer(s, x, a))
  {
    PostedEntry(s, x, a);
    PostedSums(s, x, a);
  }

  lemma PostedSums(s: State, x: Slot, a: Answer)
    requires |a.extra| == 1 && a.extra[0].wallet == s.e.requesterId && a.extra[0].kind != TransferIn
    requires a.res.Some? && a.res.value.status != Transferred
    requires var held := if s.res.Some? then s.res.value.amount else 0;
             var holds := if a.res.value.status == Active then a.res.value.amount else 0;
             a.extra[0].availableDelta == held - holds && a.extra[0].reservedDelta == holds - held
    requires LedgerInv(s) && (s.res.Some? ==> s.res.value.status == Active)
    ensures LedgerInv(AfterAnswer(s, x, a))
  {
    SumsAppend(s.entries, a.extra[0], s.e.requesterId);
    assert s.entries + a.extra == s.entries + [a.extra[0]];
    assert AvailableOn([], s.e.requesterId) == 0 && ReservedOn([], s.e.requesterId) == 0 && Payments([]) == 0;
    hide AvailableOn, ReservedOn, Payments;
  }

  /** The single entry a reserve, adjust or release posts moves the owner's credits between the two balances. */
  lemma PostedEntry(s: State, x: Slot, a: Answer)
    requires x in s.rows && RowOk(s.e, x, s.rows[x]) && x.op != Transfer && a.extra != []
    requires ReservationInv(s) && Answers(s, x, a)
    ensures a.extra == [a.extra[0]] && a.extra[0].wallet == s.e.requesterId && a.extra[0].kind != TransferIn
    ensures a.res.Some? && a.res.value.status != Transferred
    ensures var held := if s.res.Some? then s.res.value.amount else 0;
            var holds := if a.res.value.status == Active then a.res.value.amount else 0;
            a.extra[0].availableDelta == held - holds && a.extra[0].reservedDelta == holds - held
    ensures s.res.Some? ==> s.res.value.status == Active
  {
    hide KeyOf, SeqSlot, ReservationInv;
  }

  /** Every command credit-service handles for the first time keeps the invariant. */
  lemma AnswerKeepsInv(s: State, x: Slot, a: Answer)
    requires Inv(s) && Answers(s, x, a)
    ensures Inv(AfterAnswer(s, x, a))
  {
    AnswerKeepsOrderSide(s, x, a);
    AnswerKeepsReservation(s, x, a);
    AnswerKeepsSeq(s, x, a);
    AnswerKeepsLedger(s, x, a);
    var c: nat :| BaseAt(s, c);
    AnswerKeepsBase(s, x, a, c);
    hide RowsInv, StatusInv, DroppedInv, AnswerInv, ReservationInv, SeqInv, LedgerInv, BaseAt, Answers;
  }

  // ---------------------------------------------------------------- what the invariant gives

  /** Every revert this errand sent was answered "adjusted". */
  ghost predicate RevertsAnswered(s: State) {
    forall x :: x in s.rows && x.op == AdjustRevert ==> AnsweredAdjusted(s, x)
  }

  /** The reservation holds exactly the reward, once no edit is pending and every revert was answered "adjusted" --
      unless the errand ended by dropping an edit whose adjust had already been applied. */
  lemma ReservationTracksReward(s: State)
    requires Inv(s) && s.res.Some? && s.res.value.status == Active
    requires s.e.pendingEdit.None? && RevertsAnswered(s)
    ensures s.res.value.amount == s.e.details.reward
            <==> !(Dropped(s) && AnsweredAdjusted(s, Slot(Adjust, s.e.version - 1)))
  {
    hide KeyOf;
    var c: nat :| BaseAt(s, c);
    var r := s.res.value;
    if Dropped(s) && AnsweredAdjusted(s, Slot(Adjust, s.e.version - 1)) {
      DroppedEditStays(s);
    } else {
      LastAdjustIsReward(s, c);
    }
  }

  lemma DroppedEditStays(s: State)
    requires RowsInv(s) && StatusInv(s) && DroppedInv(s) && ReservationInv(s) && SeqInv(s)
    requires s.res.Some? && s.res.value.status == Active && s.e.pendingEdit.None?
    requires Dropped(s) && AnsweredAdjusted(s, Slot(Adjust, s.e.version - 1))
    ensures s.res.value.amount != s.e.details.reward
  {
    hide StatusInv, EndsInv, RowOk;
    var dropped := Slot(Adjust, s.e.version - 1);
    var last := s.res.value.lastAdjustSeq;
    SeqSlotOf(s.e, dropped, s.rows[dropped]);
    SeqOf(s.e, dropped, s.rows[dropped]);
    assert 2 * dropped.version <= last;
    var x := SeqSlot(last);
    assert x.version <= s.e.version;
    assert x == dropped;
  }

  lemma SeqOf(e: Errand, x: Slot, row: OutboxRow)
    requires RowOk(e, x, row) && x.op == Adjust
    ensures Cmd(row).seqNo == 2 * x.version
  {
    hide KeyOf;
  }

  lemma LastAdjustIsReward(s: State, c: nat)
    requires RowsInv(s) && ReservationInv(s) && SeqInv(s) && BaseAt(s, c)
    requires s.res.Some? && s.res.value.status == Active && s.e.pendingEdit.None? && RevertsAnswered(s)
    requires !(Dropped(s) && AnsweredAdjusted(s, Slot(Adjust, s.e.version - 1)))
    ensures s.res.value.amount == s.e.details.reward
  {
    BaseIsApplied(s, c);
    NoNewerEdit(s, c);
    AmountOfLast(s, c);
  }

  lemma NoNewerEdit(s: State, c: nat)
    requires RowsInv(s) && ReservationInv(s) && SeqInv(s) && BaseAt(s, c)
    requires s.res.Some? && s.e.pendingEdit.None? && RevertsAnswered(s)
    requires !(Dropped(s) && AnsweredAdjusted(s, Slot(Adjust, s.e.version - 1)))
    ensures var last := s.res.value.lastAdjustSeq;
            last > 0 && SeqSlot(last).op == Adjust ==> SeqSlot(last).version <= c
  {
    var last := s.res.value.lastAdjustSeq;
    if last > 0 && SeqSlot(last).op == Adjust && SeqSlot(last).version > c {
      UndoneIsOutdated(s, SeqSlot(last).version);
    }
    hide RowOk, EditUndone;
  }

  lemma AmountOfLast(s: State, c: nat)
    requires ReservationInv(s) && BaseAt(s, c) && s.res.Some?
    requires 2 * c <= s.res.value.lastAdjustSeq
    requires var last := s.res.value.lastAdjustSeq;
             last > 0 && SeqSlot(last).op == Adjust ==> SeqSlot(last).version <= c
    ensures s.res.value.amount == s.e.details.reward
  {
    hide EditUndone;
  }

  lemma BaseIsApplied(s: State, c: nat)
    requires RowsInv(s) && SeqInv(s) && BaseAt(s, c) && s.res.Some? && s.res.value.lastAdjustSeq >= 0
    ensures 2 * c <= s.res.value.lastAdjustSeq
  {
    hide KeyOf, EditUndone;
    if c > 0 {
      var a := Slot(Adjust, c);
      assert RowOk(s.e, a, s.rows[a]);
    }
  }

  /** An applied adjust that was undone has been overtaken by its revert. */
  lemma UndoneIsOutdated(s: State, v: nat)
    requires RowsInv(s) && SeqInv(s) && s.res.Some? && RevertsAnswered(s)
    requires AnsweredAdjusted(s, Slot(Adjust, v)) && EditUndone(s, v)
    requires !(Dropped(s) && AnsweredAdjusted(s, Slot(Adjust, s.e.version - 1)))
    ensures 2 * v < s.res.value.lastAdjustSeq
  {
    hide KeyOf;
    var revert := Slot(AdjustRevert, v + 1);
    assert revert in s.rows && RowOk(s.e, revert, s.rows[revert]);
  }
}
