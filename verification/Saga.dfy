/** One errand's side of the credit protocol: the errand, the credit commands it has emitted, the results
    credit-service remembers for them, and its reservation. The whole system projects onto one of these per
    errand (module `Composite`), so what is proved here holds of every errand in every run. */
module Saga {
  import opened Prelude
  import opened Keys
  import opened Errands
  import opened StateMachine
  import opened Wallets

  /** `rows` are the emitted credit commands, `done` the remembered results, `entries` the order's ledger entries. */
  datatype State = State(
    e: Errand,
    rows: imap<Slot, OutboxRow>,
    done: imap<Slot, Result>,
    res: Option<Reservation>,
    tomb: bool,
    entries: seq<LedgerEntry>)

  const RESERVE := Slot(Reserve, 0)
  const RELEASE := Slot(Release, 0)
  const TRANSFER := Slot(Transfer, 0)

  /** The command a credit row carries. */
  function ToCommand(row: OutboxRow): (c: Command)
    requires row.kind.Credit() && row.payload.CommandPayload?
  {
    var d := row.payload.cmd;
    match row.kind
    case ReserveKind => ReserveCommand(d.errandId, d.errandVersion, d.requesterId, d.amount)
    case AdjustKind => AdjustCommand(d.errandId, d.errandVersion, d.requesterId, d.newAmount, d.seqNo)
    case ReleaseKind => ReleaseCommand(d.errandId, d.errandVersion, d.requesterId)
    case TransferKind => TransferCommand(d.errandId, d.errandVersion, d.requesterId, d.courierId, d.amount)
  }

  /** The command payload of a credit row. */
  function Cmd(row: OutboxRow): (d: CreditCommand) {
    if row.payload.CommandPayload? then row.payload.cmd else CreditCommand("", 0, "", "", 0, 0, 0)
  }

  // ---------------------------------------------------------------- order-service steps

  datatype Emission = Quiet | Emits(slot: Slot, row: OutboxRow)

  function AfterMove(s: State, e': Errand, x: Emission): (s': State) {
    s.(e := e', rows := if x.Quiet? then s.rows else s.rows[x.slot := x.row])
  }

  ghost predicate Bumps(e: Errand, e': Errand) {
    e'.id == e.id && e'.requesterId == e.requesterId && e'.version == e.version + 1 && e'.pendingEdit.None?
  }

  ghost predicate Opens(s: State, e': Errand, x: Emission) {
    && s.e.status == PendingReservation && e'.status == Open && x == Quiet
    && Bumps(s.e, e') && e'.details == s.e.details
    && RESERVE in s.done && s.done[RESERVE].ReservedResult?
  }

  ghost predicate Refuses(s: State, e': Errand, x: Emission) {
    && s.e.status == PendingReservation && e'.status == Rejected && x == Quiet
    && Bumps(s.e, e') && e'.details == s.e.details
    && RESERVE in s.done && s.done[RESERVE].ReservationRefusedResult?
  }

  ghost predicate EditsInPlace(s: State, e': Errand, x: Emission) {
    && s.e.status == Open && e'.status == Open && x == Quiet && s.e.pendingEdit.None?
    && Bumps(s.e, e') && e'.details.reward == s.e.details.reward
  }

  ghost predicate RequestsEdit(s: State, e': Errand, x: Emission) {
    && s.e.status == Open && s.e.pendingEdit.None?
    && e'.pendingEdit.Some? && e' == s.e.(pendingEdit := e'.pendingEdit, updatedAt := e'.updatedAt)
    && x.Emits? && x.slot == Slot(Adjust, s.e.version) && RowOk(e', x.slot, x.row)
    && Cmd(x.row).newAmount == e'.pendingEdit.value.details.reward != s.e.details.reward
  }

  ghost predicate ConfirmsEdit(s: State, e': Errand, x: Emission) {
    && s.e.status == Open && e'.status == Open && x == Quiet && s.e.pendingEdit.Some?
    && Bumps(s.e, e') && e'.details == s.e.pendingEdit.value.details
    && Slot(Adjust, s.e.version) in s.done && s.done[Slot(Adjust, s.e.version)].AdjustedResult?
  }

  ghost predicate RefusesEdit(s: State, e': Errand, x: Emission) {
    && s.e.status == Open && e'.status == Open && x == Quiet && s.e.pendingEdit.Some?
    && Bumps(s.e, e') && e'.details == s.e.details
    && Slot(Adjust, s.e.version) in s.done && s.done[Slot(Adjust, s.e.version)].AdjustRefusedResult?
  }

  /** A timed-out edit, or an accept that drops one. */
  ghost predicate Reverts(s: State, e': Errand, x: Emission) {
    && s.e.status == Open && (e'.status == Open || e'.status == Assigned) && s.e.pendingEdit.Some?
    && Bumps(s.e, e') && e'.details == s.e.details
    && x.Emits? && x.slot == Slot(AdjustRevert, e'.version) && RowOk(e', x.slot, x.row)
    && Cmd(x.row).newAmount == s.e.details.reward
  }

  /** Any step between states that hold the reservation and leave it alone. */
  ghost predicate Progresses(s: State, e': Errand, x: Emission) {
    && Holding(s.e.status) && Holding(e'.status) && x == Quiet && s.e.pendingEdit.None?
    && Bumps(s.e, e') && e'.details == s.e.details
  }

  ghost predicate Closes(s: State, e': Errand, x: Emission) {
    && (if s.e.status == PendingReservation then e'.status == Rejected
        else Holding(s.e.status) && (e'.status == Cancelled || e'.status == Expired || e'.status == Refunded))
    && (s.e.pendingEdit.Some? ==> e'.status != Refunded)
    && Bumps(s.e, e') && e'.details == s.e.details
    && x.Emits? && x.slot == RELEASE && RowOk(e', x.slot, x.row)
  }

  ghost predicate Pays(s: State, e': Errand, x: Emission) {
    && Holding(s.e.status) && e'.status == Completed && s.e.pendingEdit.None?
    && Bumps(s.e, e') && e'.details == s.e.details
    && e'.courierId != e'.requesterId
    && x.Emits? && x.slot == TRANSFER && RowOk(e', x.slot, x.row)
  }

  /** Every change order-service makes to a stored errand is one of these. */
  ghost predicate Moves(s: State, e': Errand, x: Emission) {
    || Opens(s, e', x) || Refuses(s, e', x)
    || EditsInPlace(s, e', x) || RequestsEdit(s, e', x) || ConfirmsEdit(s, e', x) || RefusesEdit(s, e', x)
    || Reverts(s, e', x) || Progresses(s, e', x) || Closes(s, e', x) || Pays(s, e', x)
  }

  // ---------------------------------------------------------------- credit-service steps

  /** What a command handled for the first time does to the order: its result, reservation, tombstone and new
      entries. */
  datatype Answer = Answer(r: Result, res: Option<Reservation>, tomb: bool, extra: seq<LedgerEntry>)

  function AfterAnswer(s: State, x: Slot, a: Answer): (s': State) {
    s.(done := s.done[x := a.r], res := a.res, tomb := a.tomb, entries := s.entries + a.extra)
  }

  ghost predicate ChangesNothing(s: State, a: Answer) {
    a.res == s.res && a.tomb == s.tomb && a.extra == []
  }

  ghost predicate ReserveAnswer(s: State, d: CreditCommand, a: Answer) {
    || (a.r.ReservationRefusedResult? && ChangesNothing(s, a) && (s.tomb || s.res.None?))
    || (s.res.Some? && !s.tomb && a.r == ReservedResult(s.res.value.amount) && ChangesNothing(s, a))
    || (s.res.None? && !s.tomb && a.r == ReservedResult(d.amount) && !a.tomb
        && a.res == Some(Reservation(d.requesterId, d.amount, Active, 0))
        && a.extra
           == [LedgerEntry(d.requesterId, ReserveEntry, -d.amount, d.amount, d.errandId, "",
                           Wallets.ReserveKey(d.errandId))])
  }

  ghost predicate AdjustAnswer(s: State, d: CreditCommand, a: Answer) {
    || (a.r.AdjustRefusedResult? && ChangesNothing(s, a))
    || (s.res.Some? && s.res.value.status == Active && d.seqNo <= s.res.value.lastAdjustSeq
        && a.r == AdjustedResult(s.res.value.amount, d.seqNo) && ChangesNothing(s, a))
    || (s.res.Some? && s.res.value.status == Active && d.seqNo > s.res.value.lastAdjustSeq
        && a.r == AdjustedResult(d.newAmount, d.seqNo) && a.tomb == s.tomb
        && a.res == Some(s.res.value.(amount := d.newAmount, lastAdjustSeq := d.seqNo))
        && var delta := d.newAmount - s.res.value.amount;
           if delta == 0 then a.extra == []
           else |a.extra| == 1 && a.extra[0].kind == ReservationAdjust && a.extra[0].wallet == d.requesterId
                && a.extra[0].availableDelta == -delta && a.extra[0].reservedDelta == delta)
  }

  ghost predicate ReleaseAnswer(s: State, d: CreditCommand, a: Answer) {
    && a.r == ReleasedResult
    && match s.res
       case None => a.res == None && a.tomb && a.extra == []
       case Some(r) =>
         || (r.status == Released && ChangesNothing(s, a))
         || (r.status == Active && a.res == Some(r.(status := Released)) && a.tomb == s.tomb
             && a.extra
                == [LedgerEntry(d.requesterId, ReleaseEntry, r.amount, -r.amount, d.errandId, "",
                                Wallets.ReleaseKey(d.errandId))])
  }

  ghost predicate TransferAnswer(s: State, d: CreditCommand, a: Answer) {
    && a.r == TransferredResult && s.res.Some?
    && var r := s.res.value;
    && r.wallet == d.requesterId != d.courierId
    && ((r.status == Transferred && ChangesNothing(s, a))
        || (r.status == Active && a.res == Some(r.(status := Transferred)) && a.tomb == s.tomb
            && a.extra == TransferEntries(r, d.errandId, d.courierId, d.amount)))
  }

  function TransferEntries(r: Reservation, order: string, courier: string, amount: int): (entries: seq<LedgerEntry>) {
    var out, into, surplus := TransferOutEntry(r, order, courier, amount), TransferInEntry(r, order, courier, amount),
                              SurplusEntry(r, order, amount);
    if surplus.availableDelta > 0 then [out, into, surplus] else [out, into]
  }

  /** credit-service handles the command in slot `x` for the first time and remembers its result. */
  ghost predicate Answers(s: State, x: Slot, a: Answer) {
    && x in s.rows && x !in s.done
    && match x.op
       case Reserve => ReserveAnswer(s, Cmd(s.rows[x]), a)
       case Adjust | AdjustRevert => AdjustAnswer(s, Cmd(s.rows[x]), a)
       case Release => ReleaseAnswer(s, Cmd(s.rows[x]), a)
       case Transfer => TransferAnswer(s, Cmd(s.rows[x]), a)
       case _ => false
  }

  // ---------------------------------------------------------------- states

  /** States in which the courier's reward must be backed. */
  predicate Holding(st: Status) {
    st == Open || st == Assigned || st == PickedUp || st == Delivered || st == ReviewRequired
  }

  predicate Refunding(st: Status) {
    st == Rejected || st == Cancelled || st == Expired || st == Refunded
  }

  // ---------------------------------------------------------------- invariant

  /** What an emitted row of an errand looks like. */
  ghost predicate RowOk(e: Errand, slot: Slot, row: OutboxRow) {
    && row.payload.CommandPayload? && row.key == KeyOf(e.id, slot) && row.errandId == e.id
    && var d := row.payload.cmd;
    && d.errandId == e.id && d.requesterId == e.requesterId && d.errandVersion >= 1
    && match slot.op
       case Reserve => slot.version == 0 && row.kind == ReserveKind && d.amount > 0
       case Release => slot.version == 0 && row.kind == ReleaseKind
       case Transfer =>
         slot.version == 0 && row.kind == TransferKind && d.amount == e.details.reward > 0 && d.courierId == e.courierId
       case Adjust =>
         slot.version >= 1 && row.kind == AdjustKind && d.newAmount > 0 && d.seqNo == AdjustSeq(slot.version)
       case AdjustRevert =>
         slot.version >= 2 && row.kind == AdjustKind && d.newAmount > 0 && d.seqNo == RevertSeq(slot.version)
       case _ => false
  }

  /** Which rows exist, by the errand's state and version. */
  ghost predicate RowsInv(s: State) {
    && (forall x :: x in s.rows ==> RowOk(s.e, x, s.rows[x]))
    && AdjustsInv(s) && EndsInv(s)
  }

  ghost predicate AdjustsInv(s: State) {
    && (forall x :: x in s.rows && x.op == Adjust ==> x.version <= s.e.version)
    && (forall x :: x in s.rows && x.op == Adjust && x.version == s.e.version ==> s.e.pendingEdit.Some?)
    && (forall x :: x in s.rows && x.op == AdjustRevert ==> x.version <= s.e.version)
    && (forall x :: x in s.rows && x.op == AdjustRevert && x.version == s.e.version ==>
        s.e.status == Open || s.e.status == Assigned)
  }

  /** The reservation is asked for once and ended at most once. */
  ghost predicate EndsInv(s: State) {
    && RESERVE in s.rows
    && (RELEASE in s.rows ==> Refunding(s.e.status))
    && (TRANSFER in s.rows <==> s.e.status == Completed)
    && (s.e.status == Cancelled || s.e.status == Expired || s.e.status == Refunded ==> RELEASE in s.rows)
  }

  ghost predicate StatusInv(s: State) {
    && (s.e.status == PendingReservation || Holding(s.e.status) || Refunding(s.e.status) || s.e.status == Completed)
    && s.e.version >= 1
    && s.e.details.reward > 0
    && (s.e.status == Completed ==> s.e.courierId != s.e.requesterId)
    && (s.e.pendingEdit.Some? ==> s.e.status == Open && s.e.pendingEdit.value.details.reward > 0)
    && (s.e.pendingEdit.Some? ==>
          var a := Slot(Adjust, s.e.version);
          a in s.rows && Cmd(s.rows[a]).newAmount == s.e.pendingEdit.value.details.reward != s.e.details.reward)
    && (s.e.status == PendingReservation || s.e.status == Rejected ==>
          forall x :: x in s.rows ==> x.op != Adjust && x.op != AdjustRevert)
  }

  ghost predicate AnswerInv(s: State) {
    && (forall x :: x in s.done ==> x in s.rows)
    && (forall x :: x in s.done ==> AnswerFits(x.op, s.done[x]))
    && (Holding(s.e.status) || s.e.status == Completed || s.e.status == Cancelled || s.e.status == Expired
        || s.e.status == Refunded ==>
          RESERVE in s.done && s.done[RESERVE].ReservedResult?)
    && (s.e.status == Rejected ==>
        RELEASE in s.rows || (RESERVE in s.done && s.done[RESERVE].ReservationRefusedResult?))
  }

  /** The results a command can be remembered with. */
  predicate AnswerFits(op: Op, r: Result) {
    match op
    case Reserve => r.ReservedResult? || r.ReservationRefusedResult?
    case Adjust | AdjustRevert => r.AdjustedResult? || r.AdjustRefusedResult?
    case Release => r.ReleasedResult?
    case Transfer => r.TransferredResult?
    case _ => false
  }

  /** A pending edit was dropped by the release that ended the errand. */
  ghost predicate Dropped(s: State) {
    && (s.e.status == Cancelled || s.e.status == Expired)
    && s.e.version >= 1 && Slot(Adjust, s.e.version - 1) in s.rows
  }

  ghost predicate DroppedInv(s: State) {
    Dropped(s) ==> Cmd(s.rows[Slot(Adjust, s.e.version - 1)]).newAmount != s.e.details.reward
  }

  ghost predicate AnsweredAdjusted(s: State, x: Slot) {
    x in s.done && s.done[x].AdjustedResult?
  }

  /** `c` is the version of the last confirmed reward edit, or 0: the reward is what it asked for, every later edit
      was refused, reverted, is pending or was dropped, and every later revert asks for the same reward. */
  ghost predicate BaseAt(s: State, c: nat) {
    BaseReward(s, c) && LaterUndone(s, c) && RevertsToBase(s, c)
  }

  ghost predicate BaseReward(s: State, c: nat) {
    && (c == 0 ==> RESERVE in s.rows && Cmd(s.rows[RESERVE]).amount == s.e.details.reward)
    && (c > 0 ==> var a := Slot(Adjust, c);
                  a in s.rows && c < s.e.version && AnsweredAdjusted(s, a)
                    && Cmd(s.rows[a]).newAmount == s.e.details.reward)
  }

  ghost predicate LaterUndone(s: State, c: nat) {
    forall x :: x in s.rows && x.op == Adjust && c < x.version < s.e.version ==> EditUndone(s, x.version)
  }

  ghost predicate RevertsToBase(s: State, c: nat) {
    forall x :: x in s.rows && x.op == AdjustRevert && c < x.version ==> Cmd(s.rows[x]).newAmount == s.e.details.reward
  }

  ghost predicate EditUndone(s: State, v: nat) {
    || (Slot(Adjust, v) in s.done && s.done[Slot(Adjust, v)].AdjustRefusedResult?)
    || Slot(AdjustRevert, v + 1) in s.rows
    || (Dropped(s) && v + 1 == s.e.version)
  }

  ghost predicate BaseInv(s: State) {
    exists c: nat :: BaseAt(s, c)
  }

  /** The slot whose adjust carries a sequence number. */
  function SeqSlot(n: int): (x: Slot)
    requires n > 0
  {
    if n % 2 == 0 then Slot(Adjust, n / 2) else Slot(AdjustRevert, (n + 1) / 2)
  }

  ghost predicate ReservationInv(s: State) {
    && (s.res.None? ==> !(RESERVE in s.done && s.done[RESERVE].ReservedResult?))
    && (s.res.Some? ==>
          var r := s.res.value;
          && RESERVE in s.done && s.done[RESERVE].ReservedResult? && !s.tomb && r.wallet == s.e.requesterId
          && r.amount > 0 && r.lastAdjustSeq >= 0
          && (r.lastAdjustSeq == 0 ==> RESERVE in s.rows && r.amount == Cmd(s.rows[RESERVE]).amount)
          && (r.lastAdjustSeq > 0 ==>
                var x := SeqSlot(r.lastAdjustSeq);
                AnsweredAdjusted(s, x) && x in s.rows && r.amount == Cmd(s.rows[x]).newAmount)
          && (r.status == Released <==> RELEASE in s.done)
          && (r.status == Transferred <==> TRANSFER in s.done))
    && (s.res.None? ==> TRANSFER !in s.done && (s.tomb <==> RELEASE in s.done))
  }

  /** An adjust answered "adjusted" is never newer than the last one applied. */
  ghost predicate SeqInv(s: State) {
    forall x :: x in s.rows && (x.op == Adjust || x.op == AdjustRevert) && AnsweredAdjusted(s, x) ==>
      s.res.Some? && Cmd(s.rows[x]).seqNo <= s.res.value.lastAdjustSeq
  }

  // ---------------------------------------------------------------- the order's ledger entries

  function AvailableOn(entries: seq<LedgerEntry>, wallet: string): (sum: int) {
    if entries == [] then 0
    else
      var last := entries[|entries| - 1];
      AvailableOn(entries[..|entries| - 1], wallet) + if last.wallet == wallet then last.availableDelta else 0
  }

  function ReservedOn(entries: seq<LedgerEntry>, wallet: string): (sum: int) {
    if entries == [] then 0
    else
      var last := entries[|entries| - 1];
      ReservedOn(entries[..|entries| - 1], wallet) + if last.wallet == wallet then last.reservedDelta else 0
  }

  /** How many times the order has paid someone. */
  function Payments(entries: seq<LedgerEntry>): (n: nat) {
    if entries == [] then 0
    else Payments(entries[..|entries| - 1]) + (if entries[|entries| - 1].kind == TransferIn then 1 else 0)
  }

  ghost predicate OnlyOn(entries: seq<LedgerEntry>, wallets: set<string>) {
    forall i :: 0 <= i < |entries| ==> entries[i].wallet in wallets
  }

  /** What the order has done to each wallet. */
  ghost predicate LedgerInv(s: State) {
    var owner := s.e.requesterId;
    match s.res
    case None => s.entries == []
    case Some(r) =>
      match r.status
      case Active =>
        && OnlyOn(s.entries, {owner}) && Payments(s.entries) == 0
        && AvailableOn(s.entries, owner) == -r.amount && ReservedOn(s.entries, owner) == r.amount
      case Released =>
        && OnlyOn(s.entries, {owner}) && Payments(s.entries) == 0
        && AvailableOn(s.entries, owner) == 0 && ReservedOn(s.entries, owner) == 0
      case Transferred =>
        && OnlyOn(s.entries, {owner, s.e.courierId}) && Payments(s.entries) == 1
        && AvailableOn(s.entries, owner) == -s.e.details.reward && ReservedOn(s.entries, owner) == 0
        && AvailableOn(s.entries, s.e.courierId) == s.e.details.reward && ReservedOn(s.entries, s.e.courierId) == 0
  }

  ghost predicate Inv(s: State) {
    && RowsInv(s) && StatusInv(s) && AnswerInv(s) && DroppedInv(s) && BaseInv(s) && ReservationInv(s) && SeqInv(s)
       && LedgerInv(s)
  }
}
