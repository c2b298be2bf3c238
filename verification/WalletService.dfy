/** credit-service's wallet commands, statement by statement. Each runs in a transaction: an error rolls everything
    back. */
module WalletService {
  import opened Wallets
  import opened Economy
  import CompositeCredit

  datatype OpResult = Done(result: Result) | Failed(error: Error)

  /** What a caller sees of a judged command. */
  function Seen(j: Judged): (r: OpResult) {
    if j.Settled? then Done(j.result) else Failed(j.error)
  }

  datatype WalletResult = Found(w: Wallet, created: bool) | WalletError(error: Error)

  class Service {
    const initialCredit: nat
    var wallets: map<string, Wallet>
    var reservations: map<string, Reservation>
    var ledger: seq<LedgerEntry>
    var tombstones: set<string>
    var processed: map<string, Result>
    var outbox: set<Reply>

    ghost function State(): (c: Credit)
      reads this
    {
      Credit(initialCredit, wallets, reservations, ledger, tombstones, processed, outbox)
    }

    constructor (initialCredit: nat)
      ensures State() == EmptyCredit(initialCredit) && Books(State())
    {
      this.initialCredit := initialCredit;
      wallets, reservations, ledger, tombstones, processed, outbox := map[], map[], [], {}, map[], {};
      new;
      EmptyBooks(initialCredit);
    }

    /** Refused by the unique key or by the non-zero constraint. */
    method InsertLedgerEntry(e: LedgerEntry) returns (ok: bool)
      modifies this`ledger
      ensures ok == CanInsert(old(ledger), e)
      ensures ledger == if ok then old(ledger) + [e] else old(ledger)
    {
      ok := e.availableDelta != 0 || e.reservedDelta != 0;
      var i := 0;
      while i < |ledger| && ok
        invariant 0 <= i <= |ledger| && ledger == old(ledger)
        invariant ok ==> (e.availableDelta != 0 || e.reservedDelta != 0) && !HasKey(ledger[..i], e.wallet, e.key)
        invariant !ok ==> !CanInsert(ledger, e)
      {
        if ledger[i].wallet == e.wallet && ledger[i].key == e.key {
          ok := false;
        }
        i := i + 1;
      }
      assert ok ==> ledger[..i] == ledger;
      if ok {
        ledger := ledger + [e];
      }
    }

    /** Refused by the non-negative balance constraints. */
    method ApplyDeltas(subject: string, da: int, dr: int) returns (ok: bool)
      requires subject in wallets
      modifies this`wallets
      ensures ok == CanApply(old(wallets)[subject], da, dr)
      ensures wallets == if ok then old(wallets)[subject := WithDeltas(old(wallets)[subject], da, dr)] else old(wallets)
    {
      var w := wallets[subject];
      ok := w.available + da >= 0 && w.reserved + dr >= 0;
      if ok {
        wallets := wallets[subject := w.(available := w.available + da, reserved := w.reserved + dr)];
      }
    }

    method Reserve(order: string, requester: string, amount: int) returns (r: OpResult)
      modifies this
      ensures r == Seen(JudgeReserve(old(State()), order, requester, amount))
      ensures r.Done? ==> State() == JudgeReserve(old(State()), order, requester, amount).credit
    {
      if order in tombstones {
        return Done(ReservationRefusedResult(ReservationReleased));
      }
      if order in reservations {
        return Done(ReservedResult(reservations[order].amount));
      }
      if requester !in wallets {
        return Done(ReservationRefusedResult(AccountNotFound));
      }
      if wallets[requester].available < amount {
        return Done(ReservationRefusedResult(InsufficientCredits));
      }
      var ok := InsertLedgerEntry(LedgerEntry(requester, ReserveEntry, -amount, amount, order, "", ReserveKey(order)));
      if !ok {
        return Failed(Database);
      }
      ok := ApplyDeltas(requester, -amount, amount);
      if !ok {
        return Failed(Database);
      }
      reservations := reservations[order := Reservation(requester, amount, Active, 0)];
      r := Done(ReservedResult(amount));
    }

    method Adjust(order: string, requester: string, newAmount: int, seqNo: int) returns (r: OpResult)
      requires seqNo > 0
      modifies this
      ensures r == Seen(JudgeAdjust(old(State()), order, requester, newAmount, seqNo))
      ensures r.Done? ==> State() == JudgeAdjust(old(State()), order, requester, newAmount, seqNo).credit
    {
      if order !in reservations {
        return Done(AdjustRefusedResult(ReservationNotActive, seqNo));
      }
      var res := reservations[order];
      if requester !in wallets || res.wallet != requester {
        return Failed(Conflict);
      }
      if res.status != Active {
        return Done(AdjustRefusedResult(ReservationNotActive, seqNo));
      }
      if seqNo <= res.lastAdjustSeq {
        return Done(AdjustedResult(res.amount, seqNo));
      }
      var delta := newAmount - res.amount;
      if delta > wallets[requester].available {
        return Done(AdjustRefusedResult(InsufficientCredits, seqNo));
      }
      if delta != 0 {
        var ok := InsertLedgerEntry(LedgerEntry(requester, ReservationAdjust, -delta, delta, order, "",
                                                AdjustKey(order, seqNo)));
        if !ok {
          return Failed(Database);
        }
        ok := ApplyDeltas(requester, -delta, delta);
        if !ok {
          return Failed(Database);
        }
      }
      reservations := reservations[order := res.(amount := newAmount, lastAdjustSeq := seqNo)];
      r := Done(AdjustedResult(newAmount, seqNo));
    }

    method Release(order: string, requester: string) returns (r: OpResult)
      modifies this
      ensures r == Seen(JudgeRelease(old(State()), order, requester))
      ensures r.Done? ==> State() == JudgeRelease(old(State()), order, requester).credit
    {
      if order !in reservations {
        tombstones := tombstones + {order};
        return Done(ReleasedResult);
      }
      var res := reservations[order];
      if requester !in wallets || res.wallet != requester {
        return Failed(Conflict);
      }
      if res.status == Released {
        return Done(ReleasedResult);
      }
      if res.status == Transferred {
        return Done(OperationFailedResult(ReservationAlreadyTransferred));
      }
      var ok := InsertLedgerEntry(LedgerEntry(requester, ReleaseEntry, res.amount, -res.amount, order, "",
                                              ReleaseKey(order)));
      if !ok {
        return Failed(Database);
      }
      ok := ApplyDeltas(requester, res.amount, -res.amount);
      if !ok {
        return Failed(Database);
      }
      reservations := reservations[order := res.(status := Released)];
      r := Done(ReleasedResult);
    }

    /** The entries of a transfer, and whether each of them was taken. */
    method InsertTransfer(res: Reservation, order: string, courier: string, amount: int) returns (ok: bool)
      modifies this`ledger
      ensures var out, into, surplus := TransferOutEntry(res, order, courier, amount),
          TransferInEntry(res, order, courier, amount),
                                        SurplusEntry(res, order, amount);
        && ok == (CanInsert(old(ledger), out) && CanInsert(old(ledger) + [out], into)
                  && (surplus.availableDelta > 0 ==> CanInsert(old(ledger) + [out, into], surplus)))
        && (ok ==> ledger == old(ledger) + if surplus.availableDelta > 0 then [out, into, surplus] else [out, into])
    {
      hide CanInsert;
      var fromReservation := Min(res.amount, amount);
      var surplus := res.amount - fromReservation;
      var out := TransferOutEntry(res, order, courier, amount);
      var into := TransferInEntry(res, order, courier, amount);
      assert old(ledger) + [out, into] == old(ledger) + [out] + [into];
      ok := InsertLedgerEntry(out);
      if ok {
        ok := InsertLedgerEntry(into);
      }
      if ok && surplus > 0 {
        assert old(ledger) + [out, into, SurplusEntry(res, order, amount)] == old(ledger) + [out, into]
          + [SurplusEntry(res, order, amount)];
        ok := InsertLedgerEntry(SurplusEntry(res, order, amount));
      }
    }

    method Transfer(order: string, requester: string, courier: string, amount: int) returns (r: OpResult)
      requires requester != courier
      modifies this
      ensures r == Seen(JudgeTransfer(old(State()), order, requester, courier, amount))
      ensures r.Done? ==> State() == JudgeTransfer(old(State()), order, requester, courier, amount).credit
    {
      hide CanInsert, TransferKey, SurplusKey;
      if order !in reservations {
        return Done(OperationFailedResult(if order in tombstones then ReservationAlreadyReleased
                                          else ReservationNotFound));
      }
      if requester !in wallets || courier !in wallets {
        return Done(OperationFailedResult(AccountNotFound));
      }
      var res := reservations[order];
      if res.wallet != requester {
        return Failed(Conflict);
      }
      if res.status == Transferred {
        return Done(TransferredResult);
      }
      if res.status == Released {
        return Done(OperationFailedResult(ReservationAlreadyReleased));
      }
      var fromReservation := Min(res.amount, amount);
      var shortfall, surplus := amount - fromReservation, res.amount - fromReservation;
      if shortfall > wallets[requester].available {
        return Done(OperationFailedResult(InsufficientCredits));
      }
      var ok := InsertTransfer(res, order, courier, amount);
      if !ok {
        return Failed(Database);
      }
      ok := ApplyDeltas(requester, surplus - shortfall, -res.amount);
      if !ok {
        return Failed(Database);
      }
      ok := ApplyDeltas(courier, amount, 0);
      if !ok {
        return Failed(Database);
      }
      reservations := reservations[order := res.(status := Transferred)];
      r := Done(TransferredResult);
    }

    method Run(cmd: Command) returns (r: OpResult)
      requires CommandOk(cmd)
      modifies this
      ensures r == Seen(Judge(old(State()), cmd))
      ensures r.Done? ==> State() == Judge(old(State()), cmd).credit
    {
      hide JudgeReserve, JudgeAdjust, JudgeRelease, JudgeTransfer, SubjectOk, MatchesUuid;
      match cmd
      case ReserveCommand(order, _, requester, amount) => r := Reserve(Lower(order), requester, amount);
      case AdjustCommand(order, _, requester, newAmount, seqNo) =>
        r := Adjust(Lower(order), requester, newAmount, seqNo);
      case ReleaseCommand(order, _, requester) => r := Release(Lower(order), requester);
      case TransferCommand(order, _, requester, courier, amount) =>
        r := Transfer(Lower(order), requester, courier, amount);
    }

    /** A repeat uses the stored result; a first handling runs and is remembered unless it failed. */
    method RunOnce(message: string, cmd: Command) returns (r: OpResult)
      requires CommandOk(cmd)
      modifies this
      ensures var c := old(State());
        var judged := if message in c.processed then Settled(c, c.processed[message]) else Judge(c, cmd);
        && r == Seen(judged)
        && (r.Done? ==> State() == Remember(judged.credit, message, judged.result))
    {
      hide Judge, CommandOk;
      if message in processed {
        r := Done(processed[message]);
        assert processed[message := processed[message]] == processed;
      } else {
        r := this.Run(cmd);
        if r.Done? && !r.result.OperationFailedResult? {
          processed := processed[message := r.result];
          assert r.Done?;
          assert State() == Remember(Judge(old(State()), cmd).credit, message, r.result) by {
            CompositeCredit.JudgeTouches(old(State()), cmd);
          }
        }
      }
    }

    /** One delivery of a command: the database afterwards is `Process`'s, whatever happens, and its books balance. */
    method Handle(message: string, cmd: Command) returns (r: OpResult)
      modifies this
      ensures r == Seen(Execute(old(State()), message, cmd))
      ensures State() == Process(old(State()), message, cmd)
      ensures Books(old(State())) ==> Books(State())
    {
      hide Books, Judge, CommandOk, Remember, Lower;
      ghost var before := State();
      if Books(before) {
        ProcessKeepsBooks(before, message, cmd);
      }
      if !CommandOk(cmd) || message == "" || |message| > MAX_MESSAGE_ID_LENGTH {
        return Failed(Invalid);
      }
      // The transaction's snapshot.
      var wallets0, reservations0, ledger0, tombstones0, processed0, outbox0 := wallets, reservations, ledger,
        tombstones, processed, outbox;
      r := RunOnce(message, cmd);
      if r.Done? && cmd.version < 1 {
        r := Failed(Database);
      }
      if r.Done? {
        outbox := outbox + {Reply(message, Lower(cmd.order), cmd.version, r.result)};
      } else {
        wallets, reservations, ledger, tombstones, processed, outbox := wallets0, reservations0, ledger0, tombstones0,
          processed0, outbox0;
      }
    }

    /** Creates the owner's wallet with its initial allocation, once; a repeat returns it and a clash changes
        nothing. */
    method CreateWallet(owner: string, subject: string) returns (r: WalletResult)
      modifies this
      ensures State() == Wallets.CreateWallet(old(State()), owner, subject)
      ensures Books(old(State())) ==> Books(State()) && r != WalletError(Database)
      ensures r.Found? ==> subject in wallets && r.w == wallets[subject] && r.w.owner == Lower(owner)
      ensures r.Found? && r.created ==> subject !in old(wallets) && r.w.available == initialCredit && r.w.reserved == 0
      ensures r.Found? && !r.created ==> State() == old(State())
      ensures r.WalletError? ==> State() == old(State())
      ensures r == WalletError(Invalid) <==> !MatchesUuid(owner) || !SubjectOk(subject)
    {
      hide Books, MatchesUuid, SubjectOk, Lower, HasKey;
      ghost var before := State();
      if Books(before) {
        CreateKeepsBooks(before, owner, subject);
        NewSubjectUnused(before, subject);
      }
      if !MatchesUuid(owner) || !SubjectOk(subject) {
        return WalletError(Invalid);
      }
      var id := Lower(owner);
      var subjects := set s | s in wallets && wallets[s].owner == id;
      if subjects != {} {
        assert OwnerHasWallet(before, id);
        if subject !in subjects {
          return WalletError(Conflict);
        }
        return Found(wallets[subject], false);
      }
      assert forall s :: s in wallets ==> s !in subjects;
      assert !OwnerHasWallet(before, id);
      if subject in wallets {
        return WalletError(Conflict);
      }
      // The transaction's snapshot.
      var wallets0 := wallets;
      wallets := wallets[subject := Wallet(id, 0, 0)];
      if initialCredit > 0 {
        var ok := InsertLedgerEntry(LedgerEntry(subject, Allocate, initialCredit, 0, "", "", INITIAL_ALLOCATION_KEY));
        if !ok {
          wallets := wallets0;
          return WalletError(Database);
        }
        ok := ApplyDeltas(subject, initialCredit, 0);
      }
      r := Found(wallets[subject], true);
    }
  }

  lemma NewSubjectUnused(c: Credit, subject: string)
    requires Books(c)
    ensures subject !in c.wallets ==> forall key :: !HasKey(c.ledger, subject, key)
  {
    hide Conserved, NonNegative, ReservedIsHeld, LedgerRebuilds, KeysUnique;
    if subject !in c.wallets {
      UnknownWallet(c, subject);
    }
  }
}
