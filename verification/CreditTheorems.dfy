/** Deliveries to credit-service: each message takes effect once, and an order's adjusts form a last-writer-wins
    register. */
module CreditTheorems {
  import opened Wallets
  import opened CompositeCredit
  import opened Economy

  // ---------------------------------------------------------------- exactly once

  datatype Delivery = Delivery(message: string, cmd: Command)

  function Deliveries(c: Credit, ds: seq<Delivery>): (c': Credit)
    decreases |ds|
  {
    if ds == [] then c else Deliveries(Process(c, ds[0].message, ds[0].cmd), ds[1..])
  }

  /** Everything but the replies recorded for sending. */
  function Effects(c: Credit): (c': Credit) {
    c.(outbox := {})
  }

  /** The delivery is judged, and its result remembered. */
  predicate TakesEffect(c: Credit, d: Delivery) {
    && d.message !in c.processed
    && var r := Execute(c, d.message, d.cmd);
       r.Settled? && !r.result.OperationFailedResult?
  }

  /** The deliveries that are the first settled one of their message. */
  function FirstSettled(c: Credit, ds: seq<Delivery>): (kept: seq<Delivery>)
    decreases |ds|
  {
    if ds == [] then []
    else
      var rest := FirstSettled(Process(c, ds[0].message, ds[0].cmd), ds[1..]);
      if TakesEffect(c, ds[0]) then [ds[0]] + rest else rest
  }

  /** What takes no effect changes no wallet, reservation, tombstone, ledger entry or remembered result. */
  lemma NoEffect(c: Credit, d: Delivery)
    requires !TakesEffect(c, d)
    ensures Effects(Process(c, d.message, d.cmd)) == Effects(c)
  {
    hide Judge, CommandOk;
    if CommandOk(d.cmd) {
      FailureTouchesNothing(c, d.cmd);
      if d.message in c.processed {
        assert c.processed[d.message := c.processed[d.message]] == c.processed;
      }
    }
  }

  /** The recorded replies influence nothing. */
  lemma JudgeIgnoresReplies(c: Credit, out: set<Reply>, cmd: Command)
    requires CommandOk(cmd)
    ensures var j, j' := Judge(c, cmd), Judge(c.(outbox := out), cmd);
      if j.Settled? then j'.Settled? && j'.result == j.result && Effects(j'.credit) == Effects(j.credit) else j' == j
  {
    hide CanInsert, MatchesUuid, SubjectOk, Lower;
    match cmd
    case TransferCommand(order, _, requester, courier, amount) =>
      TransferIgnoresReplies(c, out, Lower(order), requester, courier, amount);
      hide JudgeTransfer, JudgeReserve, JudgeAdjust, JudgeRelease, Effects;
    case ReserveCommand(order, _, requester, amount) => hide JudgeTransfer, JudgeAdjust, JudgeRelease;
    case AdjustCommand(order, _, requester, newAmount, seqNo) => hide JudgeTransfer, JudgeReserve, JudgeRelease;
    case ReleaseCommand(order, _, requester) => hide JudgeTransfer, JudgeReserve, JudgeAdjust;
  }

  lemma TransferIgnoresReplies(c: Credit, out: set<Reply>, o: string, requester: string, courier: string, amount: int)
    requires requester != courier
    ensures var j, j' := JudgeTransfer(c, o, requester, courier, amount),
        JudgeTransfer(c.(outbox := out), o, requester, courier, amount);
      if j.Settled? then j'.Settled? && j'.result == j.result && Effects(j'.credit) == Effects(j.credit) else j' == j
  {
    hide CanInsert;
  }

  lemma ProcessIgnoresReplies(c: Credit, out: set<Reply>, message: string, cmd: Command)
    ensures Effects(Process(c, message, cmd)) == Effects(Process(c.(outbox := out), message, cmd))
  {
    hide Judge, CommandOk, Lower;
    if CommandOk(cmd) {
      JudgeIgnoresReplies(c, out, cmd);
      if message !in c.processed && Judge(c, cmd).Settled? {
        SameRemembered(Judge(c, cmd).credit, Judge(c.(outbox := out), cmd).credit, message, Judge(c, cmd).result);
      }
    }
    hide Remember;
  }

  lemma SameRemembered(c: Credit, c': Credit, message: string, r: Result)
    requires Effects(c) == Effects(c')
    ensures Effects(Remember(c, message, r)) == Effects(Remember(c', message, r))
  {
  }

  lemma SameEffects(c: Credit, c': Credit, message: string, cmd: Command)
    requires Effects(c) == Effects(c')
    ensures Effects(Process(c, message, cmd)) == Effects(Process(c', message, cmd))
  {
    hide Process;
    assert c' == c.(outbox := c'.outbox);
    ProcessIgnoresReplies(c, c'.outbox, message, cmd);
  }

  lemma {:induction false} DeliveriesSameEffects(c: Credit, c': Credit, ds: seq<Delivery>)
    requires Effects(c) == Effects(c')
    ensures Effects(Deliveries(c, ds)) == Effects(Deliveries(c', ds))
    decreases |ds|
  {
    hide Process;
    if ds != [] {
      SameEffects(c, c', ds[0].message, ds[0].cmd);
      DeliveriesSameEffects(Process(c, ds[0].message, ds[0].cmd), Process(c', ds[0].message, ds[0].cmd), ds[1..]);
    }
  }

  /** A remembered result is never forgotten or replaced. */
  lemma ProcessRemembers(c: Credit, d: Delivery)
    ensures var c' := Process(c, d.message, d.cmd);
      && (forall k :: k in c.processed ==> k in c'.processed && c'.processed[k] == c.processed[k])
      && (TakesEffect(c, d) ==>
          d.message in c'.processed && c'.processed[d.message] == Execute(c, d.message, d.cmd).result)
  {
    hide Judge, CommandOk;
    if CommandOk(d.cmd) {
      JudgeTouches(c, d.cmd);
    }
    hide Touches;
  }

  lemma {:induction false} DeliveriesRemember(c: Credit, ds: seq<Delivery>, k: string)
    requires k in c.processed
    ensures k in Deliveries(c, ds).processed && Deliveries(c, ds).processed[k] == c.processed[k]
    decreases |ds|
  {
    hide Process, TakesEffect;
    if ds != [] {
      ProcessRemembers(c, ds[0]);
      DeliveriesRemember(Process(c, ds[0].message, ds[0].cmd), ds[1..], k);
    }
  }

  /** Different messages, none of them known before. */
  ghost predicate AllNew(kept: seq<Delivery>, processed: map<string, Result>) {
    && (forall i :: 0 <= i < |kept| ==> kept[i].message !in processed)
    && (forall i, j :: 0 <= i < j < |kept| ==> kept[i].message != kept[j].message)
  }

  lemma OneMoreNew(d: Delivery, rest: seq<Delivery>, before: map<string, Result>, after: map<string, Result>)
    requires AllNew(rest, after) && d.message !in before && d.message in after && forall k :: k in before ==> k in after
    ensures AllNew([d] + rest, before)
  {
  }

  lemma {:induction false} KeptAreFirst(c: Credit, ds: seq<Delivery>)
    ensures AllNew(FirstSettled(c, ds), c.processed)
    decreases |ds|
  {
    hide Process, Execute;
    if ds != [] {
      var c' := Process(c, ds[0].message, ds[0].cmd);
      KeptAreFirst(c', ds[1..]);
      ProcessRemembers(c, ds[0]);
      if TakesEffect(c, ds[0]) {
        OneMoreNew(ds[0], FirstSettled(c', ds[1..]), c.processed, c'.processed);
      }
    }
  }

  lemma {:induction false} OnlyFirstMatters(c: Credit, ds: seq<Delivery>)
    ensures Effects(Deliveries(c, ds)) == Effects(Deliveries(c, FirstSettled(c, ds)))
    decreases |ds|
  {
    hide Process, TakesEffect;
    if ds != [] {
      var c' := Process(c, ds[0].message, ds[0].cmd);
      var rest := FirstSettled(c', ds[1..]);
      OnlyFirstMatters(c', ds[1..]);
      if TakesEffect(c, ds[0]) {
        assert ([ds[0]] + rest)[1..] == rest;
      } else {
        NoEffect(c, ds[0]);
        DeliveriesSameEffects(c', c, rest);
      }
    }
  }

  /** For any state and any deliveries, however duplicated: the books end as if only the first settled delivery of each
      message had arrived, and once settled, a message returns the same result at every later point. */
  lemma ExactlyOnce(c: Credit, ds: seq<Delivery>, later: seq<Delivery>, d: Delivery)
    ensures Effects(Deliveries(c, ds)) == Effects(Deliveries(c, FirstSettled(c, ds)))
    ensures AllNew(FirstSettled(c, ds), c.processed)
    ensures TakesEffect(c, d) ==>
      var again := Execute(Deliveries(Process(c, d.message, d.cmd), later), d.message, d.cmd);
      again.Settled? && again.result == Execute(c, d.message, d.cmd).result
  {
    OnlyFirstMatters(c, ds);
    KeptAreFirst(c, ds);
    if TakesEffect(c, d) {
      ProcessRemembers(c, d);
      DeliveriesRemember(Process(c, d.message, d.cmd), later, d.message);
    }
    hide Judge, CommandOk, Deliveries, FirstSettled;
  }

  // ---------------------------------------------------------------- adjust is a last-writer-wins register

  datatype AdjustDelivery = AdjustDelivery(message: string, version: int, newAmount: int, seqNo: int)

  function AdjustOf(o: string, requester: string, d: AdjustDelivery): (cmd: Command) {
    AdjustCommand(o, d.version, requester, d.newAmount, d.seqNo)
  }

  function Adjusts(c: Credit, o: string, requester: string, ds: seq<AdjustDelivery>): (c': Credit) {
    if ds == [] then c
    else
      var d := ds[|ds| - 1];
      Process(Adjusts(c, o, requester, ds[..|ds| - 1]), d.message, AdjustOf(o, requester, d))
  }

  /** Valid adjusts of a canonical order, newer than the last applied; equal messages and equal sequence numbers carry
      equal adjusts, and no message was handled before. */
  ghost predicate AdjustStream(c: Credit, o: string, requester: string, last: int, ds: seq<AdjustDelivery>) {
    && Lower(o) == o
    && (forall i :: 0 <= i < |ds| ==>
          && CommandOk(AdjustOf(o, requester, ds[i])) && ds[i].version >= 1
             && 0 < |ds[i].message| <= MAX_MESSAGE_ID_LENGTH
          && ds[i].message !in c.processed && ds[i].seqNo > last)
    && (forall i, j :: 0 <= i < j < |ds| && (ds[i].message == ds[j].message || ds[i].seqNo == ds[j].seqNo) ==>
          ds[i].newAmount == ds[j].newAmount && ds[i].seqNo == ds[j].seqNo)
  }

  /** `d` is the newest adjust the requester can afford. */
  ghost predicate Newest(ds: seq<AdjustDelivery>, d: AdjustDelivery, cap: int) {
    d in ds && d.newAmount <= cap && forall j :: 0 <= j < |ds| && ds[j].newAmount <= cap ==> ds[j].seqNo <= d.seqNo
  }

  /** The register holds the newest affordable adjust, or what it held if there is none. */
  ghost predicate Holds(r: Reservation, r': Reservation, cap: int, ds: seq<AdjustDelivery>) {
    if (exists i :: 0 <= i < |ds| && ds[i].newAmount <= cap)
    then exists d :: Newest(ds, d, cap) && r' == r.(amount := d.newAmount, lastAdjustSeq := d.seqNo)
    else r' == r
  }

  /** What the register's wallet could reserve for the order. */
  function Cap(c: Credit, o: string): (n: int)
    requires o in c.reservations && c.reservations[o].wallet in c.wallets
  {
    c.wallets[c.reservations[o].wallet].available + c.reservations[o].amount
  }

  ghost predicate Register(c: Credit, c': Credit, o: string, ds: seq<AdjustDelivery>) {
    && o in c.reservations && c.reservations[o].wallet in c.wallets
    && o in c'.reservations && c'.reservations[o].wallet in c'.wallets
    && Holds(c.reservations[o], c'.reservations[o], Cap(c, o), ds)
    && c'.reservations[o].wallet == c.reservations[o].wallet && c'.reservations[o].status == Active
    && Cap(c', o) == Cap(c, o)
    && (forall m :: m in c'.processed && m !in c.processed ==> exists i :: 0 <= i < |ds| && ds[i].message == m)
  }

  /** One adjust: the register takes it exactly when it is newer and affordable. */
  lemma OneAdjust(c: Credit, o: string, d: AdjustDelivery)
    requires o in c.reservations && c.reservations[o].wallet in c.wallets && c.reservations[o].status == Active
    requires d.seqNo > 0
    requires var r := c.reservations[o]; JudgeAdjust(c, o, r.wallet, d.newAmount, d.seqNo).Settled?
    ensures var r := c.reservations[o];
      var c' := JudgeAdjust(c, o, r.wallet, d.newAmount, d.seqNo).credit;
      && c'.processed == c.processed && o in c'.reservations && c'.reservations[o].wallet in c'.wallets
      && c'.reservations[o] == (if d.seqNo > r.lastAdjustSeq && d.newAmount <= Cap(c, o)
                                then r.(amount := d.newAmount, lastAdjustSeq := d.seqNo) else r)
      && Cap(c', o) == Cap(c, o)
  {
    hide CanInsert;
  }

  lemma HoldsMore(r: Reservation, r1: Reservation, cap: int, ds: seq<AdjustDelivery>, d: AdjustDelivery)
    requires Holds(r, r1, cap, ds) && d.seqNo > r.lastAdjustSeq
    requires forall i :: 0 <= i < |ds| && ds[i].seqNo == d.seqNo ==> ds[i].newAmount == d.newAmount
    ensures var r2 := if d.seqNo > r1.lastAdjustSeq && d.newAmount <= cap
      then r1.(amount := d.newAmount, lastAdjustSeq := d.seqNo) else r1;
      Holds(r, r2, cap, ds + [d])
  {
    var all := ds + [d];
    assert all[|ds|] == d;
    assert forall i :: 0 <= i < |ds| ==> all[i] == ds[i];
    if exists i :: 0 <= i < |ds| && ds[i].newAmount <= cap {
      var best :| Newest(ds, best, cap) && r1 == r.(amount := best.newAmount, lastAdjustSeq := best.seqNo);
      assert exists i :: 0 <= i < |all| && all[i].newAmount <= cap;
      if d.seqNo > best.seqNo && d.newAmount <= cap {
        assert Newest(all, d, cap);
      } else {
        assert Newest(all, best, cap);
      }
    } else if d.newAmount <= cap {
      assert Newest(all, d, cap);
    }
  }

  /** Hearing an adjust again changes nothing. */
  lemma HoldsAgain(r: Reservation, r1: Reservation, cap: int, ds: seq<AdjustDelivery>, d: AdjustDelivery, i: nat)
    requires Holds(r, r1, cap, ds) && i < |ds| && ds[i].newAmount == d.newAmount && ds[i].seqNo == d.seqNo
    ensures Holds(r, r1, cap, ds + [d])
  {
    var all := ds + [d];
    assert all[|ds|] == d;
    assert forall i :: 0 <= i < |ds| ==> all[i] == ds[i];
    if exists i :: 0 <= i < |ds| && ds[i].newAmount <= cap {
      var best :| Newest(ds, best, cap) && r1 == r.(amount := best.newAmount, lastAdjustSeq := best.seqNo);
      assert Newest(all, best, cap);
    }
  }

  lemma RegisterSettles(c: Credit, o: string, requester: string, d: AdjustDelivery)
    requires CommandOk(AdjustOf(o, requester, d)) && Lower(o) == o && d.version >= 1
    requires 0 < |d.message| <= MAX_MESSAGE_ID_LENGTH
    requires o in c.reservations && c.reservations[o].wallet == requester && d.message !in c.processed
    requires Books(c)
    ensures d.seqNo > 0
    ensures var j := JudgeAdjust(c, o, requester, d.newAmount, d.seqNo);
      && j.Settled? && !j.result.OperationFailedResult?
      && Process(c, d.message, AdjustOf(o, requester, d)).reservations == j.credit.reservations
      && Process(c, d.message, AdjustOf(o, requester, d)).wallets == j.credit.wallets
      && Process(c, d.message, AdjustOf(o, requester, d)).processed == j.credit.processed[d.message := j.result]
  {
    hide Books, SubjectOk, MatchesUuid, Lower, CanPost;
    JudgeKeepsBooks(c, AdjustOf(o, requester, d));
  }

  lemma RegisterStep(c: Credit, c1: Credit, o: string, ds: seq<AdjustDelivery>, d: AdjustDelivery)
    requires Register(c, c1, o, ds)
    requires AdjustStream(c, o, c.reservations[o].wallet, c.reservations[o].lastAdjustSeq, ds + [d])
    requires Books(c1)
    ensures Register(c, Process(c1, d.message, AdjustOf(o, c.reservations[o].wallet, d)), o, ds + [d])
  {
    hide Books, Process, JudgeAdjust, Holds, CommandOk, Lower, Cap;
    var all := ds + [d];
    assert all[|ds|] == d;
    assert forall i :: 0 <= i < |ds| ==> all[i] == ds[i];
    var r, requester := c.reservations[o], c.reservations[o].wallet;
    if d.message in c1.processed {
      var i :| 0 <= i < |ds| && ds[i].message == d.message;
      assert all[i].message == all[|ds|].message;
      HoldsAgain(r, c1.reservations[o], Cap(c, o), ds, d, i);
      NoEffect(c1, Delivery(d.message, AdjustOf(o, requester, d)));
      assert Effects(Process(c1, d.message, AdjustOf(o, requester, d))) == Effects(c1);
      SameRegister(c1, Process(c1, d.message, AdjustOf(o, requester, d)), o);
    } else {
      RegisterSettles(c1, o, requester, d);
      OneAdjust(c1, o, d);
      HoldsMore(r, c1.reservations[o], Cap(c, o), ds, d);
      CapIsLocal(JudgeAdjust(c1, o, requester, d.newAmount, d.seqNo).credit,
                 Process(c1, d.message, AdjustOf(o, requester, d)), o);
    }
  }

  lemma SameRegister(c: Credit, c': Credit, o: string)
    requires Effects(c) == Effects(c') && o in c.reservations && c.reservations[o].wallet in c.wallets
    ensures c'.reservations == c.reservations && c'.wallets == c.wallets && c'.processed == c.processed
      && Cap(c', o) == Cap(c, o)
  {
  }

  lemma CapIsLocal(c: Credit, c': Credit, o: string)
    requires c'.reservations == c.reservations && c'.wallets == c.wallets && o in c.reservations
    requires c.reservations[o].wallet in c.wallets
    ensures Cap(c', o) == Cap(c, o)
  {
  }

  lemma {:induction false} AdjustsRegister(c: Credit, o: string, ds: seq<AdjustDelivery>)
    requires o in c.reservations && c.reservations[o].wallet in c.wallets && c.reservations[o].status == Active
    requires AdjustStream(c, o, c.reservations[o].wallet, c.reservations[o].lastAdjustSeq, ds)
    requires Books(c)
    ensures Register(c, Adjusts(c, o, c.reservations[o].wallet, ds), o, ds)
      && Books(Adjusts(c, o, c.reservations[o].wallet, ds))
    decreases |ds|
  {
    hide Books, Process, CommandOk, Lower;
    if ds != [] {
      var n := |ds| - 1;
      var requester := c.reservations[o].wallet;
      AdjustsRegister(c, o, ds[..n]);
      assert ds == ds[..n] + [ds[n]];
      var c1 := Adjusts(c, o, requester, ds[..n]);
      hide AdjustStream, Register;
      RegisterStep(c, c1, o, ds[..n], ds[n]);
      ProcessKeepsBooks(c1, ds[n].message, AdjustOf(o, requester, ds[n]));
    }
  }

  /** In every reachable credit state: handling any adjusts of one active reservation, in any order and with any
      repeats, leaves it at the newest one affordable within its wallet's available credits plus its own amount. */
  ghost predicate LastWriterWins(c: Credit, o: string, ds: seq<AdjustDelivery>) {
    && o in c.reservations && c.reservations[o].status == Active
    && AdjustStream(c, o, c.reservations[o].wallet, c.reservations[o].lastAdjustSeq, ds) ==>
      && c.reservations[o].wallet in c.wallets
      && var after := Adjusts(c, o, c.reservations[o].wallet, ds);
         o in after.reservations && Holds(c.reservations[o], after.reservations[o], Cap(c, o), ds)
  }

  lemma LastWriterWinsInRuns(initialCredit: nat, steps: seq<CreditStep>, o: string, ds: seq<AdjustDelivery>)
    ensures LastWriterWins(CreditRun(initialCredit, steps), o, ds)
  {
    hide CreditRun, Books, AdjustStream, Adjusts, Holds, Cap;
    var c := CreditRun(initialCredit, steps);
    BooksInRuns(initialCredit, steps);
    if o in c.reservations && c.reservations[o].status == Active
       && AdjustStream(c, o, c.reservations[o].wallet, c.reservations[o].lastAdjustSeq, ds) {
      WalletsExist(c, o);
      AdjustsRegister(c, o, ds);
    }
  }

  lemma WalletsExist(c: Credit, o: string)
    requires Books(c) && o in c.reservations
    ensures c.reservations[o].wallet in c.wallets
  {
    hide Conserved, NonNegative, ReservedIsHeld, LedgerRebuilds, KeysUnique, EntriesOk;
  }
}
