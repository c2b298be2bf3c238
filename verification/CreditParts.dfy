/** How one command changes the part of credit-service's state that belongs to one order. */
module CreditParts {
  import opened Prelude
  import opened Keys
  import opened Wallets
  import opened Saga

  /** The ledger entries of one order. */
  function EntriesOf(ledger: seq<LedgerEntry>, order: string): (entries: seq<LedgerEntry>) {
    if ledger == [] then []
    else
      var n := |ledger| - 1;
      EntriesOf(ledger[..n], order) + if ledger[n].order == order then [ledger[n]] else []
  }

  lemma EntriesPush(ledger: seq<LedgerEntry>, e: LedgerEntry, order: string)
    ensures EntriesOf(ledger + [e], order) == EntriesOf(ledger, order) + if e.order == order then [e] else []
  {
    assert (ledger + [e])[..|ledger|] == ledger;
  }

  /** An order's reservation, tombstone and ledger entries. */
  datatype Part = Part(res: Option<Reservation>, tomb: bool, entries: seq<LedgerEntry>)

  function PartOf(c: Credit, order: string): (p: Part) {
    Part(if order in c.reservations then Some(c.reservations[order]) else None, order in c.tombstones,
         EntriesOf(c.ledger, order))
  }

  lemma PostPart(c: Credit, e: LedgerEntry, order: string)
    requires e.wallet in c.wallets
    ensures EntriesOf(Post(c, e).ledger, order) == EntriesOf(c.ledger, order) + if e.order == order then [e] else []
  {
    EntriesPush(c.ledger, e, order);
  }

  lemma TransferPart(c: Credit, res: Reservation, order: string, courier: string, amount: int, o: string)
    requires res.wallet in c.wallets && courier in c.wallets && res.wallet != courier
    ensures EntriesOf(DoTransfer(c, res, order, courier, amount).ledger, o)
         == EntriesOf(c.ledger, o) + if order == o then TransferEntries(res, order, courier, amount) else []
  {
    var out, into, surplus := TransferOutEntry(res, order, courier, amount),
      TransferInEntry(res, order, courier, amount),
                              SurplusEntry(res, order, amount);
    EntriesPush(c.ledger, out, o);
    EntriesPush(c.ledger + [out], into, o);
    EntriesPush(c.ledger + [out] + [into], surplus, o);
    assert c.ledger + [out, into] == c.ledger + [out] + [into];
    assert c.ledger + [out, into, surplus] == c.ledger + [out] + [into] + [surplus];
    assert EntriesOf(c.ledger, o) + [out, into] == EntriesOf(c.ledger, o) + [out] + [into];
    assert EntriesOf(c.ledger, o) + [out, into, surplus] == EntriesOf(c.ledger, o) + [out] + [into] + [surplus];
    hide EntriesOf;
  }

  /** A command touches no other order and no remembered result. */
  lemma JudgeFrame(c: Credit, cmd: Command, o: string)
    requires CommandOk(cmd) && o != Lower(cmd.order)
    ensures var r := Judge(c, cmd);
      r.Settled? ==>
        PartOf(r.credit, o) == PartOf(c, o) && r.credit.processed == c.processed && r.credit.outbox == c.outbox
  {
    hide EntriesOf, MatchesUuid, SubjectOk, CanInsert;
    forall e: LedgerEntry | e.wallet in c.wallets
      ensures EntriesOf(Post(c, e).ledger, o) == EntriesOf(c.ledger, o) + if e.order == o then [e] else []
    {
      PostPart(c, e, o);
    }
    if cmd.TransferCommand? && Lower(cmd.order) in c.reservations {
      var res := c.reservations[Lower(cmd.order)];
      if res.wallet in c.wallets && cmd.courier in c.wallets && res.wallet != cmd.courier {
        TransferPart(c, res, Lower(cmd.order), cmd.courier, cmd.amount, o);
      }
    }
  }

  lemma LowerUuid(s: string)
    requires IsUuid(s)
    ensures Lower(s) == s && MatchesUuid(s)
  {
  }

  /** The saga shows the order's part of `c`. */
  ghost predicate Shows(s: State, c: Credit) {
    PartOf(c, s.e.id) == Part(s.res, s.tomb, s.entries)
  }

  /** Judging a command for the first time answers it on the order's part: the result is what `a` says. */
  ghost predicate JudgedAs(s: State, x: Slot, c': Credit, r: Result, a: Answer) {
    && a.r == r && Answers(s, x, a)
    && PartOf(c', s.e.id) == Part(a.res, a.tomb, s.entries + a.extra)
  }

  lemma ReserveAnswers(s: State, x: Slot, c: Credit) returns (a: Answer)
    requires x in s.rows && x !in s.done && RowOk(s.e, x, s.rows[x]) && x.op == Reserve && Shows(s, c)
    requires JudgeReserve(c, s.e.id, s.e.requesterId, Cmd(s.rows[x]).amount).Settled?
    ensures var j := JudgeReserve(c, s.e.id, s.e.requesterId, Cmd(s.rows[x]).amount);
            JudgedAs(s, x, j.credit, j.result, a)
  {
    hide EntriesOf, KeyOf, CanInsert;
    var d := Cmd(s.rows[x]);
    var j := JudgeReserve(c, s.e.id, s.e.requesterId, d.amount);
    var e := LedgerEntry(d.requesterId, ReserveEntry, -d.amount, d.amount, d.errandId, "",
                         Wallets.ReserveKey(d.errandId));
    var posts := j.result.ReservedResult? && s.res.None?;
    var extra := if posts then [e] else [];
    var p := PartOf(j.credit, s.e.id);
    a := Answer(j.result, p.res, p.tomb, extra);
    if posts {
      PostPart(c, e, s.e.id);
    } else {
      assert s.entries + [] == s.entries;
    }
  }

  lemma AdjustAnswers(s: State, x: Slot, c: Credit) returns (a: Answer)
    requires x in s.rows && x !in s.done && RowOk(s.e, x, s.rows[x]) && (x.op == Adjust || x.op == AdjustRevert)
    requires Shows(s, c)
    requires Cmd(s.rows[x]).seqNo > 0
    requires JudgeAdjust(c, s.e.id, s.e.requesterId, Cmd(s.rows[x]).newAmount, Cmd(s.rows[x]).seqNo).Settled?
    ensures var j := JudgeAdjust(c, s.e.id, s.e.requesterId, Cmd(s.rows[x]).newAmount, Cmd(s.rows[x]).seqNo);
            JudgedAs(s, x, j.credit, j.result, a)
  {
    hide EntriesOf, KeyOf, CanInsert, Itoa;
    var d := Cmd(s.rows[x]);
    var j := JudgeAdjust(c, s.e.id, s.e.requesterId, d.newAmount, d.seqNo);
    var delta := if s.res.Some? then d.newAmount - s.res.value.amount else 0;
    var e := LedgerEntry(d.requesterId, ReservationAdjust, -delta, delta, d.errandId, "",
                         Wallets.AdjustKey(d.errandId, d.seqNo));
    var posts := j.credit.ledger != c.ledger;
    var extra := if posts then [e] else [];
    var p := PartOf(j.credit, s.e.id);
    a := Answer(j.result, p.res, p.tomb, extra);
    if posts {
      PostPart(c, e, s.e.id);
    } else {
      assert c.ledger + [e] != c.ledger;
      assert s.entries + [] == s.entries;
    }
  }

  lemma ReleaseAnswers(s: State, x: Slot, c: Credit) returns (a: Answer)
    requires x in s.rows && x !in s.done && RowOk(s.e, x, s.rows[x]) && x.op == Release && Shows(s, c)
    requires var j := JudgeRelease(c, s.e.id, s.e.requesterId); j.Settled? && !j.result.OperationFailedResult?
    ensures var j := JudgeRelease(c, s.e.id, s.e.requesterId);
            JudgedAs(s, x, j.credit, j.result, a)
  {
    hide EntriesOf, KeyOf, CanInsert;
    var d := Cmd(s.rows[x]);
    var j := JudgeRelease(c, s.e.id, s.e.requesterId);
    var amount := if s.res.Some? then s.res.value.amount else 0;
    var e := LedgerEntry(d.requesterId, ReleaseEntry, amount, -amount, d.errandId, "", Wallets.ReleaseKey(d.errandId));
    var posts := s.res.Some? && s.res.value.status == Active;
    var extra := if posts then [e] else [];
    var p := PartOf(j.credit, s.e.id);
    a := Answer(j.result, p.res, p.tomb, extra);
    if posts {
      PostPart(c, e, s.e.id);
    } else {
      assert s.entries + [] == s.entries;
    }
  }

  lemma TransferAnswers(s: State, x: Slot, c: Credit) returns (a: Answer)
    requires x in s.rows && x !in s.done && RowOk(s.e, x, s.rows[x]) && x.op == Transfer && Shows(s, c)
    requires s.e.requesterId != s.e.courierId
    requires var j := JudgeTransfer(c, s.e.id, s.e.requesterId, s.e.courierId, Cmd(s.rows[x]).amount);
             j.Settled? && !j.result.OperationFailedResult?
    ensures var j := JudgeTransfer(c, s.e.id, s.e.requesterId, s.e.courierId, Cmd(s.rows[x]).amount);
            JudgedAs(s, x, j.credit, j.result, a)
  {
    hide EntriesOf, KeyOf, CanInsert;
    var d := Cmd(s.rows[x]);
    var j := JudgeTransfer(c, s.e.id, s.e.requesterId, s.e.courierId, d.amount);
    var r := s.res.value;
    var posts := r.status == Active;
    var extra := if posts then TransferEntries(r, d.errandId, d.courierId, d.amount) else [];
    var p := PartOf(j.credit, s.e.id);
    a := Answer(j.result, p.res, p.tomb, extra);
    if posts {
      TransferPart(c, r, s.e.id, s.e.courierId, d.amount, s.e.id);
    } else {
      assert s.entries + [] == s.entries;
    }
    hide TransferEntries;
  }

  /** Judging the command of an emitted row answers it. */
  lemma JudgeAnswers(s: State, x: Slot, c: Credit) returns (a: Answer)
    requires x in s.rows && x !in s.done && RowOk(s.e, x, s.rows[x]) && Shows(s, c) && IsUuid(s.e.id)
    requires CommandOk(ToCommand(s.rows[x]))
    requires var j := Judge(c, ToCommand(s.rows[x])); j.Settled? && !j.result.OperationFailedResult?
    ensures var j := Judge(c, ToCommand(s.rows[x])); JudgedAs(s, x, j.credit, j.result, a)
  {
    LowerUuid(s.e.id);
    hide KeyOf, JudgeReserve, JudgeAdjust, JudgeRelease, JudgeTransfer, JudgedAs, Shows, IsUuid, Lower, SubjectOk,
         MatchesUuid;
    match x.op
    case Reserve => a := ReserveAnswers(s, x, c);
    case Release => a := ReleaseAnswers(s, x, c);
    case Transfer => a := TransferAnswers(s, x, c);
    case _ => a := AdjustAnswers(s, x, c);
  }
}
