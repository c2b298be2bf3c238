/** credit-service is a closed economy: commands move credits between wallets and reservations, and only a new wallet's
    initial allocation creates any. */
module Economy {
  import opened Prelude
  import opened Keys
  import opened Wallets
  import opened Sums
  import opened Saga
  import opened SagaProofs

  // ---------------------------------------------------------------- what holds of the books

  ghost function Balances(wallets: map<string, Wallet>): (m: map<string, int>) {
    map s | s in wallets :: wallets[s].available + wallets[s].reserved
  }

  /** What each order's active reservation holds on a wallet. */
  ghost function HeldOn(rs: map<string, Reservation>, wallet: string): (m: map<string, int>) {
    map o | o in rs :: Held(rs[o], wallet)
  }

  function Held(r: Reservation, wallet: string): (n: int) {
    if r.wallet == wallet && r.status == Active then r.amount else 0
  }

  ghost predicate Conserved(c: Credit) {
    Sum(Balances(c.wallets)) == c.initialCredit * |c.wallets|
  }

  ghost predicate NonNegative(c: Credit) {
    forall s :: s in c.wallets ==> c.wallets[s].available >= 0 && c.wallets[s].reserved >= 0
  }

  ghost predicate ReservedIsHeld(c: Credit) {
    forall s :: s in c.wallets ==> c.wallets[s].reserved == Sum(HeldOn(c.reservations, s))
  }

  /** The ledger alone rebuilds both balances. */
  ghost predicate LedgerRebuilds(c: Credit) {
    forall s :: s in c.wallets ==>
      c.wallets[s].available == AvailableOn(c.ledger, s) && c.wallets[s].reserved == ReservedOn(c.ledger, s)
  }

  ghost predicate KeysUnique(ledger: seq<LedgerEntry>) {
    forall i, j :: 0 <= i < j < |ledger| && ledger[i].wallet == ledger[j].wallet ==> ledger[i].key != ledger[j].key
  }

  ghost predicate ReservationsOk(c: Credit) {
    forall o :: o in c.reservations ==>
      var r := c.reservations[o]; |o| == 36 && r.wallet in c.wallets && r.amount > 0 && r.lastAdjustSeq >= 0
  }

  /** A ledger entry's key says what wrote it. */
  ghost predicate EntryOk(rs: map<string, Reservation>, e: LedgerEntry) {
    match e.kind
    case Allocate => e.key == INITIAL_ALLOCATION_KEY
    case ReserveEntry => ForOrder(rs, e) && e.key == Wallets.ReserveKey(e.order)
    case ReservationAdjust =>
      ForOrder(rs, e) && exists n: nat :: AdjustedUpTo(rs[e.order], n) && e.key == Wallets.AdjustKey(e.order, n)
    case ReleaseEntry =>
      && ForOrder(rs, e)
      && ((e.key == Wallets.ReleaseKey(e.order) && rs[e.order].status == Released)
          || (e.key == SurplusKey(e.order) && rs[e.order].status == Transferred))
    case TransferOut => ForOrder(rs, e) && e.key == TransferKey(e.order) && rs[e.order].status == Transferred
    case TransferIn => ForOrder(rs, e) && e.key == TransferKey(e.order) && rs[e.order].status == Transferred
  }

  predicate ForOrder(rs: map<string, Reservation>, e: LedgerEntry) {
    |e.order| == 36 && e.order in rs
  }

  predicate AdjustedUpTo(r: Reservation, n: nat) {
    n <= r.lastAdjustSeq
  }

  ghost predicate EntriesOk(c: Credit) {
    forall i :: 0 <= i < |c.ledger| ==> c.ledger[i].wallet in c.wallets && EntryOk(c.reservations, c.ledger[i])
  }

  ghost predicate Books(c: Credit) {
    && Conserved(c) && NonNegative(c) && ReservedIsHeld(c) && LedgerRebuilds(c) && KeysUnique(c.ledger)
    && ReservationsOk(c) && EntriesOk(c)
  }

  // ---------------------------------------------------------------- one ledger entry

  lemma PostBalances(c: Credit, e: LedgerEntry)
    requires e.wallet in c.wallets
    ensures Sum(Balances(Post(c, e).wallets)) == Sum(Balances(c.wallets)) + e.availableDelta + e.reservedDelta
    ensures Post(c, e).wallets.Keys == c.wallets.Keys && |Post(c, e).wallets| == |c.wallets|
  {
    hide Sum;
    var c' := Post(c, e);
    var b := c.wallets[e.wallet].available + c.wallets[e.wallet].reserved;
    assert Balances(c'.wallets) == Balances(c.wallets)[e.wallet := b + e.availableDelta + e.reservedDelta];
    SumPut(Balances(c.wallets), e.wallet, b + e.availableDelta + e.reservedDelta);
    assert |c'.wallets.Keys| == |c.wallets.Keys|;
  }

  lemma PostRebuilds(c: Credit, e: LedgerEntry)
    requires e.wallet in c.wallets && LedgerRebuilds(c)
    ensures LedgerRebuilds(Post(c, e))
  {
    hide AvailableOn, ReservedOn;
    var c' := Post(c, e);
    forall s | s in c'.wallets
      ensures c'.wallets[s].available == AvailableOn(c'.ledger, s) && c'.wallets[s].reserved == ReservedOn(c'.ledger, s)
    {
      SumsAppend(c.ledger, e, s);
      assert c.wallets[s].available == AvailableOn(c.ledger, s) && c.wallets[s].reserved == ReservedOn(c.ledger, s);
    }
  }

  lemma PostUnique(c: Credit, e: LedgerEntry)
    requires e.wallet in c.wallets && KeysUnique(c.ledger) && !HasKey(c.ledger, e.wallet, e.key)
    ensures KeysUnique(Post(c, e).ledger)
  {
  }

  lemma HeldPut(rs: map<string, Reservation>, o: string, r: Reservation, s: string)
    ensures Sum(HeldOn(rs[o := r], s)) == Sum(HeldOn(rs, s)) - (if o in rs then Held(rs[o], s) else 0) + Held(r, s)
  {
    hide Sum, Held;
    assert HeldOn(rs[o := r], s) == HeldOn(rs, s)[o := Held(r, s)];
    SumPut(HeldOn(rs, s), o, Held(r, s));
  }

  /** An active reservation is covered by its wallet's reserved credits. */
  lemma HeldIsReserved(c: Credit, o: string)
    requires ReservationsOk(c) && o in c.reservations && c.reservations[o].status == Active
    requires ReservedIsHeld(c)
    ensures c.reservations[o].amount <= c.wallets[c.reservations[o].wallet].reserved
  {
    hide Sum, ReservedIsHeld;
    var s := c.reservations[o].wallet;
    HeldBounds(c.reservations, o, s);
    assert Sum(HeldOn(c.reservations, s)) == c.wallets[s].reserved by { ReservedHere(c, s); }
  }

  lemma ReservedHere(c: Credit, s: string)
    requires ReservedIsHeld(c) && s in c.wallets
    ensures Sum(HeldOn(c.reservations, s)) == c.wallets[s].reserved
  {
    hide Sum;
  }

  lemma HeldBounds(rs: map<string, Reservation>, o: string, s: string)
    requires o in rs && forall i :: i in rs ==> rs[i].amount > 0
    ensures Held(rs[o], s) <= Sum(HeldOn(rs, s))
  {
    hide Sum;
    SumBounds(HeldOn(rs, s), o);
  }

  /** What a command may do to its order's reservation. */
  ghost predicate Advances(rs: map<string, Reservation>, o: string, r: Reservation) {
    o in rs ==> rs[o].status == Active && rs[o].lastAdjustSeq <= r.lastAdjustSeq
  }

  lemma EntryStays(rs: map<string, Reservation>, o: string, r: Reservation, e: LedgerEntry)
    requires EntryOk(rs, e) && Advances(rs, o, r)
    ensures EntryOk(rs[o := r], e)
  {
    if e.kind == ReservationAdjust {
      var n: nat :| AdjustedUpTo(rs[e.order], n) && e.key == Wallets.AdjustKey(e.order, n);
      assert AdjustedUpTo(rs[o := r][e.order], n);
    }
    hide Wallets.AdjustKey;
  }

  // ---------------------------------------------------------------- ledger keys

  lemma PrefixDiffers(p: string, x: string, q: string, y: string, i: nat)
    requires i < |p| && i < |q| && p[i] != q[i]
    ensures p + x != q + y
  {
    assert (p + x)[i] == p[i] && (q + y)[i] == q[i];
  }

  lemma SameTail(p: string, x: string, y: string)
    requires p + x == p + y
    ensures x == y
  {
    assert (p + x)[|p|..] == x && (p + y)[|p|..] == y;
  }

  /** The ledger key of each kind of entry. */
  datatype EntryKey = KReserve(o: string) | KAdjust(o: string, n: nat) | KRelease(o: string) | KTransfer(o: string)
      | KSurplus(o: string) | KInitial
  {
    function Text(): (s: string) {
      match this
      case KReserve(o) => Wallets.ReserveKey(o)
      case KAdjust(o, n) => Wallets.AdjustKey(o, n)
      case KRelease(o) => Wallets.ReleaseKey(o)
      case KTransfer(o) => TransferKey(o)
      case KSurplus(o) => SurplusKey(o)
      case KInitial => INITIAL_ALLOCATION_KEY
    }

    function Prefix(): (s: string) {
      match this
      case KReserve(_) => "reserve:"
      case KAdjust(_, _) => "adjust:"
      case KRelease(_) => "release:"
      case KTransfer(_) => "transfer:"
      case KSurplus(_) => "transfer-surplus:"
      case KInitial => "initial-allocation"
    }

    function Tail(): (s: string) {
      match this
      case KAdjust(o, n) => o + ":" + Itoa(n)
      case KInitial => ""
      case _ => o
    }
  }

  /** The position at which two kinds of key differ. */
  function Mark(a: EntryKey, b: EntryKey): (i: nat) {
    if (a.KTransfer? && b.KSurplus?) || (a.KSurplus? && b.KTransfer?) then 8
    else if (a.KReserve? && b.KRelease?) || (a.KRelease? && b.KReserve?) then 2
    else 0
  }

  lemma KeySplitsHere(k: EntryKey)
    ensures k.Text() == k.Prefix() + k.Tail()
  {
    match k
    case KAdjust(o, n) => assert "adjust:" + o + ":" + Itoa(n) == "adjust:" + (o + ":" + Itoa(n));
    case _ =>
  }

  lemma PrefixesDiffer(a: EntryKey, b: EntryKey)
    requires a.Prefix() != b.Prefix()
    ensures var i := Mark(a, b); i < |a.Prefix()| && i < |b.Prefix()| && a.Prefix()[i] != b.Prefix()[i]
  {
  }

  /** Different ledger keys are different strings. */
  lemma EntryKeyInjective(a: EntryKey, b: EntryKey)
    requires a.Text() == b.Text() && (a != KInitial ==> |a.o| == 36) && (b != KInitial ==> |b.o| == 36)
    ensures a == b
  {
    KeySplitsHere(a);
    KeySplitsHere(b);
    if a.Prefix() != b.Prefix() {
      PrefixesDiffer(a, b);
      PrefixDiffers(a.Prefix(), a.Tail(), b.Prefix(), b.Tail(), Mark(a, b));
    } else {
      SameTail(a.Prefix(), a.Tail(), b.Tail());
      if a.KAdjust? {
        assert (a.o + ":" + Itoa(a.n))[..36] == a.o && (b.o + ":" + Itoa(b.n))[..36] == b.o;
        SameTail(a.o + ":", Itoa(a.n), Itoa(b.n));
        ItoaInjective(a.n, b.n);
      }
    }
  }

  /** The key an entry carries, and what it says about its order. */
  lemma KeyOfEntry(rs: map<string, Reservation>, e: LedgerEntry) returns (k: EntryKey)
    requires EntryOk(rs, e)
    ensures e.key == k.Text() && (k != KInitial ==> |k.o| == 36 && k.o in rs)
    ensures k.KAdjust? ==> k.n <= rs[k.o].lastAdjustSeq
    ensures k.KRelease? ==> rs[k.o].status == Released
    ensures k.KTransfer? || k.KSurplus? ==> rs[k.o].status == Transferred
  {
    hide Wallets.AdjustKey, Wallets.ReserveKey, Wallets.ReleaseKey, TransferKey, SurplusKey;
    match e.kind
    case Allocate => k := KInitial;
    case ReserveEntry => k := KReserve(e.order);
    case ReservationAdjust =>
      var n: nat :| AdjustedUpTo(rs[e.order], n) && e.key == Wallets.AdjustKey(e.order, n);
      k := KAdjust(e.order, n);
    case ReleaseEntry => k := if rs[e.order].status == Released then KRelease(e.order) else KSurplus(e.order);
    case _ => k := KTransfer(e.order);
  }

  /** The order's state rules the key out. */
  ghost predicate Unused(rs: map<string, Reservation>, k: EntryKey) {
    match k
    case KReserve(o) => o !in rs
    case KAdjust(o, n) => o in rs && n > rs[o].lastAdjustSeq
    case KRelease(o) => o in rs && rs[o].status == Active
    case KTransfer(o) => o in rs && rs[o].status == Active
    case KSurplus(o) => o in rs && rs[o].status == Active
    case KInitial => false
  }

  lemma UnusedIsFree(c: Credit, k: EntryKey, wallet: string)
    requires EntriesOk(c) && Unused(c.reservations, k) && |k.o| == 36
    ensures !HasKey(c.ledger, wallet, k.Text())
  {
    hide EntryOk;
    forall i | 0 <= i < |c.ledger|
      ensures c.ledger[i].key != k.Text()
    {
      var k' := KeyOfEntry(c.reservations, c.ledger[i]);
      if c.ledger[i].key == k.Text() {
        EntryKeyInjective(k, k');
      }
    }
  }

  // ---------------------------------------------------------------- one command

  /** `c'` is `c` after ledger entries that add up to what happened to the order's reservation. */
  ghost predicate Moved(c: Credit, c': Credit, o: string, r: Reservation, extra: seq<LedgerEntry>) {
    && c'.initialCredit == c.initialCredit && c'.wallets.Keys == c.wallets.Keys && |c'.wallets| == |c.wallets|
    && Sum(Balances(c'.wallets)) == Sum(Balances(c.wallets))
    && NonNegative(c') && LedgerRebuilds(c') && KeysUnique(c'.ledger)
    && c'.reservations == c.reservations[o := r] && Advances(c.reservations, o, r)
    && |o| == 36 && r.wallet in c.wallets && r.amount > 0 && r.lastAdjustSeq >= 0
    && c'.ledger == c.ledger + extra
    && (forall i :: 0 <= i < |extra| ==> extra[i].wallet in c.wallets && EntryOk(c'.reservations, extra[i]))
    && (forall s :: s in c.wallets ==>
          c'.wallets[s].reserved
          == c.wallets[s].reserved + Held(r, s) - if o in c.reservations then Held(c.reservations[o], s) else 0)
  }

  lemma MovedEntries(c: Credit, c': Credit, o: string, r: Reservation, extra: seq<LedgerEntry>)
    requires EntriesOk(c) && Moved(c, c', o, r, extra)
    ensures EntriesOk(c')
  {
    hide EntryOk, Sum, Held, LedgerRebuilds, KeysUnique, NonNegative, Advances;
    forall i | 0 <= i < |c'.ledger|
      ensures c'.ledger[i].wallet in c'.wallets && EntryOk(c'.reservations, c'.ledger[i])
    {
      if i < |c.ledger| {
        assert c'.ledger[i] == c.ledger[i];
        EntryStays(c.reservations, o, r, c.ledger[i]);
      } else {
        assert c'.ledger[i] == extra[i - |c.ledger|];
      }
    }
  }

  lemma MovedHeld(c: Credit, c': Credit, o: string, r: Reservation, extra: seq<LedgerEntry>)
    requires ReservedIsHeld(c) && Moved(c, c', o, r, extra)
    ensures ReservedIsHeld(c')
  {
    hide EntryOk, Sum, Held, LedgerRebuilds, KeysUnique, NonNegative, Advances;
    forall s | s in c'.wallets
      ensures c'.wallets[s].reserved == Sum(HeldOn(c'.reservations, s))
    {
      HeldPut(c.reservations, o, r, s);
    }
  }

  lemma MovedBooks(c: Credit, c': Credit, o: string, r: Reservation, extra: seq<LedgerEntry>)
    requires Moved(c, c', o, r, extra)
    requires Books(c)
    ensures Books(c')
  {
    hide EntriesOk, ReservedIsHeld, EntryOk, Sum, Held, LedgerRebuilds, KeysUnique, NonNegative;
    MovedEntries(c, c', o, r, extra);
    MovedHeld(c, c', o, r, extra);
    hide Advances;
  }

  /** One entry that shifts credits within a wallet. */
  lemma ShiftMoves(c: Credit, e: LedgerEntry, o: string, r: Reservation)
    requires e.wallet in c.wallets && e.availableDelta + e.reservedDelta == 0 && CanPost(c, e)
    requires |o| == 36 && r.wallet == e.wallet && r.amount > 0 && r.lastAdjustSeq >= 0 && Advances(c.reservations, o, r)
    requires o in c.reservations ==> c.reservations[o].wallet == e.wallet
    requires e.reservedDelta == Held(r, e.wallet) - if o in c.reservations then Held(c.reservations[o], e.wallet) else 0
    requires EntryOk(c.reservations[o := r], e)
    requires NonNegative(c) && LedgerRebuilds(c) && KeysUnique(c.ledger)
    ensures Moved(c, Post(c, e).(reservations := c.reservations[o := r]), o, r, [e])
  {
    hide EntryOk, Sum, AvailableOn, ReservedOn;
    PostBalances(c, e);
    PostRebuilds(c, e);
    PostUnique(c, e);
    hide LedgerRebuilds, KeysUnique, Balances;
    assert LedgerRebuilds(Post(c, e).(reservations := c.reservations[o := r])) by {
      RebuildsIgnores(Post(c, e), c.reservations[o := r]);
    }
  }

  lemma RebuildsIgnores(c: Credit, rs: map<string, Reservation>)
    requires LedgerRebuilds(c)
    ensures LedgerRebuilds(c.(reservations := rs))
  {
    hide AvailableOn, ReservedOn;
  }

  lemma ReserveKeepsBooks(c: Credit, o: string, requester: string, amount: int)
    requires |o| == 36 && amount > 0
    requires Books(c)
    ensures JudgeReserve(c, o, requester, amount).Settled? && Books(JudgeReserve(c, o, requester, amount).credit)
  {
    hide Sum, Conserved, ReservedIsHeld, LedgerRebuilds, KeysUnique, EntriesOk, HasKey, Wallets.ReserveKey;
    if o !in c.tombstones && o !in c.reservations && requester in c.wallets
       && c.wallets[requester].available >= amount {
      var e := LedgerEntry(requester, ReserveEntry, -amount, amount, o, "", Wallets.ReserveKey(o));
      var r := Reservation(requester, amount, Active, 0);
      UnusedIsFree(c, KReserve(o), requester);
      assert NonNegative(c);
      ShiftMoves(c, e, o, r);
      MovedBooks(c, Post(c, e).(reservations := c.reservations[o := r]), o, r, [e]);
    }
  }

  /** Raising or lowering an active reservation within its wallet's means. */
  lemma AdjustMoves(c: Credit, o: string, newAmount: int, seqNo: nat)
    requires |o| == 36 && newAmount > 0 && o in c.reservations && c.reservations[o].status == Active
    requires ReservationsOk(c) && seqNo > c.reservations[o].lastAdjustSeq
    requires var held := c.reservations[o]; 0 != newAmount - held.amount <= c.wallets[held.wallet].available
    requires NonNegative(c) && LedgerRebuilds(c) && KeysUnique(c.ledger) && EntriesOk(c) && ReservedIsHeld(c)
    ensures var held := c.reservations[o];
      var delta := newAmount - held.amount;
      var e := LedgerEntry(held.wallet, ReservationAdjust, -delta, delta, o, "", Wallets.AdjustKey(o, seqNo));
      var r := held.(amount := newAmount, lastAdjustSeq := seqNo);
      && CanPost(c, e) && Moved(c, Post(c, e).(reservations := c.reservations[o := r]), o, r, [e])
  {
    hide Sum, ReservedIsHeld, LedgerRebuilds, KeysUnique, EntriesOk, HasKey, Wallets.AdjustKey, Moved;
    var held := c.reservations[o];
    var delta := newAmount - held.amount;
    var e := LedgerEntry(held.wallet, ReservationAdjust, -delta, delta, o, "", Wallets.AdjustKey(o, seqNo));
    var r := held.(amount := newAmount, lastAdjustSeq := seqNo);
    UnusedIsFree(c, KAdjust(o, seqNo), held.wallet);
    HeldIsReserved(c, o);
    assert AdjustedUpTo(c.reservations[o := r][o], seqNo);
    ShiftMoves(c, e, o, r);
  }

  lemma AdjustKeepsBooks(c: Credit, o: string, requester: string, newAmount: int, seqNo: int)
    requires |o| == 36 && newAmount > 0 && seqNo > 0
    requires Books(c)
    ensures var j := JudgeAdjust(c, o, requester, newAmount, seqNo);
            if j.Settled?
            then Books(j.credit)
            else j.error == Conflict && o in c.reservations && c.reservations[o].wallet != requester
  {
    hide ReservedIsHeld, LedgerRebuilds, KeysUnique, EntriesOk, NonNegative, Conserved, CanPost, Moved, Post,
         Wallets.AdjustKey;
    if o in c.reservations && c.reservations[o].wallet == requester && c.reservations[o].status == Active
       && seqNo > c.reservations[o].lastAdjustSeq
          && newAmount - c.reservations[o].amount <= c.wallets[requester].available {
      var held := c.reservations[o];
      var delta := newAmount - held.amount;
      var r := held.(amount := newAmount, lastAdjustSeq := seqNo);
      if delta != 0 {
        var e := LedgerEntry(requester, ReservationAdjust, -delta, delta, o, "", Wallets.AdjustKey(o, seqNo));
        AdjustMoves(c, o, newAmount, seqNo);
        MovedBooks(c, Post(c, e).(reservations := c.reservations[o := r]), o, r, [e]);
      } else {
        SameAmountMoves(c, o, r);
        MovedBooks(c, c.(reservations := c.reservations[o := r]), o, r, []);
      }
    }
  }

  lemma SameAmountMoves(c: Credit, o: string, r: Reservation)
    requires o in c.reservations && c.reservations[o].status == Active
    requires r == c.reservations[o].(lastAdjustSeq := r.lastAdjustSeq)
    requires r.lastAdjustSeq >= c.reservations[o].lastAdjustSeq
    requires ReservationsOk(c) && NonNegative(c) && LedgerRebuilds(c) && KeysUnique(c.ledger)
    ensures Moved(c, c.(reservations := c.reservations[o := r]), o, r, [])
  {
    hide Sum, LedgerRebuilds, KeysUnique;
    RebuildsIgnores(c, c.reservations[o := r]);
    assert c.ledger + [] == c.ledger;
  }

  /** Returning an active reservation. */
  lemma ReleaseMoves(c: Credit, o: string)
    requires |o| == 36 && o in c.reservations && c.reservations[o].status == Active
    requires ReservationsOk(c) && NonNegative(c) && LedgerRebuilds(c) && KeysUnique(c.ledger) && EntriesOk(c)
    requires ReservedIsHeld(c)
    ensures var held := c.reservations[o];
      var e := LedgerEntry(held.wallet, ReleaseEntry, held.amount, -held.amount, o, "", Wallets.ReleaseKey(o));
      var r := held.(status := Released);
      && CanPost(c, e) && Moved(c, Post(c, e).(reservations := c.reservations[o := r]), o, r, [e])
  {
    hide Sum, ReservedIsHeld, LedgerRebuilds, KeysUnique, EntriesOk, HasKey, Wallets.ReleaseKey, Moved;
    var held := c.reservations[o];
    var e := LedgerEntry(held.wallet, ReleaseEntry, held.amount, -held.amount, o, "", Wallets.ReleaseKey(o));
    UnusedIsFree(c, KRelease(o), held.wallet);
    HeldIsReserved(c, o);
    ShiftMoves(c, e, o, held.(status := Released));
  }

  lemma ReleaseKeepsBooks(c: Credit, o: string, requester: string)
    requires |o| == 36
    requires Books(c)
    ensures var j := JudgeRelease(c, o, requester);
            if j.Settled?
            then Books(j.credit)
            else j.error == Conflict && o in c.reservations && c.reservations[o].wallet != requester
  {
    hide ReservedIsHeld, LedgerRebuilds, KeysUnique, EntriesOk, NonNegative, Conserved, CanPost, Moved, Post,
         Wallets.ReleaseKey;
    if o !in c.reservations {
      TombstoneKeepsBooks(c, c.tombstones + {o});
    } else if c.reservations[o].wallet == requester && c.reservations[o].status == Active {
      var held := c.reservations[o];
      var e := LedgerEntry(requester, ReleaseEntry, held.amount, -held.amount, o, "", Wallets.ReleaseKey(o));
      var r := held.(status := Released);
      ReleaseMoves(c, o);
      MovedBooks(c, Post(c, e).(reservations := c.reservations[o := r]), o, r, [e]);
    }
  }

  lemma TombstoneKeepsBooks(c: Credit, tombstones: set<string>)
    requires Books(c)
    ensures Books(c.(tombstones := tombstones))
  {
    hide Sum, AvailableOn, ReservedOn, EntryOk;
  }

  // ---------------------------------------------------------------- transfer

  /** The three entries of a transfer, posted one after the other. */
  ghost function PostTransfer(c: Credit, res: Reservation, o: string, courier: string, amount: int): (c': Credit)
    requires res.wallet in c.wallets && courier in c.wallets
  {
    var two := Post(Post(c, TransferOutEntry(res, o, courier, amount)), TransferInEntry(res, o, courier, amount));
    var surplus := SurplusEntry(res, o, amount);
    if surplus.availableDelta > 0 then Post(two, surplus) else two
  }

  /** The wallet updates of a transfer are the sums of its entries. */
  lemma TransferIsPosts(c: Credit, res: Reservation, o: string, courier: string, amount: int)
    requires res.wallet in c.wallets && courier in c.wallets && res.wallet != courier
    ensures DoTransfer(c, res, o, courier, amount)
         == PostTransfer(c, res, o, courier, amount).(reservations := c.reservations[o := res.(status := Transferred)])
    ensures DoTransfer(c, res, o, courier, amount).ledger == c.ledger + TransferEntries(res, o, courier, amount)
  {
    hide TransferKey, SurplusKey;
    var out, into, surplus := TransferOutEntry(res, o, courier, amount), TransferInEntry(res, o, courier, amount),
      SurplusEntry(res, o, amount);
    assert c.ledger + [out, into] == c.ledger + [out] + [into];
    assert c.ledger + [out, into, surplus] == c.ledger + [out] + [into] + [surplus];
    assert DoTransfer(c, res, o, courier, amount).wallets == PostTransfer(c, res, o, courier, amount).wallets;
  }

  lemma TransferSum(c: Credit, res: Reservation, o: string, courier: string, amount: int)
    requires res.wallet in c.wallets && courier in c.wallets
    ensures var c' := PostTransfer(c, res, o, courier, amount);
      Sum(Balances(c'.wallets)) == Sum(Balances(c.wallets))
      && c'.wallets.Keys == c.wallets.Keys && |c'.wallets| == |c.wallets|
  {
    hide Sum, Balances, TransferKey, SurplusKey;
    var out, into, surplus := TransferOutEntry(res, o, courier, amount), TransferInEntry(res, o, courier, amount),
      SurplusEntry(res, o, amount);
    PostBalances(c, out);
    PostBalances(Post(c, out), into);
    PostBalances(Post(Post(c, out), into), surplus);
    hide Post;
  }

  lemma TransferRebuilds(c: Credit, res: Reservation, o: string, courier: string, amount: int)
    requires res.wallet in c.wallets && courier in c.wallets && LedgerRebuilds(c)
    ensures LedgerRebuilds(PostTransfer(c, res, o, courier, amount))
  {
    hide LedgerRebuilds, TransferKey, SurplusKey, Min;
    var out, into, surplus := TransferOutEntry(res, o, courier, amount), TransferInEntry(res, o, courier, amount),
      SurplusEntry(res, o, amount);
    PostRebuilds(c, out);
    PostRebuilds(Post(c, out), into);
    PostRebuilds(Post(Post(c, out), into), surplus);
  }

  lemma TransferKeysFree(c: Credit, res: Reservation, o: string, courier: string, amount: int)
    requires EntriesOk(c) && o in c.reservations && c.reservations[o] == res && res.status == Active && |o| == 36
    requires amount > 0
    requires res.wallet != courier && res.amount > 0
    ensures var out, into, surplus := TransferOutEntry(res, o, courier, amount),
        TransferInEntry(res, o, courier, amount),
                                      SurplusEntry(res, o, amount);
      CanInsert(c.ledger, out) && CanInsert(c.ledger + [out], into)
      && (surplus.availableDelta > 0 ==> CanInsert(c.ledger + [out, into], surplus))
  {
    hide EntriesOk, EntryOk;
    UnusedIsFree(c, KTransfer(o), res.wallet);
    UnusedIsFree(c, KTransfer(o), courier);
    UnusedIsFree(c, KSurplus(o), res.wallet);
    if KSurplus(o).Text() == KTransfer(o).Text() {
      EntryKeyInjective(KSurplus(o), KTransfer(o));
    }
    hide TransferKey, SurplusKey;
  }

  lemma TransferUnique(c: Credit, res: Reservation, o: string, courier: string, amount: int)
    requires res.wallet in c.wallets && courier in c.wallets && KeysUnique(c.ledger)
    requires var out, into, surplus := TransferOutEntry(res, o, courier, amount),
        TransferInEntry(res, o, courier, amount),
                                       SurplusEntry(res, o, amount);
      CanInsert(c.ledger, out) && CanInsert(c.ledger + [out], into)
      && (surplus.availableDelta > 0 ==> CanInsert(c.ledger + [out, into], surplus))
    ensures KeysUnique(PostTransfer(c, res, o, courier, amount).ledger)
  {
    hide KeysUnique, HasKey, TransferKey, SurplusKey, Min;
    var out, into, surplus := TransferOutEntry(res, o, courier, amount), TransferInEntry(res, o, courier, amount),
      SurplusEntry(res, o, amount);
    assert c.ledger + [out, into] == c.ledger + [out] + [into];
    PostUnique(c, out);
    PostUnique(Post(c, out), into);
    if surplus.availableDelta > 0 {
      PostUnique(Post(Post(c, out), into), surplus);
    }
  }

  lemma TransferEntriesOk(c: Credit, res: Reservation, o: string, courier: string, amount: int, i: nat)
    requires o in c.reservations && |o| == 36 && i < |TransferEntries(res, o, courier, amount)|
    ensures var e := TransferEntries(res, o, courier, amount)[i];
      e.wallet in {res.wallet, courier} && EntryOk(c.reservations[o := res.(status := Transferred)], e)
  {
    hide TransferKey, SurplusKey, Min;
  }

  lemma TransferBalances(c: Credit, o: string, courier: string, amount: int)
    requires amount > 0 && o in c.reservations && c.reservations[o].status == Active && NonNegative(c)
    requires var res := c.reservations[o];
      && res.wallet in c.wallets && courier in c.wallets && res.wallet != courier
         && res.amount <= c.wallets[res.wallet].reserved
      && amount - Min(res.amount, amount) <= c.wallets[res.wallet].available
    ensures var res := c.reservations[o];
      var c' := DoTransfer(c, res, o, courier, amount);
      && CanApply(c.wallets[res.wallet], res.amount - amount, -res.amount) && CanApply(c.wallets[courier], amount, 0)
      && NonNegative(c') && c'.initialCredit == c.initialCredit
      && forall s :: s in c.wallets ==>
           s in c'.wallets
             && c'.wallets[s].reserved == c.wallets[s].reserved + Held(res.(status := Transferred), s) - Held(res, s)
  {
    hide TransferKey, SurplusKey;
  }

  /** A transfer whose shortfall is covered meets every constraint. */
  lemma TransferMoves(c: Credit, o: string, courier: string, amount: int)
    requires |o| == 36 && amount > 0 && o in c.reservations && c.reservations[o].status == Active
    requires ReservationsOk(c) && courier in c.wallets && c.reservations[o].wallet != courier
    requires var res := c.reservations[o]; amount - Min(res.amount, amount) <= c.wallets[res.wallet].available
    requires NonNegative(c) && LedgerRebuilds(c) && KeysUnique(c.ledger) && EntriesOk(c) && ReservedIsHeld(c)
    ensures var res := c.reservations[o];
      && CanTransfer(c, res, o, courier, amount)
      && Moved(c, DoTransfer(c, res, o, courier, amount), o, res.(status := Transferred),
               TransferEntries(res, o, courier, amount))
  {
    hide Sum, LedgerRebuilds, KeysUnique, EntriesOk, ReservedIsHeld, EntryOk, Balances, CanInsert, TransferEntries,
         TransferKey, SurplusKey, PostTransfer, DoTransfer, Held, NonNegative, CanApply, Min;
    var res := c.reservations[o];
    var r := res.(status := Transferred);
    HeldIsReserved(c, o);
    TransferBalances(c, o, courier, amount);
    TransferKeysFree(c, res, o, courier, amount);
    TransferUnique(c, res, o, courier, amount);
    TransferIsPosts(c, res, o, courier, amount);
    TransferSum(c, res, o, courier, amount);
    TransferRebuilds(c, res, o, courier, amount);
    RebuildsIgnores(PostTransfer(c, res, o, courier, amount), c.reservations[o := r]);
    forall i | 0 <= i < |TransferEntries(res, o, courier, amount)|
      ensures TransferEntries(res, o, courier, amount)[i].wallet in c.wallets
      ensures EntryOk(c.reservations[o := r], TransferEntries(res, o, courier, amount)[i])
    {
      TransferEntriesOk(c, res, o, courier, amount, i);
    }
  }

  lemma TransferKeepsBooks(c: Credit, o: string, requester: string, courier: string, amount: int)
    requires |o| == 36 && amount > 0 && requester != courier
    requires Books(c)
    ensures var j := JudgeTransfer(c, o, requester, courier, amount);
            if j.Settled?
            then Books(j.credit)
            else j.error == Conflict && o in c.reservations && c.reservations[o].wallet != requester
  {
    hide Sum, LedgerRebuilds, KeysUnique, EntriesOk, ReservedIsHeld, NonNegative, DoTransfer, CanTransfer, Conserved,
         Moved, TransferEntries, Min;
    if o in c.reservations && requester in c.wallets && courier in c.wallets && c.reservations[o].wallet == requester
       && c.reservations[o].status == Active
          && amount - Min(c.reservations[o].amount, amount) <= c.wallets[requester].available {
      TransferMoves(c, o, courier, amount);
      var res := c.reservations[o];
      MovedBooks(c, DoTransfer(c, res, o, courier, amount), o, res.(status := Transferred),
                 TransferEntries(res, o, courier, amount));
    }
  }

  /** A command keeps the books. The only error it can meet is another order owner's reservation: no balance or ledger
      constraint is ever violated. */
  lemma JudgeKeepsBooks(c: Credit, cmd: Command)
    requires CommandOk(cmd)
    requires Books(c)
    ensures var j := Judge(c, cmd);
      if j.Settled? then Books(j.credit)
      else
        && j.error == Conflict && Lower(cmd.order) in c.reservations
        && c.reservations[Lower(cmd.order)].wallet != cmd.requester
  {
    hide Books, JudgeReserve, JudgeAdjust, JudgeRelease, JudgeTransfer, SubjectOk, Hex;
    match cmd
    case ReserveCommand(order, _, requester, amount) => ReserveKeepsBooks(c, Lower(order), requester, amount);
    case AdjustCommand(order, _, requester, newAmount, seqNo) =>
      AdjustKeepsBooks(c, Lower(order), requester, newAmount, seqNo);
    case ReleaseCommand(order, _, requester) => ReleaseKeepsBooks(c, Lower(order), requester);
    case TransferCommand(order, _, requester, courier, amount) =>
      TransferKeepsBooks(c, Lower(order), requester, courier, amount);
  }

  // ---------------------------------------------------------------- deliveries and new wallets

  lemma RecordsKeepBooks(c: Credit, processed: map<string, Result>, outbox: set<Reply>)
    requires Books(c)
    ensures Books(c.(processed := processed, outbox := outbox))
  {
    hide Sum, AvailableOn, ReservedOn, EntryOk;
  }

  lemma ProcessKeepsBooks(c: Credit, message: string, cmd: Command)
    requires Books(c)
    ensures Books(Process(c, message, cmd))
  {
    hide Books, Judge, CommandOk;
    if CommandOk(cmd) {
      JudgeKeepsBooks(c, cmd);
      var r := Execute(c, message, cmd);
      if r.Settled? {
        var from := if message in c.processed then c else Judge(c, cmd).credit;
        RecordsKeepBooks(from, r.credit.processed, r.credit.outbox);
        assert r.credit == from.(processed := r.credit.processed, outbox := r.credit.outbox);
      }
    }
  }

  lemma NewWalletSum(wallets: map<string, Wallet>, subject: string, w: Wallet)
    requires subject !in wallets && w.available == 0 && w.reserved == 0
    ensures Sum(Balances(wallets[subject := w])) == Sum(Balances(wallets))
  {
    hide Sum;
    assert Balances(wallets[subject := w]) == Balances(wallets)[subject := 0];
    SumPut(Balances(wallets), subject, 0);
  }

  lemma OneMore(wallets: map<string, Wallet>, subject: string, w: Wallet)
    requires subject !in wallets
    ensures |wallets[subject := w]| == |wallets| + 1
  {
    assert wallets[subject := w].Keys == wallets.Keys + {subject};
  }

  /** Nothing in the books mentions a wallet that does not exist. */
  lemma UnknownWallet(c: Credit, subject: string)
    requires subject !in c.wallets && ReservationsOk(c) && EntriesOk(c)
    ensures AvailableOn(c.ledger, subject) == 0 && ReservedOn(c.ledger, subject) == 0
    ensures Sum(HeldOn(c.reservations, subject)) == 0
    ensures forall key :: !HasKey(c.ledger, subject, key)
  {
    hide EntryOk, Sum, AvailableOn, ReservedOn;
    NothingElsewhere(c.ledger, c.wallets.Keys, subject);
    SumZero(HeldOn(c.reservations, subject));
  }

  /** An empty wallet keeps the books, but for its allocation. */
  lemma EmptyWallet(c: Credit, subject: string, w: Wallet)
    requires subject !in c.wallets && w.available == 0 && w.reserved == 0
    requires NonNegative(c) && ReservedIsHeld(c) && LedgerRebuilds(c) && ReservationsOk(c) && EntriesOk(c)
    ensures var c' := c.(wallets := c.wallets[subject := w]);
      NonNegative(c') && ReservedIsHeld(c') && LedgerRebuilds(c') && ReservationsOk(c') && EntriesOk(c')
  {
    hide EntryOk, Sum, AvailableOn, ReservedOn;
    UnknownWallet(c, subject);
  }

  lemma AllocationKeepsBooks(c: Credit, e: LedgerEntry)
    requires e.wallet in c.wallets && e.kind == Allocate && e.key == INITIAL_ALLOCATION_KEY
    requires e.availableDelta == c.initialCredit && e.reservedDelta == 0
    requires !HasKey(c.ledger, e.wallet, e.key)
    requires Sum(Balances(c.wallets)) + c.initialCredit == c.initialCredit * |c.wallets|
    requires NonNegative(c) && ReservedIsHeld(c) && LedgerRebuilds(c) && KeysUnique(c.ledger) && ReservationsOk(c)
    requires EntriesOk(c)
    ensures Books(Post(c, e))
  {
    hide Sum, AvailableOn, ReservedOn, HasKey, Balances;
    PostBalances(c, e);
    PostRebuilds(c, e);
    PostUnique(c, e);
    AllocationEntries(c, e);
    hide LedgerRebuilds, KeysUnique, EntriesOk;
  }

  lemma AllocationEntries(c: Credit, e: LedgerEntry)
    requires e.wallet in c.wallets && e.kind == Allocate && e.key == INITIAL_ALLOCATION_KEY && EntriesOk(c)
    ensures EntriesOk(Post(c, e))
  {
    var c' := Post(c, e);
    assert EntryOk(c'.reservations, e);
    hide EntryOk;
    forall i | 0 <= i < |c'.ledger|
      ensures c'.ledger[i].wallet in c'.wallets && EntryOk(c'.reservations, c'.ledger[i])
    {
      assert i < |c.ledger| ==> c'.ledger[i] == c.ledger[i];
    }
  }

  lemma CreateKeepsBooks(c: Credit, owner: string, subject: string)
    requires Books(c)
    ensures Books(CreateWallet(c, owner, subject))
  {
    hide Sum, NonNegative, ReservedIsHeld, LedgerRebuilds, KeysUnique, ReservationsOk, EntriesOk, HasKey, Balances,
         MatchesUuid, SubjectOk, OwnerHasWallet;
    if CreateWallet(c, owner, subject) != c {
      var w := Wallet(Lower(owner), 0, 0);
      var empty := c.(wallets := c.wallets[subject := w]);
      EmptyWallet(c, subject, w);
      NewWalletSum(c.wallets, subject, w);
      OneMore(c.wallets, subject, w);
      UnknownWallet(c, subject);
      assert c.initialCredit * |empty.wallets| == c.initialCredit * |c.wallets| + c.initialCredit;
      if c.initialCredit > 0 {
        AllocationKeepsBooks(empty, LedgerEntry(subject, Allocate, c.initialCredit, 0, "", "", INITIAL_ALLOCATION_KEY));
      }
    }
  }

  // ---------------------------------------------------------------- every run of credit-service

  datatype CreditStep = Creates(owner: string, subject: string) | Handles(message: string, cmd: Command)

  function CreditDo(c: Credit, s: CreditStep): (c': Credit) {
    match s
    case Creates(owner, subject) => CreateWallet(c, owner, subject)
    case Handles(message, cmd) => Process(c, message, cmd)
  }

  function EmptyCredit(initialCredit: nat): (c: Credit) {
    Credit(initialCredit, map[], map[], [], {}, map[], {})
  }

  function CreditRun(initialCredit: nat, steps: seq<CreditStep>): (c: Credit) {
    if steps == [] then EmptyCredit(initialCredit)
    else CreditDo(CreditRun(initialCredit, steps[..|steps| - 1]), steps[|steps| - 1])
  }

  lemma EmptyBooks(initialCredit: nat)
    ensures Books(EmptyCredit(initialCredit))
  {
    SumZero(Balances(map[]));
  }

  /** Over any commands and wallet creations whatsoever: credits are conserved, no balance is negative, reserved credits
      are exactly the active reservations, the ledger rebuilds every balance and no ledger key repeats. */
  lemma {:induction false} BooksInRuns(initialCredit: nat, steps: seq<CreditStep>)
    ensures Books(CreditRun(initialCredit, steps))
  {
    hide Books, CreateWallet, Process;
    if steps == [] {
      EmptyBooks(initialCredit);
    } else {
      var before := CreditRun(initialCredit, steps[..|steps| - 1]);
      BooksInRuns(initialCredit, steps[..|steps| - 1]);
      match steps[|steps| - 1]
      case Creates(owner, subject) => CreateKeepsBooks(before, owner, subject);
      case Handles(message, cmd) => ProcessKeepsBooks(before, message, cmd);
    }
  }

  /** Every balance is at most the economy's total. */
  ghost predicate Bounded(c: Credit) {
    forall s :: s in c.wallets ==> 0 <= c.wallets[s].available + c.wallets[s].reserved <= c.initialCredit * |c.wallets|
  }

  lemma BooksBound(c: Credit)
    requires Books(c)
    ensures Bounded(c)
  {
    hide Sum, AvailableOn, ReservedOn, EntryOk, HeldOn;
    forall s | s in c.wallets
      ensures 0 <= c.wallets[s].available + c.wallets[s].reserved <= c.initialCredit * |c.wallets|
    {
      SumBounds(Balances(c.wallets), s);
    }
  }

  /** An attempt to write the ledger or a balance is never refused: every error is invalid input, a message the code
      cannot store, or a command for somebody else's reservation. */
  lemma ErrorsAreCallers(initialCredit: nat, steps: seq<CreditStep>, message: string, cmd: Command)
    ensures var c := CreditRun(initialCredit, steps);
      && Bounded(c)
      && (Execute(c, message, cmd) == Refused(Database) <==>
            CommandOk(cmd) && 0 < |message| <= MAX_MESSAGE_ID_LENGTH && cmd.version < 1
            && (message in c.processed || Judge(c, cmd).Settled?))
  {
    hide Books, Judge, CommandOk, Bounded;
    var c := CreditRun(initialCredit, steps);
    BooksInRuns(initialCredit, steps);
    BooksBound(c);
    if CommandOk(cmd) {
      JudgeKeepsBooks(c, cmd);
    }
  }

  // ---------------------------------------------------------------- 64-bit arithmetic

  const MAX_INT64 := 0x7FFF_FFFF_FFFF_FFFF

  predicate Int64(n: int) {
    -MAX_INT64 - 1 <= n <= MAX_INT64
  }

  /** The amounts and sequence number a command carries. */
  predicate CommandInt64(cmd: Command) {
    match cmd
    case ReserveCommand(_, _, _, amount) => Int64(amount)
    case AdjustCommand(_, _, _, newAmount, seqNo) => Int64(newAmount) && Int64(seqNo)
    case ReleaseCommand(_, _, _) => true
    case TransferCommand(_, _, _, _, amount) => Int64(amount)
  }

  /** What the order holds, if its reservation is active. */
  function ActiveAmount(c: Credit, order: string): (held: Option<int>) {
    var o := Lower(order);
    if o in c.reservations && c.reservations[o].status == Active then Some(c.reservations[o].amount) else None
  }

  /** Every number a command computes on its way. A reserve needs no reservation; the others compute only on an active
      one. */
  function Computed(cmd: Command, held: Option<int>): (ns: seq<int>) {
    match (cmd, held)
    case (ReserveCommand(_, _, _, amount), _) => [-amount]
    case (_, None) => []
    case (AdjustCommand(_, _, _, newAmount, _), Some(h)) => [newAmount - h, -(newAmount - h)]
    case (ReleaseCommand(_, _, _), Some(h)) => [-h]
    case (TransferCommand(_, _, _, _, amount), Some(h)) =>
      var from := Min(h, amount);
      [from, amount - from, h - from, -(amount - from), -from, (h - from) - (amount - from), -h]
  }

  lemma ComputedFits(cmd: Command, held: Option<int>)
    requires CommandOk(cmd) && CommandInt64(cmd) && (held.Some? ==> 0 <= held.value <= MAX_INT64)
    ensures forall i :: 0 <= i < |Computed(cmd, held)| ==> Int64(Computed(cmd, held)[i])
  {
    hide SubjectOk, MatchesUuid;
  }

  /** A command opens no wallet. */
  lemma ProcessKeepsWallets(c: Credit, message: string, cmd: Command)
    ensures Process(c, message, cmd).wallets.Keys == c.wallets.Keys
      && Process(c, message, cmd).initialCredit == c.initialCredit
  {
    hide CommandOk, Judge;
    if CommandOk(cmd) {
      JudgeKeepsWallets(c, cmd);
    }
  }

  lemma JudgeKeepsWallets(c: Credit, cmd: Command)
    requires CommandOk(cmd)
    ensures var j := Judge(c, cmd);
      j.Settled? ==> j.credit.wallets.Keys == c.wallets.Keys && j.credit.initialCredit == c.initialCredit
  {
    hide SubjectOk, MatchesUuid, CanInsert, Lower, CanPost, CanTransfer;
  }

  /** Whenever the whole economy fits 64 bits, so does every number a command computes and every balance it leaves. */
  lemma ArithmeticFits(initialCredit: nat, steps: seq<CreditStep>, message: string, cmd: Command)
    requires CommandOk(cmd) && CommandInt64(cmd)
    ensures var c := CreditRun(initialCredit, steps);
      var ns := Computed(cmd, ActiveAmount(c, cmd.order));
      c.initialCredit * |c.wallets| <= MAX_INT64 ==>
        && (forall i :: 0 <= i < |ns| ==> Int64(ns[i]))
        && var c' := Process(c, message, cmd);
           forall s :: s in c'.wallets ==> Int64(c'.wallets[s].available) && Int64(c'.wallets[s].reserved)
  {
    hide CreditRun, Process, Computed, CommandOk, Conserved, LedgerRebuilds, KeysUnique, EntriesOk, ReservedIsHeld;
    var c := CreditRun(initialCredit, steps);
    var c' := Process(c, message, cmd);
    BooksInRuns(initialCredit, steps);
    ProcessKeepsBooks(c, message, cmd);
    BooksBound(c);
    BooksBound(c');
    ProcessKeepsWallets(c, message, cmd);
    assert |c'.wallets.Keys| == |c.wallets.Keys|;
    if c.initialCredit * |c.wallets| <= MAX_INT64 {
      if ActiveAmount(c, cmd.order).Some? {
        HeldIsReserved(c, Lower(cmd.order));
      }
      ComputedFits(cmd, ActiveAmount(c, cmd.order));
    }
    hide Sum;
  }
}
