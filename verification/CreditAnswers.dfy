/** What credit-service answers to every command, and what moves, written out on balances and reservations. */
module CreditAnswers {
  import opened Wallets
  import opened Economy

  // ---------------------------------------------------------------- valid commands

  /** 36 characters, hexadecimal in either case, with four hyphens. */
  predicate UuidShaped(s: string) {
    && |s| == 36
    && forall i :: 0 <= i < 36 ==>
         if i in {8, 13, 18, 23} then s[i] == '-'
         else '0' <= s[i] <= '9' || 'a' <= s[i] <= 'f' || 'A' <= s[i] <= 'F'
  }

  /** `id` is how `s` is stored: the same digits, in lower case. */
  predicate StoredAs(s: string, id: string) {
    && |s| == |id| == 36
    && forall i :: 0 <= i < 36 ==>
         if 'A' <= s[i] <= 'F' then id[i] as int == s[i] as int + 32 else id[i] == s[i]
  }

  /** 1 to 255 printable characters, the first and the last no spaces. */
  predicate SubjectShaped(s: string) {
    && 1 <= |s| <= 255
    && s[0] as int !in {32, 160} && s[|s| - 1] as int !in {32, 160}
    && forall i :: 0 <= i < |s| ==> 32 <= s[i] as int <= 126 || 160 <= s[i] as int
  }

  predicate WellFormedCommand(message: string, cmd: Command) {
    && 1 <= |message| <= 512 && UuidShaped(cmd.order) && SubjectShaped(cmd.requester)
    && match cmd
       case ReserveCommand(_, _, _, amount) => amount > 0
       case AdjustCommand(_, _, _, newAmount, seqNo) => newAmount > 0 && seqNo > 0
       case ReleaseCommand(_, _, _) => true
       case TransferCommand(_, _, requester, courier, amount) =>
         SubjectShaped(courier) && courier != requester && amount > 0
  }

  lemma UuidAgrees(s: string)
    ensures MatchesUuid(s) <==> UuidShaped(s)
  {
  }

  lemma SubjectAgrees(s: string)
    ensures SubjectOk(s) <==> SubjectShaped(s)
  {
  }

  lemma CommandAgrees(message: string, cmd: Command)
    ensures CommandOk(cmd) && message != "" && |message| <= MAX_MESSAGE_ID_LENGTH <==> WellFormedCommand(message, cmd)
  {
    UuidAgrees(cmd.order);
    SubjectAgrees(cmd.requester);
    if cmd.TransferCommand? {
      SubjectAgrees(cmd.courier);
    }
    hide MatchesUuid, UuidShaped, SubjectOk, SubjectShaped;
  }

  lemma StoredIsLower(s: string, id: string)
    requires UuidShaped(s) && StoredAs(s, id)
    ensures Lower(s) == id
  {
  }

  // ---------------------------------------------------------------- what moves

  /** Nothing but the remembered results and the recorded replies differs. */
  predicate SameBooks(c: Credit, c': Credit) {
    && c'.wallets == c.wallets && c'.reservations == c.reservations && c'.ledger == c.ledger
    && c'.tombstones == c.tombstones && c'.initialCredit == c.initialCredit
  }

  /** `wallet` moves `n` credits from available to reserved, and the order's reservation becomes `r`. */
  predicate Holds(c: Credit, c': Credit, wallet: string, n: int, o: string, r: Reservation)
    requires wallet in c.wallets
  {
    var w := c.wallets[wallet];
    && c'.wallets == c.wallets[wallet := Wallet(w.owner, w.available - n, w.reserved + n)]
    && c'.reservations == c.reservations[o := r] && c'.tombstones == c.tombstones
  }

  /** The courier gets the amount, the requester pays it from the reservation first and gets back what is left of it. */
  predicate Pays(c: Credit, c': Credit, requester: string, courier: string, amount: int, o: string)
    requires requester in c.wallets && courier in c.wallets && o in c.reservations
  {
    var from, to, res := c.wallets[requester], c.wallets[courier], c.reservations[o];
    && c'.wallets == c.wallets[requester := Wallet(from.owner, from.available + res.amount - amount,
                                                   from.reserved - res.amount)]
                              [courier := Wallet(to.owner, to.available + amount, to.reserved)]
    && c'.reservations == c.reservations[o := Reservation(res.wallet, res.amount, Transferred, res.lastAdjustSeq)]
    && c'.tombstones == c.tombstones
  }

  // ---------------------------------------------------------------- the answers

  /** The command settled with this result. */
  predicate Gets(r: Judged, result: Result) {
    r.Settled? && r.result == result
  }

  predicate ReserveAnswered(c: Credit, o: string, requester: string, amount: int, r: Judged) {
    if o in c.tombstones then Gets(r, ReservationRefusedResult(ReservationReleased)) && SameBooks(c, r.credit)
    else if o in c.reservations then Gets(r, ReservedResult(c.reservations[o].amount)) && SameBooks(c, r.credit)
    else if requester !in c.wallets then
      Gets(r, ReservationRefusedResult(AccountNotFound)) && SameBooks(c, r.credit)
    else if amount <= c.wallets[requester].available then
      && Gets(r, ReservedResult(amount))
      && Holds(c, r.credit, requester, amount, o, Reservation(requester, amount, Active, 0))
    else Gets(r, ReservationRefusedResult(InsufficientCredits)) && SameBooks(c, r.credit)
  }

  predicate AdjustAnswered(c: Credit, o: string, requester: string, newAmount: int, seqNo: int, r: Judged) {
    if o !in c.reservations then Gets(r, AdjustRefusedResult(ReservationNotActive, seqNo)) && SameBooks(c, r.credit)
    else
      var res := c.reservations[o];
      if res.wallet != requester then r == Refused(Conflict)
      else if res.status != Active then
        Gets(r, AdjustRefusedResult(ReservationNotActive, seqNo)) && SameBooks(c, r.credit)
      else if seqNo <= res.lastAdjustSeq then Gets(r, AdjustedResult(res.amount, seqNo)) && SameBooks(c, r.credit)
      else if requester in c.wallets && newAmount <= res.amount + c.wallets[requester].available then
        && Gets(r, AdjustedResult(newAmount, seqNo))
        && Holds(c, r.credit, requester, newAmount - res.amount, o, Reservation(requester, newAmount, Active, seqNo))
      else Gets(r, AdjustRefusedResult(InsufficientCredits, seqNo)) && SameBooks(c, r.credit)
  }

  predicate ReleaseAnswered(c: Credit, o: string, requester: string, r: Judged) {
    if o !in c.reservations then
      && Gets(r, ReleasedResult) && r.credit.tombstones == c.tombstones + {o}
      && SameBooks(c, r.credit.(tombstones := c.tombstones))
    else
      var res := c.reservations[o];
      if res.wallet != requester then r == Refused(Conflict)
      else
        match res.status
        case Active =>
          && Gets(r, ReleasedResult) && requester in c.wallets
          && Holds(c, r.credit, requester, -res.amount, o,
                   Reservation(requester, res.amount, Released, res.lastAdjustSeq))
        case Released => Gets(r, ReleasedResult) && SameBooks(c, r.credit)
        case Transferred => Gets(r, OperationFailedResult(ReservationAlreadyTransferred)) && SameBooks(c, r.credit)
  }

  /** An active reservation pays exactly when it and the requester's available credits cover the amount. */
  predicate TransferAnswered(c: Credit, o: string, requester: string, courier: string, amount: int, r: Judged) {
    if o !in c.reservations then
      && Gets(r, OperationFailedResult(if o in c.tombstones then ReservationAlreadyReleased else ReservationNotFound))
      && SameBooks(c, r.credit)
    else if requester !in c.wallets || courier !in c.wallets then
      Gets(r, OperationFailedResult(AccountNotFound)) && SameBooks(c, r.credit)
    else
      var res := c.reservations[o];
      if res.wallet != requester then r == Refused(Conflict)
      else
        match res.status
        case Transferred => Gets(r, TransferredResult) && SameBooks(c, r.credit)
        case Released => Gets(r, OperationFailedResult(ReservationAlreadyReleased)) && SameBooks(c, r.credit)
        case Active =>
          if amount <= res.amount + c.wallets[requester].available
          then Gets(r, TransferredResult) && Pays(c, r.credit, requester, courier, amount, o)
          else Gets(r, OperationFailedResult(InsufficientCredits)) && SameBooks(c, r.credit)
  }

  predicate FirstAnswered(c: Credit, o: string, cmd: Command, r: Judged) {
    match cmd
    case ReserveCommand(_, _, requester, amount) => ReserveAnswered(c, o, requester, amount, r)
    case AdjustCommand(_, _, requester, newAmount, seqNo) => AdjustAnswered(c, o, requester, newAmount, seqNo, r)
    case ReleaseCommand(_, _, requester) => ReleaseAnswered(c, o, requester, r)
    case TransferCommand(_, _, requester, courier, amount) => TransferAnswered(c, o, requester, courier, amount, r)
  }

  /** Every settled delivery is answered, and its result is remembered unless it is a failed operation. */
  predicate Recorded(c: Credit, o: string, message: string, version: int, r: Judged) {
    r.Settled? ==>
      && r.credit.outbox == c.outbox + {Reply(message, o, version, r.result)}
      && r.credit.processed == if r.result.OperationFailedResult? then c.processed else c.processed[message := r.result]
  }

  /** The whole answer to a delivery, for the order's stored ID `o`. */
  predicate Answered(c: Credit, o: string, message: string, cmd: Command, r: Judged) {
    if message in c.processed then
      && (if cmd.version >= 1 then Gets(r, c.processed[message]) && SameBooks(c, r.credit) else r == Refused(Database))
      && Recorded(c, o, message, cmd.version, r)
    else if cmd.version >= 1 then FirstAnswered(c, o, cmd, r) && Recorded(c, o, message, cmd.version, r)
    else r.Refused?
  }

  // ---------------------------------------------------------------- credit-service gives them

  lemma ReserveGives(c: Credit, o: string, requester: string, amount: int)
    requires |o| == 36 && amount > 0
    requires Books(c)
    ensures ReserveAnswered(c, o, requester, amount, JudgeReserve(c, o, requester, amount))
  {
    hide Books, CanPost;
    ReserveKeepsBooks(c, o, requester, amount);
  }

  lemma AdjustGives(c: Credit, o: string, requester: string, newAmount: int, seqNo: int)
    requires |o| == 36 && newAmount > 0 && seqNo > 0
    requires Books(c)
    ensures AdjustAnswered(c, o, requester, newAmount, seqNo, JudgeAdjust(c, o, requester, newAmount, seqNo))
  {
    hide Books, CanPost;
    AdjustKeepsBooks(c, o, requester, newAmount, seqNo);
    OwnerKnown(c, o);
    if o in c.reservations && requester in c.wallets && newAmount == c.reservations[o].amount {
      assert c.wallets[requester := c.wallets[requester]] == c.wallets;
    }
  }

  lemma OwnerKnown(c: Credit, o: string)
    requires Books(c)
    ensures o in c.reservations ==> c.reservations[o].wallet in c.wallets
  {
  }

  lemma ReleaseGives(c: Credit, o: string, requester: string)
    requires |o| == 36
    requires Books(c)
    ensures ReleaseAnswered(c, o, requester, JudgeRelease(c, o, requester))
  {
    hide Books, CanPost;
    ReleaseKeepsBooks(c, o, requester);
    OwnerKnown(c, o);
  }

  lemma TransferGives(c: Credit, o: string, requester: string, courier: string, amount: int)
    requires |o| == 36 && amount > 0 && requester != courier
    requires Books(c)
    ensures TransferAnswered(c, o, requester, courier, amount, JudgeTransfer(c, o, requester, courier, amount))
  {
    hide Books, CanTransfer;
    TransferKeepsBooks(c, o, requester, courier, amount);
    WalletsNotNegative(c, requester);
  }

  lemma WalletsNotNegative(c: Credit, s: string)
    requires Books(c)
    ensures s in c.wallets ==> c.wallets[s].available >= 0
  {
  }

  lemma JudgeGives(c: Credit, o: string, cmd: Command)
    requires CommandOk(cmd) && Lower(cmd.order) == o && |o| == 36
    requires Books(c)
    ensures FirstAnswered(c, o, cmd, Judge(c, cmd))
    ensures Judge(c, cmd).Settled? ==>
      Judge(c, cmd).credit.processed == c.processed && Judge(c, cmd).credit.outbox == c.outbox
  {
    hide Books, ReserveAnswered, AdjustAnswered, ReleaseAnswered, TransferAnswered, MatchesUuid, SubjectOk, Lower;
    match cmd
    case ReserveCommand(_, _, requester, amount) => ReserveGives(c, o, requester, amount);
    case AdjustCommand(_, _, requester, newAmount, seqNo) => AdjustGives(c, o, requester, newAmount, seqNo);
    case ReleaseCommand(_, _, requester) => ReleaseGives(c, o, requester);
    case TransferCommand(_, _, requester, courier, amount) => TransferGives(c, o, requester, courier, amount);
  }

  /** What is remembered and recorded does not matter to the answer. */
  lemma RecordingKeepsAnswer(c: Credit, o: string, cmd: Command, r: Judged, processed: map<string, Result>,
                             outbox: set<Reply>)
    requires FirstAnswered(c, o, cmd, r) && r.Settled?
    ensures FirstAnswered(c, o, cmd, Settled(r.credit.(processed := processed, outbox := outbox), r.result))
  {
  }

  lemma ExecuteGives(c: Credit, o: string, message: string, cmd: Command)
    requires WellFormedCommand(message, cmd) && StoredAs(cmd.order, o)
    requires Books(c)
    ensures Answered(c, o, message, cmd, Execute(c, message, cmd))
  {
    hide Books, FirstAnswered, Judge, CommandOk, UuidShaped, SubjectShaped;
    CommandAgrees(message, cmd);
    StoredIsLower(cmd.order, o);
    if message in c.processed {
      RememberedKept(c, message, cmd);
    } else {
      JudgeGives(c, o, cmd);
      var j := Judge(c, cmd);
      if j.Settled? && cmd.version >= 1 {
        var r := Execute(c, message, cmd);
        RecordingKeepsAnswer(c, o, cmd, j, r.credit.processed, r.credit.outbox);
      }
    }
    hide Lower, StoredAs;
  }

  lemma RememberedKept(c: Credit, message: string, cmd: Command)
    requires message in c.processed
    ensures c.processed[message := c.processed[message]] == c.processed
  {
  }

  /** After any commands and wallet creations, for every delivery: a malformed one is refused; a repeat gets its first
      result and moves nothing; any other gets exactly the answer, and moves exactly the credits, written out above. */
  lemma AnswersInRuns(initialCredit: nat, steps: seq<CreditStep>, o: string, message: string, cmd: Command)
    ensures var c := CreditRun(initialCredit, steps);
      if !WellFormedCommand(message, cmd) then Execute(c, message, cmd) == Refused(Invalid)
      else StoredAs(cmd.order, o) ==> Answered(c, o, message, cmd, Execute(c, message, cmd))
  {
    hide CreditRun, Books, Answered, WellFormedCommand, CommandOk, StoredAs;
    BooksInRuns(initialCredit, steps);
    CommandAgrees(message, cmd);
    if WellFormedCommand(message, cmd) && StoredAs(cmd.order, o) {
      ExecuteGives(CreditRun(initialCredit, steps), o, message, cmd);
    }
  }

  // ---------------------------------------------------------------- wallets

  /** A new wallet of a new owner starts with the initial allocation; anything else changes nothing. */
  predicate WalletAnswered(c: Credit, owner: string, o: string, subject: string, c': Credit) {
    if UuidShaped(owner) && SubjectShaped(subject) && subject !in c.wallets
       && (forall s :: s in c.wallets ==> c.wallets[s].owner != o)
    then c' == c.(wallets := c.wallets[subject := Wallet(o, c.initialCredit, 0)],
                  ledger := if c.initialCredit == 0 then c.ledger
                            else c.ledger + [LedgerEntry(subject, Allocate, c.initialCredit, 0, "", "",
                                                         "initial-allocation")])
    else c' == c
  }

  lemma NewWalletPosts(c: Credit, subject: string)
    requires subject !in c.wallets && Books(c)
    ensures !HasKey(c.ledger, subject, "initial-allocation")
  {
    hide EntryOk;
  }

  lemma WalletsInRuns(initialCredit: nat, steps: seq<CreditStep>, owner: string, o: string, subject: string)
    requires UuidShaped(owner) ==> StoredAs(owner, o)
    ensures var c := CreditRun(initialCredit, steps);
      WalletAnswered(c, owner, o, subject, CreateWallet(c, owner, subject))
  {
    hide CreditRun, Books, MatchesUuid, UuidShaped, SubjectOk, SubjectShaped, HasKey, StoredAs, Lower;
    BooksInRuns(initialCredit, steps);
    var c := CreditRun(initialCredit, steps);
    UuidAgrees(owner);
    SubjectAgrees(subject);
    if UuidShaped(owner) {
      StoredIsLower(owner, o);
    }
    if subject !in c.wallets {
      NewWalletPosts(c, subject);
    }
  }
}
