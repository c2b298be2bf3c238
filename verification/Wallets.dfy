/** credit-service: wallets, one reservation per order, the append-only ledger, release tombstones
    and the table of processed commands. Every command is one transaction over this state. */
module Wallets {
  import opened Keys

  const MAX_MESSAGE_ID_LENGTH := 512
  const MAX_SUBJECT_LENGTH := 255
  const INITIAL_ALLOCATION_KEY := "initial-allocation"

  /** Wallets are addressed by Auth0 subject, which is unique. */
  datatype Wallet = Wallet(owner: string, available: int, reserved: int)

  datatype ReservationStatus = Active | Released | Transferred

  datatype Reservation = Reservation(wallet: string, amount: int, status: ReservationStatus, lastAdjustSeq: int)

  datatype EntryType = Allocate | ReserveEntry | ReservationAdjust | ReleaseEntry | TransferOut | TransferIn

  /** `order` and `counterparty` are empty for NULL. */
  datatype LedgerEntry = LedgerEntry(
    wallet: string, kind: EntryType, availableDelta: int, reservedDelta: int,
    order: string, counterparty: string, key: string)

  datatype ResultCode =
    | InsufficientCredits | AccountNotFound | ReservationReleased | ReservationNotActive
    | ReservationAlreadyTransferred | ReservationAlreadyReleased | ReservationNotFound

  /** The outcome of a command; a business refusal is a result. */
  datatype Result =
    | ReservedResult(amount: int)
    | ReservationRefusedResult(code: ResultCode)
    | AdjustedResult(amount: int, seqNo: int)
    | AdjustRefusedResult(code: ResultCode, seqNo: int)
    | ReleasedResult
    | TransferredResult
    | OperationFailedResult(code: ResultCode)

  datatype Command =
    | ReserveCommand(order: string, version: int, requester: string, amount: int)
    | AdjustCommand(order: string, version: int, requester: string, newAmount: int, seqNo: int)
    | ReleaseCommand(order: string, version: int, requester: string)
    | TransferCommand(order: string, version: int, requester: string, courier: string, amount: int)

  /** An error means the command could not be judged. `Database` is a refused write. */
  datatype Error = Invalid | Conflict | Database

  /** A result recorded for delivery, with the command it answers. */
  datatype Reply = Reply(command: string, order: string, version: int, result: Result)

  datatype Credit = Credit(
    initialCredit: nat,
    wallets: map<string, Wallet>,
    reservations: map<string, Reservation>,
    ledger: seq<LedgerEntry>,
    tombstones: set<string>,
    processed: map<string, Result>,
    outbox: set<Reply>)

  datatype Judged = Settled(credit: Credit, result: Result) | Refused(error: Error)

  // ---------------------------------------------------------------- validation

  predicate Hex(c: char) {
    LowerHex(c) || 'A' <= c <= 'F'
  }

  predicate MatchesUuid(s: string) {
    && |s| == 36
    && (forall i :: 0 <= i < 36 ==> if i == 8 || i == 13 || i == 18 || i == 23 then s[i] == '-' else Hex(s[i]))
  }

  function LowerChar(c: char): (r: char) {
    if 'A' <= c <= 'Z' then (c as int + 32) as char else c
  }

  function Lower(s: string): (r: string)
    ensures |r| == |s|
  {
    seq(|s|, i requires 0 <= i < |s| => LowerChar(s[i]))
  }

  predicate SubjectSpace(c: char) {
    c == ' ' || c == '\t' || c == '\n' || c == '\r' || c as int == 11 || c as int == 12 || c as int == 0x85
      || c as int == 0xA0
  }

  /** Non-empty, no surrounding whitespace, at most 255 characters, no control characters. */
  predicate SubjectOk(s: string) {
    && 0 < |s| <= MAX_SUBJECT_LENGTH
    && !SubjectSpace(s[0]) && !SubjectSpace(s[|s| - 1])
    && (forall i :: 0 <= i < |s| ==> !(s[i] as int < 32 || 127 <= s[i] as int < 160))
  }

  predicate CommandOk(c: Command) {
    && MatchesUuid(c.order)
    && SubjectOk(c.requester)
    && match c
       case ReserveCommand(_, _, _, amount) => amount > 0
       case AdjustCommand(_, _, _, newAmount, seqNo) => newAmount > 0 && seqNo > 0
       case ReleaseCommand(_, _, _) => true
       case TransferCommand(_, _, requester, courier, amount) =>
         SubjectOk(courier) && courier != requester && amount > 0
  }

  // ---------------------------------------------------------------- ledger writes

  function ReserveKey(order: string): (k: string) { "reserve:" + order }
  function AdjustKey(order: string, seqNo: nat): (k: string) { "adjust:" + order + ":" + Itoa(seqNo) }
  function ReleaseKey(order: string): (k: string) { "release:" + order }
  function TransferKey(order: string): (k: string) { "transfer:" + order }
  function SurplusKey(order: string): (k: string) { "transfer-surplus:" + order }

  predicate HasKey(ledger: seq<LedgerEntry>, wallet: string, key: string) {
    exists i :: 0 <= i < |ledger| && ledger[i].wallet == wallet && ledger[i].key == key
  }

  /** The ledger's unique (wallet, key) index and its non-zero-delta constraint. */
  predicate CanInsert(ledger: seq<LedgerEntry>, e: LedgerEntry) {
    && !HasKey(ledger, e.wallet, e.key)
    && (e.availableDelta != 0 || e.reservedDelta != 0)
  }

  /** The wallet's non-negative balance constraints. */
  predicate CanApply(w: Wallet, da: int, dr: int) {
    w.available + da >= 0 && w.reserved + dr >= 0
  }

  function WithDeltas(w: Wallet, da: int, dr: int): (r: Wallet) {
    w.(available := w.available + da, reserved := w.reserved + dr)
  }

  /** Inserts `e` and applies its deltas to its wallet. */
  function Post(c: Credit, e: LedgerEntry): (r: Credit)
    requires e.wallet in c.wallets
  {
    c.(ledger := c.ledger + [e],
       wallets := c.wallets[e.wallet := WithDeltas(c.wallets[e.wallet], e.availableDelta, e.reservedDelta)])
  }

  predicate CanPost(c: Credit, e: LedgerEntry)
    requires e.wallet in c.wallets
  {
    CanInsert(c.ledger, e) && CanApply(c.wallets[e.wallet], e.availableDelta, e.reservedDelta)
  }

  // ---------------------------------------------------------------- commands

  function JudgeReserve(c: Credit, order: string, requester: string, amount: int): (r: Judged) {
    if order in c.tombstones then Settled(c, ReservationRefusedResult(ReservationReleased))
    else if order in c.reservations then Settled(c, ReservedResult(c.reservations[order].amount))
    else if requester !in c.wallets then Settled(c, ReservationRefusedResult(AccountNotFound))
    else if c.wallets[requester].available < amount then Settled(c, ReservationRefusedResult(InsufficientCredits))
    else
      var e := LedgerEntry(requester, ReserveEntry, -amount, amount, order, "", ReserveKey(order));
      if !CanPost(c, e) then Refused(Database)
      else
        Settled(Post(c, e).(reservations := c.reservations[order := Reservation(requester, amount, Active, 0)]),
                ReservedResult(amount))
  }

  function JudgeAdjust(c: Credit, order: string, requester: string, newAmount: int, seqNo: int): (r: Judged)
    requires seqNo > 0
  {
    if order !in c.reservations then Settled(c, AdjustRefusedResult(ReservationNotActive, seqNo))
    else
      var res := c.reservations[order];
      if requester !in c.wallets || res.wallet != requester then Refused(Conflict)
      else if res.status != Active then Settled(c, AdjustRefusedResult(ReservationNotActive, seqNo))
      else if seqNo <= res.lastAdjustSeq then Settled(c, AdjustedResult(res.amount, seqNo))
      else
        var delta := newAmount - res.amount;
        if delta > c.wallets[requester].available then Settled(c, AdjustRefusedResult(InsufficientCredits, seqNo))
        else
          var e := LedgerEntry(requester, ReservationAdjust, -delta, delta, order, "", AdjustKey(order, seqNo));
          if delta != 0 && !CanPost(c, e) then Refused(Database)
          else
            var posted := if delta != 0 then Post(c, e) else c;
            Settled(posted.(reservations := c.reservations[order := res.(amount := newAmount, lastAdjustSeq := seqNo)]),
                    AdjustedResult(newAmount, seqNo))
  }

  function JudgeRelease(c: Credit, order: string, requester: string): (r: Judged) {
    if order !in c.reservations then Settled(c.(tombstones := c.tombstones + {order}), ReleasedResult)
    else
      var res := c.reservations[order];
      if requester !in c.wallets || res.wallet != requester then Refused(Conflict)
      else if res.status == Released then Settled(c, ReleasedResult)
      else if res.status == Transferred then Settled(c, OperationFailedResult(ReservationAlreadyTransferred))
      else
        var e := LedgerEntry(requester, ReleaseEntry, res.amount, -res.amount, order, "", ReleaseKey(order));
        if !CanPost(c, e) then Refused(Database)
        else Settled(Post(c, e).(reservations := c.reservations[order := res.(status := Released)]), ReleasedResult)
  }

  function Min(a: int, b: int): (m: int) {
    if a <= b then a else b
  }

  /** The three ledger entries of a transfer; the last only when the reservation holds a surplus. */
  function TransferOutEntry(res: Reservation, order: string, courier: string, amount: int): (e: LedgerEntry) {
    var fromReservation := Min(res.amount, amount);
    LedgerEntry(res.wallet, TransferOut, -(amount - fromReservation), -fromReservation, order, courier,
                TransferKey(order))
  }

  function TransferInEntry(res: Reservation, order: string, courier: string, amount: int): (e: LedgerEntry) {
    LedgerEntry(courier, TransferIn, amount, 0, order, res.wallet, TransferKey(order))
  }

  function SurplusEntry(res: Reservation, order: string, amount: int): (e: LedgerEntry) {
    var surplus := res.amount - Min(res.amount, amount);
    LedgerEntry(res.wallet, ReleaseEntry, surplus, -surplus, order, "", SurplusKey(order))
  }

  predicate CanTransfer(c: Credit, res: Reservation, order: string, courier: string, amount: int)
    requires res.wallet in c.wallets && courier in c.wallets && res.wallet != courier
  {
    var out, into, surplus := TransferOutEntry(res, order, courier, amount),
      TransferInEntry(res, order, courier, amount),
                              SurplusEntry(res, order, amount);
    && CanInsert(c.ledger, out)
    && CanInsert(c.ledger + [out], into)
    && (surplus.availableDelta > 0 ==> CanInsert(c.ledger + [out, into], surplus))
    && CanApply(c.wallets[res.wallet], res.amount - amount, -res.amount)
    && CanApply(c.wallets[courier], amount, 0)
  }

  function DoTransfer(c: Credit, res: Reservation, order: string, courier: string, amount: int): (r: Credit)
    requires res.wallet in c.wallets && courier in c.wallets && res.wallet != courier
  {
    var out, into, surplus := TransferOutEntry(res, order, courier, amount),
      TransferInEntry(res, order, courier, amount),
                              SurplusEntry(res, order, amount);
    var entries := if surplus.availableDelta > 0 then [out, into, surplus] else [out, into];
    c.(ledger := c.ledger + entries,
       wallets := c.wallets[res.wallet := WithDeltas(c.wallets[res.wallet], res.amount - amount, -res.amount)]
                           [courier := WithDeltas(c.wallets[courier], amount, 0)],
       reservations := c.reservations[order := res.(status := Transferred)])
  }

  function JudgeTransfer(c: Credit, order: string, requester: string, courier: string, amount: int): (r: Judged)
    requires requester != courier
  {
    if order !in c.reservations then
      Settled(c,
              OperationFailedResult(if order in c.tombstones then ReservationAlreadyReleased else ReservationNotFound))
    else if requester !in c.wallets || courier !in c.wallets then Settled(c, OperationFailedResult(AccountNotFound))
    else
      var res := c.reservations[order];
      if res.wallet != requester then Refused(Conflict)
      else if res.status == Transferred then Settled(c, TransferredResult)
      else if res.status == Released then Settled(c, OperationFailedResult(ReservationAlreadyReleased))
      else if amount - Min(res.amount, amount) > c.wallets[requester].available then
        Settled(c, OperationFailedResult(InsufficientCredits))
      else if !CanTransfer(c, res, order, courier, amount) then Refused(Database)
      else Settled(DoTransfer(c, res, order, courier, amount), TransferredResult)
  }

  function Judge(c: Credit, cmd: Command): (r: Judged)
    requires CommandOk(cmd)
  {
    match cmd
    case ReserveCommand(order, _, requester, amount) => JudgeReserve(c, Lower(order), requester, amount)
    case AdjustCommand(order, _, requester, newAmount, seqNo) =>
      JudgeAdjust(c, Lower(order), requester, newAmount, seqNo)
    case ReleaseCommand(order, _, requester) => JudgeRelease(c, Lower(order), requester)
    case TransferCommand(order, _, requester, courier, amount) =>
      JudgeTransfer(c, Lower(order), requester, courier, amount)
  }

  // ---------------------------------------------------------------- execute

  /** Remembers a result under its message, except a failure, which may be judged anew. */
  function Remember(c: Credit, message: string, r: Result): (c': Credit) {
    if r.OperationFailedResult? then c else c.(processed := c.processed[message := r])
  }

  function Record(c: Credit, message: string, cmd: Command, r: Result): (c': Credit) {
    c.(outbox := c.outbox + {Reply(message, Lower(cmd.order), cmd.version, r)})
  }

  /** Runs one command in a transaction: a repeat uses the stored result and runs nothing. */
  function Execute(c: Credit, message: string, cmd: Command): (r: Judged) {
    if !CommandOk(cmd) then Refused(Invalid)
    else if message == "" || |message| > MAX_MESSAGE_ID_LENGTH then Refused(Invalid)
    else
      var judged := if message in c.processed then Settled(c, c.processed[message]) else Judge(c, cmd);
      if judged.Refused? then judged
      else if cmd.version < 1 then Refused(Database)
      else Settled(Record(Remember(judged.credit, message, judged.result), message, cmd, judged.result), judged.result)
  }

  /** The database after a delivery; a refused command is rolled back. */
  function Process(c: Credit, message: string, cmd: Command): (c': Credit) {
    var r := Execute(c, message, cmd);
    if r.Settled? then r.credit else c
  }

  // ---------------------------------------------------------------- wallet creation

  predicate OwnerHasWallet(c: Credit, owner: string) {
    exists s :: s in c.wallets && c.wallets[s].owner == owner
  }

  /** Creates the owner's wallet with its initial allocation, once. */
  function CreateWallet(c: Credit, owner: string, subject: string): (r: Credit) {
    if !MatchesUuid(owner) || !SubjectOk(subject) then c
    else if subject in c.wallets || OwnerHasWallet(c, Lower(owner)) then c
    else
      var empty := c.(wallets := c.wallets[subject := Wallet(Lower(owner), 0, 0)]);
      if c.initialCredit == 0 then empty
      else
        var e := LedgerEntry(subject, Allocate, c.initialCredit, 0, "", "", INITIAL_ALLOCATION_KEY);
        if CanPost(empty, e) then Post(empty, e) else c
  }
}
