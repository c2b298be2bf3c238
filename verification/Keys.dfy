/** Idempotency keys: how they are spelled, and that the spelling never collides.
    A key is also the message ID that credit-service deduplicates by. */
module Keys {

  // ---------------------------------------------------------------- decimal numbers

  function Digit(d: nat): (c: char)
    requires d < 10
  {
    "0123456789"[d]
  }

  /** strconv.Itoa on a natural number. */
  function Itoa(n: nat): (s: string)
    ensures |s| > 0
  {
    if n < 10 then [Digit(n)] else Itoa(n / 10) + [Digit(n % 10)]
  }

  lemma {:induction false} ItoaInjective(m: nat, n: nat)
    requires Itoa(m) == Itoa(n)
    ensures m == n
  {
    if m < 10 || n < 10 {
      assert |Itoa(m)| == 1 <==> m < 10;
      assert |Itoa(n)| == 1 <==> n < 10;
      assert Itoa(m)[0] == Digit(m) && Itoa(n)[0] == Digit(n);
    } else {
      var s := Itoa(m);
      assert s[|s| - 1] == Digit(m % 10) == Digit(n % 10);
      assert Itoa(m / 10) == s[..|s| - 1] == Itoa(n / 10);
      ItoaInjective(m / 10, n / 10);
    }
  }

  /** The number a string of decimal digits stands for. */
  function Decimal(s: string): (n: int) {
    if s == "" then 0 else 10 * Decimal(s[..|s| - 1]) + (s[|s| - 1] as int - '0' as int)
  }

  /** The digits say the number, and do not begin with a zero unless they are one. */
  lemma {:induction false} ItoaSaysNumber(n: nat)
    ensures Decimal(Itoa(n)) == n && (Itoa(n)[0] == '0' ==> n == 0)
    ensures forall i :: 0 <= i < |Itoa(n)| ==> '0' <= Itoa(n)[i] <= '9'
  {
    if n >= 10 {
      ItoaSaysNumber(n / 10);
      assert Itoa(n)[..|Itoa(n)| - 1] == Itoa(n / 10);
    } else {
      assert Itoa(n)[..0] == "";
    }
  }

  lemma {:induction false} ItoaColonFree(n: nat)
    ensures ColonFree(Itoa(n))
  {
    if n >= 10 {
      ItoaColonFree(n / 10);
    }
  }

  /** A number below 10^k has at most k digits. */
  lemma {:induction false} ItoaLength(n: nat, k: nat)
    requires k > 0 && n < Pow10(k)
    ensures |Itoa(n)| <= k
  {
    if n >= 10 {
      assert Pow10(1) == 10;
      assert n / 10 < Pow10(k - 1);
      ItoaLength(n / 10, k - 1);
    }
  }

  function Pow10(k: nat): (p: nat) {
    if k == 0 then 1 else 10 * Pow10(k - 1)
  }

  // ---------------------------------------------------------------- segments

  predicate ColonFree(s: string) {
    forall i :: 0 <= i < |s| ==> s[i] != ':'
  }

  lemma ColonClash(a: string, x: string, b: string, y: string)
    requires |a| < |b| && ColonFree(b)
    ensures a + ":" + x != b + ":" + y
  {
    assert (a + ":" + x)[|a|] == ':';
    assert (b + ":" + y)[|a|] == b[|a|];
  }

  /** The first colon splits a string in one way only. */
  lemma SplitAtColon(a: string, x: string, b: string, y: string)
    requires ColonFree(a) && ColonFree(b)
    requires a + ":" + x == b + ":" + y
    ensures a == b && x == y
  {
    var s, t := a + ":" + x, b + ":" + y;
    if |a| < |b| {
      ColonClash(a, x, b, y);
    } else if |b| < |a| {
      ColonClash(b, y, a, x);
    }
    assert a == s[..|a|] && b == t[..|b|];
    assert x == s[|a| + 1..] && y == t[|b| + 1..];
  }

  lemma LastColonClash(a: string, x: string, b: string, y: string)
    requires |a| < |b| && ColonFree(x)
    ensures a + ":" + x != b + ":" + y
  {
    if |a + ":" + x| == |b + ":" + y| {
      assert (b + ":" + y)[|b|] == ':';
      assert (a + ":" + x)[|b|] == x[|b| - |a| - 1];
    }
  }

  /** The last colon does too. */
  lemma SplitAtLastColon(a: string, x: string, b: string, y: string)
    requires ColonFree(x) && ColonFree(y)
    requires a + ":" + x == b + ":" + y
    ensures a == b && x == y
  {
    var s, t := a + ":" + x, b + ":" + y;
    if |a| < |b| {
      LastColonClash(a, x, b, y);
    } else if |b| < |a| {
      LastColonClash(b, y, a, x);
    }
    assert a == s[..|a|] && b == t[..|b|];
    assert x == s[|a| + 1..] && y == t[|b| + 1..];
  }

  // ---------------------------------------------------------------- operations

  /** Lifecycle events a transition may emit. */
  datatype EventName =
    | Placed | Opened | RejectedEvent | Edited | EditRequested | EditRejected | Accepted
    | CancelledEvent | Withdrawn | ExpiredEvent | PickedUpEvent | DeliveredEvent
    | ReviewRequiredEvent | CompletedEvent | RefundedEvent

  /** The middle segment of a key: a credit command, a lifecycle event or a reminder. */
  datatype Op =
    | Reserve | Release | Transfer | Adjust | AdjustRevert
    | Emit(name: EventName)
    | VerifyReminder | PickupReminder
  {
    predicate Credit() {
      Reserve? || Release? || Transfer? || Adjust? || AdjustRevert?
    }
  }

  /** EventName.operation: the routing key without "errand.". */
  function EventOperation(n: EventName): (s: string) {
    match n
    case Placed => "placed"
    case Opened => "opened"
    case RejectedEvent => "rejected"
    case Edited => "edited"
    case EditRequested => "edit_requested"
    case EditRejected => "edit_rejected"
    case Accepted => "accepted"
    case CancelledEvent => "cancelled"
    case Withdrawn => "withdrawn"
    case ExpiredEvent => "expired"
    case PickedUpEvent => "picked_up"
    case DeliveredEvent => "delivered"
    case ReviewRequiredEvent => "review_required"
    case CompletedEvent => "completed"
    case RefundedEvent => "refunded"
  }

  function OpName(op: Op): (s: string) {
    match op
    case Reserve => "reserve"
    case Release => "release"
    case Transfer => "transfer"
    case Adjust => "adjust"
    case AdjustRevert => "adjust-revert"
    case Emit(n) => EventOperation(n)
    case VerifyReminder => "verify-reminder"
    case PickupReminder => "pickup-reminder"
  }

  /** Length and first three letters tell the operations apart. */
  function Signature(op: Op): (int, char, char, char) {
    match op
    case Reserve => (7, 'r', 'e', 's')
    case Release => (7, 'r', 'e', 'l')
    case Transfer => (8, 't', 'r', 'a')
    case Adjust => (6, 'a', 'd', 'j')
    case AdjustRevert => (13, 'a', 'd', 'j')
    case VerifyReminder => (15, 'v', 'e', 'r')
    case PickupReminder => (15, 'p', 'i', 'c')
    case Emit(Placed) => (6, 'p', 'l', 'a')
    case Emit(Opened) => (6, 'o', 'p', 'e')
    case Emit(RejectedEvent) => (8, 'r', 'e', 'j')
    case Emit(Edited) => (6, 'e', 'd', 'i')
    case Emit(EditRequested) => (14, 'e', 'd', 'i')
    case Emit(EditRejected) => (13, 'e', 'd', 'i')
    case Emit(Accepted) => (8, 'a', 'c', 'c')
    case Emit(CancelledEvent) => (9, 'c', 'a', 'n')
    case Emit(Withdrawn) => (9, 'w', 'i', 't')
    case Emit(ExpiredEvent) => (7, 'e', 'x', 'p')
    case Emit(PickedUpEvent) => (9, 'p', 'i', 'c')
    case Emit(DeliveredEvent) => (9, 'd', 'e', 'l')
    case Emit(ReviewRequiredEvent) => (15, 'r', 'e', 'v')
    case Emit(CompletedEvent) => (9, 'c', 'o', 'm')
    case Emit(RefundedEvent) => (8, 'r', 'e', 'f')
  }

  ghost predicate Shaped(op: Op, s: string) {
    ColonFree(s) && |s| >= 3 && Signature(op) == (|s|, s[0], s[1], s[2])
  }

  lemma OpNameShape(op: Op)
    ensures Shaped(op, OpName(op))
  {
    match op
    case Emit(n) => EventShape(n);
    case _ =>
  }

  lemma EventShape(n: EventName)
    ensures Shaped(Emit(n), EventOperation(n))
  {
    match n
    case Placed => case Opened => case RejectedEvent => case Edited =>
    case EditRequested => case EditRejected => case Accepted => case CancelledEvent =>
    case _ => LateEventShape(n);
  }

  lemma LateEventShape(n: EventName)
    requires n.Withdrawn? || n.ExpiredEvent? || n.PickedUpEvent? || n.DeliveredEvent?
          || n.ReviewRequiredEvent? || n.CompletedEvent? || n.RefundedEvent?
    ensures Shaped(Emit(n), EventOperation(n))
  {
  }

  lemma SignatureInjective(a: Op, b: Op)
    requires Signature(a) == Signature(b)
    ensures a == b
  {
  }

  // ---------------------------------------------------------------- keys

  /** The unique key of an outbox row, and the ID of its message: errand, operation and, unless it is 0, version. */
  function IdempotencyKey(errandId: string, operation: string, version: nat): (key: string) {
    if version > 0 then errandId + ":" + operation + ":" + Itoa(version) else errandId + ":" + operation
  }

  /** One row of one errand: its operation and the version in its key. */
  datatype Slot = Slot(op: Op, version: nat)

  function KeyOf(id: string, s: Slot): (key: string) {
    IdempotencyKey(id, OpName(s.op), s.version)
  }

  /** {errandId}:{action}-rejected:{requestId}. */
  datatype RejectedAction = RejectAccept | RejectCancel | RejectPickup

  function ActionName(a: RejectedAction): (s: string) {
    match a
    case RejectAccept => "accept"
    case RejectCancel => "cancel"
    case RejectPickup => "pickup"
  }

  function RejectionKey(id: string, a: RejectedAction, requestId: string): (key: string) {
    id + ":" + ActionName(a) + "-rejected:" + requestId
  }

  /** What follows the errand ID in a key. */
  function KeyTail(s: Slot): (tail: string) {
    if s.version > 0 then OpName(s.op) + ":" + Itoa(s.version) else OpName(s.op)
  }

  lemma KeySplits(id: string, s: Slot)
    ensures KeyOf(id, s) == id + ":" + KeyTail(s)
  {
    if s.version > 0 {
      assert id + ":" + OpName(s.op) + ":" + Itoa(s.version) == id + ":" + (OpName(s.op) + ":" + Itoa(s.version));
    }
  }

  lemma NotColonFree(a: string, b: string)
    ensures !ColonFree(a + ":" + b)
  {
    assert (a + ":" + b)[|a|] == ':';
  }

  lemma TailInjective(s: Slot, t: Slot)
    requires KeyTail(s) == KeyTail(t)
    ensures s == t
  {
    OpNameShape(s.op);
    OpNameShape(t.op);
    if s.version > 0 && t.version > 0 {
      SplitAtColon(OpName(s.op), Itoa(s.version), OpName(t.op), Itoa(t.version));
      ItoaInjective(s.version, t.version);
    } else if s.version > 0 {
      NotColonFree(OpName(s.op), Itoa(s.version));
    } else if t.version > 0 {
      NotColonFree(OpName(t.op), Itoa(t.version));
    }
    SignatureInjective(s.op, t.op);
  }

  /** Keys of colon-free errand IDs are distinct strings: a key names one errand, one operation and one version. */
  lemma KeyInjective(id: string, s: Slot, id': string, s': Slot)
    requires ColonFree(id) && ColonFree(id')
    requires KeyOf(id, s) == KeyOf(id', s')
    ensures id == id' && s == s'
  {
    KeySplits(id, s);
    KeySplits(id', s');
    SplitAtColon(id, KeyTail(s), id', KeyTail(s'));
    TailInjective(s, s');
  }

  /** The middle segment of a rejection key. */
  function RejectionName(a: RejectedAction): (s: string) {
    ActionName(a) + "-rejected"
  }

  /** Its length and its second-to-last letter set it apart from every operation. */
  lemma RejectionNameShape(a: RejectedAction, op: Op)
    ensures ColonFree(RejectionName(a)) && RejectionName(a) != OpName(op)
  {
    OpNameShape(op);
    var s := RejectionName(a);
    assert |s| == 15 && s[13] == 'e';
    if |OpName(op)| == 15 {
      assert s[14] == 'd' && s[9] == 'j';
      assert OpName(op)[9] == 'q' || OpName(op)[9] == 'm' || OpName(op)[9] == 'i';
    }
  }

  lemma OpColonFree(op: Op)
    ensures ColonFree(OpName(op))
  {
    hide OpName;
    OpNameShape(op);
  }

  lemma RejectionKeySplits(id: string, a: RejectedAction, requestId: string)
    ensures RejectionKey(id, a, requestId) == id + ":" + (RejectionName(a) + ":" + requestId)
  {
    hide ActionName;
    var name := ActionName(a);
    assert name + "-rejected:" + requestId == name + "-rejected" + ":" + requestId;
  }

  /** A rejection announcement never takes the key of a transition or reminder row. */
  lemma RejectionKeyDisjoint(id: string, a: RejectedAction, requestId: string, id': string, s: Slot)
    requires ColonFree(id) && ColonFree(id')
    ensures RejectionKey(id, a, requestId) != KeyOf(id', s)
  {
    hide Itoa, OpName, KeyOf;
    RejectionNameShape(a, s.op);
    OpNameShape(s.op);
    KeySplits(id', s);
    RejectionKeySplits(id, a, requestId);
    hide RejectionKey, RejectionName, Shaped;
    assert ColonFree(OpName(s.op)) by { OpColonFree(s.op); }
    NotColonFree(RejectionName(a), requestId);
    if RejectionKey(id, a, requestId) == KeyOf(id', s) {
      SplitAtColon(id, RejectionName(a) + ":" + requestId, id', KeyTail(s));
      if s.version > 0 {
        SplitAtColon(RejectionName(a), requestId, OpName(s.op), Itoa(s.version));
      }
    }
  }

  // ---------------------------------------------------------------- canonical UUIDs

  predicate LowerHex(c: char) {
    '0' <= c <= '9' || 'a' <= c <= 'f'
  }

  /** The canonical lower-case form every stored ID has. */
  predicate IsUuid(s: string) {
    && |s| == 36
    && (forall i :: 0 <= i < 36 ==> if i == 8 || i == 13 || i == 18 || i == 23 then s[i] == '-' else LowerHex(s[i]))
  }

  lemma UuidColonFree(s: string)
    requires IsUuid(s)
    ensures ColonFree(s)
  {
  }
}
