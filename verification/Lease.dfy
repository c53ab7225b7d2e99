/** The lease as it is kept in four annotations of a node. */
module Lease {
  import opened Objects

  const DEFAULT_LOCK_TIMEOUT := 5 * MINUTE

  datatype Lock = Lock(operation: Value, owner: Value, at: int, timeout: int)

  /** The four lock annotations; a missing annotation reads as the empty string. */
  datatype Fields = Fields(operation: Value, owner: Value, timestamp: Value, timeout: Value)

  function Read(annotations: map<Key, Value>, key: Key): Value {
    if key in annotations then annotations[key] else BLANK
  }

  function FieldsOf(annotations: map<Key, Value>): Fields {
    Fields(Read(annotations, OperationLock), Read(annotations, LockOwner),
           Read(annotations, LockTimestamp), Read(annotations, LockTimeout))
  }

  /** Conversion of a float to an integer drops the fraction. */
  function Truncate(x: real): int {
    if x >= 0.0 then x.Floor else -((-x).Floor)
  }

  function Decode(f: Fields): Option<Lock> {
    if f.operation == BLANK || f.owner == BLANK || f.timestamp == BLANK then None
    else if !f.timestamp.Instant? then None
    else
      var timeout := if f.timeout.Number? then Truncate(f.timeout.amount) * SECOND else DEFAULT_LOCK_TIMEOUT;
      Some(Lock(f.operation, f.owner, f.timestamp.at, timeout))
  }

  function CheckLock(annotations: map<Key, Value>): Option<Lock> {
    Decode(FieldsOf(annotations))
  }

  predicate IsLockExpired(lock: Lock, now: int) {
    now - lock.at > lock.timeout
  }

  /** No lock that counts: absent, unreadable or expired. */
  predicate Free(annotations: map<Key, Value>, now: int) {
    var lock := CheckLock(annotations);
    lock.None? || IsLockExpired(lock.value, now)
  }

  predicate HasExpiredLock(node: Node, now: int) {
    CheckLock(node.annotations).Some? && IsLockExpired(CheckLock(node.annotations).value, now)
  }

  // A time is written with whole seconds only.
  function FloorSecond(t: int): int {
    t - t % SECOND
  }

  // A timeout is written as a decimal without fraction, half-way cases to even.
  function NearestSeconds(d: int): int {
    var whole, rest := d / SECOND, d % SECOND;
    if 2 * rest < SECOND then whole
    else if 2 * rest > SECOND then whole + 1
    else if whole % 2 == 0 then whole else whole + 1
  }

  function EffectiveTimeout(timeout: int): int {
    if timeout == 0 then DEFAULT_LOCK_TIMEOUT else timeout
  }

  function Locked(annotations: map<Key, Value>, operation: Value, owner: Value, stamp: int, timeout: int)
    : map<Key, Value>
  {
    annotations[OperationLock := operation][LockOwner := owner]
    [LockTimestamp := Instant(FloorSecond(stamp))]
    [LockTimeout := Number(NearestSeconds(EffectiveTimeout(timeout)) as real)]
  }

  function Cleared(annotations: map<Key, Value>): map<Key, Value> {
    annotations - {OperationLock, LockOwner, LockTimestamp, LockTimeout}
  }

  /** What a reader makes of a lock written by `Locked`. */
  function Granted(operation: Value, owner: Value, stamp: int, timeout: int): Lock {
    Lock(operation, owner, FloorSecond(stamp), NearestSeconds(EffectiveTimeout(timeout)) * SECOND)
  }

  /** A written lock reads back, with the time floored and the timeout rounded,
      exactly when both names are non-empty; with an empty name it reads as no lock. */
  lemma LockedReadsBack(annotations: map<Key, Value>, operation: Value, owner: Value, stamp: int, timeout: int)
    ensures CheckLock(Locked(annotations, operation, owner, stamp, timeout)) ==
            if operation != BLANK && owner != BLANK then Some(Granted(operation, owner, stamp, timeout)) else None
    ensures forall k :: k !in {OperationLock, LockOwner, LockTimestamp, LockTimeout} ==>
              (k in Locked(annotations, operation, owner, stamp, timeout) <==> k in annotations)
              && Read(Locked(annotations, operation, owner, stamp, timeout), k) == Read(annotations, k)
  {
  }

  /** A lock that counts until `end`, told from the annotations themselves: operation and owner are there and not
      empty, the timestamp is an instant, and the timeout is five minutes unless it is a number, and then that many
      seconds without the fraction. */
  predicate CountsUntil(annotations: map<Key, Value>, end: int) {
    && OperationLock in annotations && annotations[OperationLock] != Text("")
    && LockOwner in annotations && annotations[LockOwner] != Text("")
    && LockTimestamp in annotations && annotations[LockTimestamp].Instant?
    && var start := annotations[LockTimestamp].at;
    if LockTimeout in annotations && annotations[LockTimeout].Number? then
      && (end - start) % 1_000_000_000 == 0
      && WithoutFraction(annotations[LockTimeout].amount, (end - start) / 1_000_000_000)
    else
      end == start + 300_000_000_000
  }

  // The integer next to a number on the side of zero.
  predicate WithoutFraction(x: real, n: int) {
    if x >= 0.0 then n as real <= x < n as real + 1.0 else n as real - 1.0 < x <= n as real
  }

  lemma TruncateDropsFraction(x: real, n: int)
    ensures WithoutFraction(x, n) <==> n == Truncate(x)
  {
    assert x >= 0.0 ==> x.Floor as real <= x < x.Floor as real + 1.0;
    assert x < 0.0 ==> (-x).Floor as real <= -x < (-x).Floor as real + 1.0;
  }

  lemma CountsUntilEnd(annotations: map<Key, Value>, end: int)
    ensures CountsUntil(annotations, end) <==>
            CheckLock(annotations).Some?
            && end == CheckLock(annotations).value.at + CheckLock(annotations).value.timeout
  {
    if LockTimestamp in annotations && annotations[LockTimestamp].Instant?
       && LockTimeout in annotations && annotations[LockTimeout].Number? {
      var n := (end - annotations[LockTimestamp].at) / 1_000_000_000;
      TruncateDropsFraction(annotations[LockTimeout].amount, n);
    }
  }

  /** For every annotation map, also one that this program has not written: the lock counts exactly up to the instant
      that the annotations say. */
  lemma CountsExactlyUntil(annotations: map<Key, Value>, now: int)
    ensures !Free(annotations, now) <==> exists end :: CountsUntil(annotations, end) && now <= end
    ensures forall end, end' :: CountsUntil(annotations, end) && CountsUntil(annotations, end') ==> end == end'
    ensures CheckLock(annotations).Some? ==>
              && var lock := CheckLock(annotations).value;
              && CountsUntil(annotations, lock.at + lock.timeout) && lock.at == annotations[LockTimestamp].at
              && lock.operation == annotations[OperationLock] && lock.owner == annotations[LockOwner]
  {
    forall end
      ensures CountsUntil(annotations, end) <==>
              CheckLock(annotations).Some?
              && end == CheckLock(annotations).value.at + CheckLock(annotations).value.timeout
    {
      CountsUntilEnd(annotations, end);
    }
    if CheckLock(annotations).Some? {
      assert CountsUntil(annotations, CheckLock(annotations).value.at + CheckLock(annotations).value.timeout);
    }
  }

  /** A granted lock starts at the last whole second and lasts the asked-for time, five minutes if none was asked for,
      rounded to the nearest second, half-way cases to even. */
  lemma GrantedIsRounded(operation: Value, owner: Value, stamp: int, timeout: int)
    ensures var g := Granted(operation, owner, stamp, timeout);
            var asked := if timeout == 0 then 300_000_000_000 else timeout;
            && g.at % 1_000_000_000 == 0 && stamp - 1_000_000_000 < g.at <= stamp
            && g.timeout % 1_000_000_000 == 0 && -500_000_000 <= g.timeout - asked <= 500_000_000
            && (g.timeout - asked in {-500_000_000, 500_000_000} ==> g.timeout % 2_000_000_000 == 0)
  {
  }

  lemma ClearedReadsAsNoLock(annotations: map<Key, Value>)
    ensures CheckLock(Cleared(annotations)).None?
    ensures OperationLock !in Cleared(annotations) && LockOwner !in Cleared(annotations)
    ensures LockTimestamp !in Cleared(annotations) && LockTimeout !in Cleared(annotations)
    ensures forall k :: k !in {OperationLock, LockOwner, LockTimestamp, LockTimeout} ==>
              (k in Cleared(annotations) <==> k in annotations)
              && Read(Cleared(annotations), k) == Read(annotations, k)
  {
  }

  /** The lock taken at instant `stamp` for a whole number of seconds is live up to one second
      before the asked-for end and expired after it; for other timeouts rounding costs half a second more. */
  lemma LifetimeOfGrant(operation: Value, owner: Value, stamp: int, timeout: int, now: int)
    ensures var t := EffectiveTimeout(timeout);
            && (t % SECOND == 0 ==>
                  && (now <= stamp + t - SECOND ==> !IsLockExpired(Granted(operation, owner, stamp, timeout), now))
                  && (now > stamp + t ==> IsLockExpired(Granted(operation, owner, stamp, timeout), now)))
            && (now <= stamp + t - SECOND - SECOND / 2 ==>
                  !IsLockExpired(Granted(operation, owner, stamp, timeout), now))
            && (now > stamp + t + SECOND / 2 ==> IsLockExpired(Granted(operation, owner, stamp, timeout), now))
  {
  }

  lemma ExpiryIsForGood(lock: Lock, earlier: int, later: int)
    requires earlier <= later && IsLockExpired(lock, earlier)
    ensures IsLockExpired(lock, later)
  {
  }
}
