/**
 * The client-side assignment cache entry: a holder of broker assignments
 * with the time they were created, expired by a TTL check.
 */
module AssignmentCache {

  const MinLong: int := -0x8000_0000_0000_0000
  const MaxLong: int := 0x7FFF_FFFF_FFFF_FFFF

  /** A Java long. */
  type Long = x: int | MinLong <= x <= MaxLong

  /** Java long addition: the mathematical sum wrapped into 64-bit two's complement. */
  function AddLong(a: Long, b: Long): (r: Long)
    ensures MinLong <= a + b <= MaxLong ==> r == a + b
    ensures a + b > MaxLong ==> r == a + b - 0x1_0000_0000_0000_0000
    ensures a + b < MinLong ==> r == a + b + 0x1_0000_0000_0000_0000
  {
    (a + b - MinLong) % 0x1_0000_0000_0000_0000 + MinLong
  }

  /** Whether an entry created at createTime has outlived expireTime at clock reading now. */
  predicate Expired(createTime: Long, expireTime: Long, now: Long)
  {
    AddLong(createTime, expireTime) < now
  }

  /**
   * Expiry is monotone in the clock: once expired, an entry stays expired
   * at every later clock reading.
   */
  lemma ExpiredStaysExpired(createTime: Long, expireTime: Long, now: Long, later: Long)
    requires Expired(createTime, expireTime, now)
    requires now <= later
    ensures Expired(createTime, expireTime, later)
  {
  }

  /**
   * Without overflow, an entry is expired exactly when its age exceeds the
   * TTL strictly: at equality it is still fresh.
   */
  lemma ExpiredIffStrictlyOlder(createTime: Long, expireTime: Long, now: Long)
    requires MinLong <= createTime + expireTime <= MaxLong
    ensures Expired(createTime, expireTime, now) <==> now - createTime > expireTime
    ensures now == createTime + expireTime ==> !Expired(createTime, expireTime, now)
  {
  }

  /**
   * When createTime + expireTime overflows a long, the sum wraps negative and
   * the entry is already expired at clock 0 and after.
   */
  lemma OverflowedTtlExpires(createTime: Long, expireTime: Long, now: Long)
    requires createTime + expireTime > MaxLong
    requires now >= 0
    ensures Expired(createTime, expireTime, now)
  {
  }

  class BrokerAssignmentsHolder<BrokerAssignments> {
    var brokerAssignments: BrokerAssignments
    var createTime: Long

    constructor (brokerAssignments: BrokerAssignments, createTime: Long)
      ensures this.brokerAssignments == brokerAssignments
      ensures this.createTime == createTime
    {
      this.brokerAssignments := brokerAssignments;
      this.createTime := createTime;
    }

    /** isExpired against the clock reading now (Java long arithmetic). */
    predicate IsExpired(expireTime: Long, now: Long)
      reads this
      ensures MinLong <= createTime + expireTime <= MaxLong ==>
                (IsExpired(expireTime, now) <==> createTime + expireTime < now)
    {
      Expired(createTime, expireTime, now)
    }

    function GetBrokerAssignments(): (r: BrokerAssignments)
      reads this
      ensures r == brokerAssignments
    {
      brokerAssignments
    }

    function GetCreateTime(): (r: Long)
      reads this
      ensures r == createTime
    {
      createTime
    }

    method SetBrokerAssignments(brokerAssignments: BrokerAssignments)
      modifies this`brokerAssignments
      ensures this.brokerAssignments == brokerAssignments
      ensures GetBrokerAssignments() == brokerAssignments
    {
      this.brokerAssignments := brokerAssignments;
    }

    method SetCreateTime(createTime: Long)
      modifies this`createTime
      ensures this.createTime == createTime
      ensures GetCreateTime() == createTime
    {
      this.createTime := createTime;
    }
  }

  /**
   * A refresh in place: replacing the assignments and then the creation time
   * yields an entry that holds exactly the new values and is not expired at
   * the refresh time for any non-negative TTL that does not overflow.
   */
  method Refresh<A>(holder: BrokerAssignmentsHolder<A>, assignments: A, now: Long, ttl: Long)
    requires 0 <= ttl && now + ttl <= MaxLong
    modifies holder
    ensures holder.GetBrokerAssignments() == assignments
    ensures holder.GetCreateTime() == now
    ensures !holder.IsExpired(ttl, now)
  {
    holder.SetBrokerAssignments(assignments);
    holder.SetCreateTime(now);
  }
}
