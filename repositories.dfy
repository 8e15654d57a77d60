/** The stores the core writes to, reduced to what it can observe of them:
    the message table keyed by message id, the record of task writes, and the
    Redis counters with the expiry last set on each key. */
module Stores {
  import opened JavaLang
  import opened Enums
  import opened Entities

  /** The stored row for a message id, if any (`selectByMessageId`; a null id matches nothing). */
  function Row(rows: map<string, Message>, messageId: Option<string>): (m: Option<Message>)
    ensures m.Some? <==> messageId.Some? && messageId.value in rows
    ensures m.Some? ==> m.value == rows[messageId.value]
  {
    if messageId.Some? && messageId.value in rows then Some(rows[messageId.value]) else None
  }

  /** What `updateStatus(messageId, status)` does to the table: the one matching
      row gets the new status, every other row stays. */
  function WithStatus(rows: map<string, Message>, messageId: Option<string>, status: MessageStatus): (r: map<string, Message>)
    ensures r.Keys == rows.Keys
    ensures forall id :: id in rows && Some(id) != messageId ==> r[id] == rows[id]
    ensures messageId.Some? && messageId.value in rows ==>
              r[messageId.value] == rows[messageId.value].(status := Some(status))
  {
    if messageId.Some? && messageId.value in rows then
      rows[messageId.value := rows[messageId.value].(status := Some(status))]
    else rows
  }

  /** `MessageRepository`, as `MessageRepositoryImpl` implements it over the
      `msg_message` table with its unique `message_id`. `saveFault` stands for
      an implementation whose `save` raises instead of returning false; the
      implementation shown has none. */
  class MessageRepository {
    var rows: map<string, Message>
    const saveFault: Option<JavaException>

    constructor (rows: map<string, Message>, saveFault: Option<JavaException>)
      ensures this.rows == rows && this.saveFault == saveFault
    {
      this.rows := rows;
      this.saveFault := saveFault;
    }

    /** `save(message)`: the insert succeeds when the message has an id that is
        not stored yet; a failed insert is caught and reported as false. */
    method Save(message: Message) returns (r: Result<bool>)
      modifies this
      ensures saveFault.Some? ==> r == Raised(saveFault.value) && rows == old(rows)
      ensures saveFault.None? ==> r.Value? && r.value == Insertable(old(rows), message)
      ensures saveFault.None? && r.value ==> rows == old(rows)[message.messageId.value := message]
      ensures saveFault.None? && !r.value ==> rows == old(rows)
    {
      if saveFault.Some? {
        return Raised(saveFault.value);
      }
      if Insertable(rows, message) {
        rows := rows[message.messageId.value := message];
        return Value(true);
      }
      return Value(false);
    }

    /** `getByMessageId(messageId)`. */
    method GetByMessageId(messageId: Option<string>) returns (m: Option<Message>)
      ensures m == Row(rows, messageId)
    {
      if messageId.Some? && messageId.value in rows {
        return Some(rows[messageId.value]);
      }
      return None;
    }

    /** `updateStatus(messageId, status)`: true iff a row was updated. */
    method UpdateStatus(messageId: Option<string>, status: MessageStatus) returns (updated: bool)
      modifies this
      ensures updated == Row(old(rows), messageId).Some?
      ensures rows == WithStatus(old(rows), messageId, status)
    {
      updated := messageId.Some? && messageId.value in rows;
      rows := WithStatus(rows, messageId, status);
    }
  }

  /** An insert of `message` passes the unique constraint on `message_id`. */
  predicate Insertable(rows: map<string, Message>, message: Message)
  {
    message.messageId.Some? && message.messageId.value !in rows
  }

  /** `ChannelTaskRepository`: the core only writes to it, so it is the record
      of those writes, `saveBatch` calls and single-task `updateStatus` calls
      in order. */
  class ChannelTaskRepository {
    var batches: seq<seq<ChannelTask>>
    var updates: seq<ChannelTask>

    constructor ()
      ensures batches == [] && updates == []
    {
      batches, updates := [], [];
    }

    method SaveBatch(tasks: seq<ChannelTask>)
      modifies this
      ensures batches == old(batches) + [tasks] && updates == old(updates)
    {
      batches := batches + [tasks];
    }

    method UpdateStatus(task: ChannelTask)
      modifies this
      ensures updates == old(updates) + [task] && batches == old(batches)
    {
      updates := updates + [task];
    }
  }

  /** The current count under a Redis key (an absent key counts 0). */
  function Count(counters: map<string, int>, key: string): int
  {
    if key in counters then counters[key] else 0
  }

  /** The Redis counters the rate limiter uses (`INCR`, `EXPIRE`). Expiry is
      only recorded, never carried out. */
  class RedisCounters {
    var counters: map<string, int>
    var ttls: map<string, int>

    constructor (counters: map<string, int>, ttls: map<string, int>)
      ensures this.counters == counters && this.ttls == ttls
    {
      this.counters, this.ttls := counters, ttls;
    }

    /** `INCR key`: one more than before, an absent key starting from 0. */
    method Increment(key: string) returns (n: int)
      modifies this
      ensures n == Count(old(counters), key) + 1
      ensures counters == old(counters)[key := n] && ttls == old(ttls)
    {
      n := Count(counters, key) + 1;
      counters := counters[key := n];
    }

    /** `EXPIRE key seconds`. */
    method Expire(key: string, seconds: int)
      modifies this
      ensures ttls == old(ttls)[key := seconds] && counters == old(counters)
    {
      ttls := ttls[key := seconds];
    }
  }
}
