/** `MessageDomainServiceImpl`: creates the stored message, updates its status,
    and derives the final status of a message from its channel counters. */
module MessageDomain {
  import opened JavaLang
  import opened Clock
  import opened Enums
  import opened Entities
  import opened Stores

  // ----- The final status -----

  /** The status that `completeMessage` derives from the failed and successful
      channel counts of a stored message. */
  function Derive(failed: int, success: int): MessageStatus
  {
    if failed == 0 then MessageStatus.Success
    else if success == 0 then MessageStatus.Failed
    else PartialSuccess
  }

  /** `completeMessage`'s decision on a stored row: each counter is unboxed
      when it is compared, the successful count only when some channel failed. */
  function FinalStatus(m: Message): (r: Result<MessageStatus>)
    ensures r.Raised? <==> m.failedChannels.None? || (m.failedChannels != Some(0) && m.successChannels.None?)
    ensures r.Raised? ==> r.exception == NullDereference()
    ensures r.Value? ==> r.value == Derive(m.failedChannels.value, if m.failedChannels == Some(0) then 0 else m.successChannels.value)
  {
    match m.failedChannels
    case None => Raised(NullDereference())
    case Some(failed) =>
      if failed == 0 then Value(MessageStatus.Success)
      else
        match m.successChannels
        case None => Raised(NullDereference())
        case Some(success) => Value(Derive(failed, success))
  }

  /** No failed channel is a success, whatever the successful count, including
      a message with no channels at all; otherwise no successful channel is a
      failure and some successful channel a partial success. */
  lemma DeriveCases(failed: int, success: int)
    ensures Derive(failed, success) == MessageStatus.Success <==> failed == 0
    ensures Derive(failed, success) == MessageStatus.Failed <==> failed != 0 && success == 0
    ensures Derive(failed, success) == PartialSuccess <==> failed != 0 && success != 0
    ensures Derive(failed, success) !in {MessageStatus.Pending, MessageStatus.Processing}
  {
  }

  /** The `CASE` of the mapper's channel-statistics update: `FAILED` when some
      channel failed and none succeeded, `PARTIAL_SUCCESS` when both, else
      `SUCCESS`. */
  function SqlCaseStatus(failed: int, success: int): MessageStatus
  {
    if failed > 0 && success == 0 then MessageStatus.Failed
    else if failed > 0 && success > 0 then PartialSuccess
    else MessageStatus.Success
  }

  /** The two derivations agree exactly when the failed count is zero, or it
      is positive and the successful count is not negative; so they agree on
      every pair of counts that counting can produce. */
  lemma DeriveMatchesSqlCase(failed: int, success: int)
    ensures Derive(failed, success) == SqlCaseStatus(failed, success) <==>
              failed == 0 || (failed > 0 && success >= 0)
    ensures failed >= 0 && success >= 0 ==> Derive(failed, success) == SqlCaseStatus(failed, success)
  {
  }

  // ----- Creating a message -----

  /** The message as `createMessage` stores it: pending, created and updated
      at `now`, with no channel counted yet, and every other field as given. */
  function Created(message: Message, now: Instant): (m: Message)
    ensures m.status == Some(MessageStatus.Pending)
    ensures m.createTime == Some(now) && m.updateTime == Some(now)
    ensures m.successChannels == Some(0) && m.failedChannels == Some(0)
    ensures m.id == message.id && m.messageId == message.messageId
    ensures m.tenantId == message.tenantId && m.storeId == message.storeId
    ensures m.businessType == message.businessType && m.businessData == message.businessData
    ensures m.targetChannels == message.targetChannels && m.totalChannels == message.totalChannels
    ensures m.finishTime == message.finishTime
  {
    message.(status := Some(MessageStatus.Pending), createTime := Some(now), updateTime := Some(now),
             successChannels := Some(0), failedChannels := Some(0))
  }

  /** The message table after a `save` that did not raise: the row is added
      when its id is not taken, and the table is left alone otherwise. */
  function AfterSave(rows: map<string, Message>, m: Message): map<string, Message>
  {
    if Insertable(rows, m) then rows[m.messageId.value := m] else rows
  }

  /** A saved message can be looked up by its id and is pending with zero
      counters, and every other row stays as it was. */
  lemma CreatedIsStoredPending(rows: map<string, Message>, message: Message, now: Instant)
    requires Insertable(rows, message)
    ensures var after := AfterSave(rows, Created(message, now));
      Row(after, message.messageId) == Some(Created(message, now)) &&
      FinalStatus(Created(message, now)) == Value(MessageStatus.Success) &&
      forall id :: id in rows ==> id in after && after[id] == rows[id]
  {
  }

  // ----- Completing a message -----

  /** What `completeMessage` returns and leaves in the table. */
  datatype Completed = Completed(result: Result<bool>, rows: map<string, Message>)

  /** `completeMessage(messageId)` on the table `rows`. */
  function Complete(rows: map<string, Message>, messageId: Option<string>): Completed
  {
    match Row(rows, messageId)
    case None => Completed(Value(false), rows)
    case Some(m) =>
      match FinalStatus(m)
      case Raised(e) => Completed(Raised(e), rows)
      case Value(s) => Completed(Value(true), WithStatus(rows, messageId, s))
  }

  /** An unknown id (or a null one) returns false and changes nothing; a row
      with a null counter the decision needs raises and changes nothing;
      otherwise the row gets its derived final status, the call returns true,
      and no other row changes. */
  lemma CompleteOutcomes(rows: map<string, Message>, messageId: Option<string>)
    ensures var c := Complete(rows, messageId);
      (c.result == Value(false) <==> Row(rows, messageId).None?) &&
      (c.result.Raised? <==> Row(rows, messageId).Some? && FinalStatus(rows[messageId.value]).Raised?) &&
      (!(c.result == Value(true)) ==> c.rows == rows) &&
      (c.result == Value(true) ==>
         c.rows.Keys == rows.Keys &&
         c.rows[messageId.value] == rows[messageId.value].(status := Some(FinalStatus(rows[messageId.value]).value)) &&
         forall id :: id in rows && Some(id) != messageId ==> c.rows[id] == rows[id])
  {
  }

  /** Completing twice sets the same status as completing once: the decision
      reads only the counters, which the status update does not touch. */
  lemma CompleteIdempotent(rows: map<string, Message>, messageId: Option<string>)
    ensures var once := Complete(rows, messageId);
      Complete(once.rows, messageId).rows == once.rows
  {
    var once := Complete(rows, messageId);
    if once.result == Value(true) {
      var id := messageId.value;
      assert once.rows[id].failedChannels == rows[id].failedChannels;
      assert once.rows[id].successChannels == rows[id].successChannels;
      assert FinalStatus(once.rows[id]) == FinalStatus(rows[id]);
      assert once.rows[id := once.rows[id].(status := Some(FinalStatus(rows[id]).value))] == once.rows;
    }
  }

  // ----- The service bean -----

  class MessageDomainServiceImpl {
    const repository: MessageRepository

    constructor (repository: MessageRepository)
      ensures this.repository == repository
    {
      this.repository := repository;
    }

    /** `createMessage(message)`: sets the initial fields, saves once, and
        returns the message whether or not the insert took place; an
        exception from `save` propagates. */
    method CreateMessage(message: Message, now: Instant) returns (r: Result<Message>)
      modifies repository
      ensures repository.saveFault.Some? ==>
                r == Raised(repository.saveFault.value) && repository.rows == old(repository.rows)
      ensures repository.saveFault.None? ==>
                r == Value(Created(message, now)) &&
                repository.rows == AfterSave(old(repository.rows), Created(message, now))
    {
      var m := message.(status := Some(MessageStatus.Pending));
      m := m.(createTime := Some(now));
      m := m.(updateTime := Some(now));
      m := m.(successChannels := Some(0));
      m := m.(failedChannels := Some(0));
      var saved := repository.Save(m);
      if saved.Raised? {
        return Raised(saved.exception);
      }
      return Value(m);
    }

    /** `updateMessageStatus(messageId, status)`: the repository's answer. */
    method UpdateMessageStatus(messageId: Option<string>, status: MessageStatus) returns (updated: bool)
      modifies repository
      ensures updated == Row(old(repository.rows), messageId).Some?
      ensures repository.rows == WithStatus(old(repository.rows), messageId, status)
    {
      updated := repository.UpdateStatus(messageId, status);
    }

    /** `completeMessage(messageId)`. */
    method CompleteMessage(messageId: Option<string>) returns (r: Result<bool>)
      modifies repository
      ensures Completed(r, repository.rows) == Complete(old(repository.rows), messageId)
    {
      var message := repository.GetByMessageId(messageId);
      if message.None? {
        return Value(false);
      }
      var status := FinalStatus(message.value);
      if status.Raised? {
        return Raised(status.exception);
      }
      var updated := repository.UpdateStatus(messageId, status.value);
      return Value(updated);
    }
  }
}
