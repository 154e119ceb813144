/** What one resume transaction means for the next one: saving, replaying, saving again, deleting, drafts. */
module ResumeLaws {
  import opened Wrappers
  import opened Rows
  import opened Tasks
  import opened Resume
  import opened Worker
  import opened RowInvariant
  import Transactions
  import SaveTheorems

  /** The account's profile is this content under this version, at the account's revision. */
  predicate Holds(db: Db, user: UserId, content: Content, version: Version) {
    user in db.users && user in db.profiles && db.profiles[user] == Profile(db.users[user], content, version)
  }

  /** What is stored after a save is accepted: the content that was sent, at a revision that moves exactly when the
    * content does; a new revision starts without chunks; nobody else's resume is touched. */
  lemma SaveStoresWhatWasSent(db: Db, user: UserId, op: OpId, payload: Payload, now: Time, other: UserId)
    requires user in db.users && (user, op) !in db.ops && other != user
    requires user in db.profiles ==> db.profiles[user].revision == db.users[user]
    requires SaveMain(db, user, op, payload, now).reply.Saved?
    ensures var r := SaveMain(db, user, op, payload, now);
            && Holds(r.db, user, payload.content, payload.version)
            && db.users[user] == payload.expected && r.db.users[user] == r.reply.revision
            && (r.reply.changed <==> !Holds(db, user, payload.content, payload.version))
            && r.reply.revision == payload.expected + (if r.reply.changed then 1 else 0)
            && ChunksOf(r.db, user) == (if r.reply.changed then [] else ChunksOf(db, user))
            && ChunksOf(r.db, other) == ChunksOf(db, other)
            && (other in r.db.profiles <==> other in db.profiles)
            && (other in db.profiles ==> r.db.profiles[other] == db.profiles[other])
            && (other in r.db.users <==> other in db.users) && (other in db.users ==> r.db.users[other] == db.users[other])
  {
    hide Enqueue, ReviewedDraft, FailedEmbedding, Replay, ReviewStored;
    EnqueueKeepsResumes(Republish(db, user, payload), user, SaveKey(op), db.users[user] + 1, now);
    EnqueueKeepsResumes(db, user, RetryKey(op), db.users[user], now);
  }

  lemma EnqueueKeepsResumes(db: Db, user: UserId, key: TaskKey, revision: nat, now: Time)
    ensures var r := Enqueue(db, user, Embedding, key, revision, None, MAX_ATTEMPTS, now);
            r.Some? ==> r.value.users == db.users && r.value.profiles == db.profiles && r.value.chunks == db.chunks
                        && r.value.ops == db.ops
  {
  }

  lemma EnqueueAdds(db: Db, user: UserId, key: TaskKey, revision: nat, now: Time)
    ensures var r := Enqueue(db, user, Embedding, key, revision, None, MAX_ATTEMPTS, now);
            r.Some? ==>
              && r.value.tasks == db.tasks[db.next := Task(user, Embedding, key, revision, None, None, None, Pending, 0, 3, now,
                                                           None, None, None, now)]
              && r.value.events == db.events[db.next := Event(EventPending, 0, now, None, None, now)]
              && r.value.next == db.next + 1
  {
  }

  /** The task an accepted save leaves behind: new content is embedded under the save's key; unchanged content is embedded
    * again, under the retry key, exactly when an embedding of its revision has failed; otherwise no task is touched. */
  lemma SaveLeavesItsTask(db: Db, user: UserId, op: OpId, payload: Payload, now: Time)
    requires user in db.users && (user, op) !in db.ops && SaveMain(db, user, op, payload, now).reply.Saved?
    ensures var r := SaveMain(db, user, op, payload, now);
            var failed := exists id | id in db.tasks ::
                            db.tasks[id].owner == user && db.tasks[id].kind == Embedding && db.tasks[id].revision == r.reply.revision
                            && db.tasks[id].state == Failed;
            if r.reply.changed || failed then
              && r.db.tasks == db.tasks[db.next :=
                   Task(user, Embedding, if r.reply.changed then SaveKey(op) else RetryKey(op), r.reply.revision, None, None, None,
                        Pending, 0, 3, now, None, None, None, now)]
              && r.db.events == db.events[db.next := Event(EventPending, 0, now, None, None, now)]
              && r.db.next == db.next + 1
            else r.db.tasks == db.tasks && r.db.events == db.events && r.db.next == db.next
  {
    EnqueueAdds(Republish(db, user, payload), user, SaveKey(op), db.users[user] + 1, now);
    EnqueueAdds(db, user, RetryKey(op), db.users[user], now);
    hide Enqueue, ReviewedDraft, Replay, ReviewStored, Changes;
  }

  /** Replaying an accepted request under its key repeats its revision until the row expires, another request under that
    * key is refused, and neither writes anything. */
  lemma ReplayRepeatsTheAnswer(db: Db, user: UserId, op: OpId, payload: Payload, now: Time, again: Payload, later: Time)
    requires user in db.users && (user, op) !in db.ops && SaveMain(db, user, op, payload, now).reply.Saved?
    ensures var r := SaveMain(db, user, op, payload, now);
            var second := SaveMain(r.db, user, op, again, later);
            && second.db == r.db
            && (second.reply == Saved(r.reply.revision, false) <==> again == payload && later < now + SAVE_RETENTION)
            && (second.reply == IdempotencyConflict <==> again != payload)
            && (second.reply == OperationExpired <==> again == payload && later >= now + SAVE_RETENTION)
  {
    hide Enqueue, ReviewedDraft, FailedEmbedding;
    EnqueueKeepsResumes(Republish(db, user, payload), user, SaveKey(op), db.users[user] + 1, now);
    EnqueueKeepsResumes(db, user, RetryKey(op), db.users[user], now);
  }

  lemma AcceptedReply(db: Db, clock: Time, user: UserId, op: OpId, payload: Payload, now: Time)
    requires DbOk(db, clock) && user in db.users && db.users[user] == payload.expected
    requires (user, op) !in db.ops && ReviewedDraft(db, user, payload, now)
    ensures var r := SaveMain(db, user, op, payload, now);
            && user in r.db.users && r.reply == Saved(r.db.users[user], Changes(db, user, payload))
            && r.db.users == db.users[user := if Changes(db, user, payload) then db.users[user] + 1 else db.users[user]]
            && r.db.ops.Keys == db.ops.Keys + {(user, op)}
  {
    SaveTheorems.AcceptedWhenCurrent(db, clock, user, op, payload, now);
    Transactions.SaveMainCases(db, user, op, payload, now);
    hide DbOk, Enqueue, Changes, FailedEmbedding, Replay, ReviewStored, ReviewedDraft;
  }

  lemma UnchangedWhenHeld(db: Db, user: UserId, payload: Payload)
    requires Holds(db, user, payload.content, payload.version)
    ensures !Changes(db, user, payload)
  {
  }

  /** The draft of an accepted request is good for another save of the same content: none was named, or the first save
    * created no revision and the draft has not expired since. */
  predicate StillGood(db: Db, user: UserId, payload: Payload, later: Time) {
    payload.extraction.None?
    || (!Changes(db, user, payload) && payload.extraction.value in db.tasks
        && db.tasks[payload.extraction.value].expires.Some? && db.tasks[payload.extraction.value].expires.value > later)
  }

  lemma DraftAfterSave(db: Db, clock: Time, user: UserId, op: OpId, payload: Payload, now: Time, later: Time)
    requires DbOk(db, clock) && user in db.users && db.users[user] == payload.expected && (user, op) !in db.ops
    requires ReviewedDraft(db, user, payload, now) && SaveMain(db, user, op, payload, now).reply.Saved?
    ensures var r := SaveMain(db, user, op, payload, now).db;
            && user in r.users && r.users[user] == payload.expected + (if Changes(db, user, payload) then 1 else 0)
            && (ReviewedDraft(r, user, payload.(expected := r.users[user]), later) <==> StillGood(db, user, payload, later))
  {
    AcceptedReply(db, clock, user, op, payload, now);
    if payload.extraction.Some? {
      assert payload.extraction.value < db.next;
      EnqueueKeepsRows(Republish(db, user, payload), user, SaveKey(op), db.users[user] + 1, now);
      EnqueueKeepsRows(db, user, RetryKey(op), db.users[user], now);
    }
    hide DbOk, Enqueue, Changes, FailedEmbedding, Replay, ReviewStored;
  }

  lemma EnqueueKeepsRows(db: Db, user: UserId, key: TaskKey, revision: nat, now: Time)
    ensures var r := Enqueue(db, user, Embedding, key, revision, None, MAX_ATTEMPTS, now);
            r.Some? ==> forall id | id in db.tasks && id < db.next :: id in r.value.tasks && r.value.tasks[id] == db.tasks[id]
  {
  }

  lemma GoneDraft(db: Db, user: UserId, op: OpId, payload: Payload, now: Time)
    requires user in db.users && db.users[user] == payload.expected && (user, op) !in db.ops
    requires !ReviewedDraft(db, user, payload, now)
    ensures SaveMain(db, user, op, payload, now) == SaveResult(db, DraftGone)
  {
  }

  /** Two saves of the same content under different keys create at most one revision; the second succeeds exactly while
    * the draft it names, if any, is still good. */
  lemma SavingAgainChangesNothing(db: Db, clock: Time, user: UserId, op: OpId, op': OpId, payload: Payload, now: Time, later: Time)
    requires DbOk(db, clock) && user in db.users && db.users[user] == payload.expected && ReviewedDraft(db, user, payload, now)
    requires (user, op) !in db.ops && (user, op') !in db.ops && op != op' && clock <= now
    requires user in db.profiles ==> db.profiles[user].revision == db.users[user]
    ensures var r := SaveMain(db, user, op, payload, now).db;
            && user in r.users && r.users[user] <= payload.expected + 1
            && var second := SaveMain(r, user, op', payload.(expected := r.users[user]), later);
               && second.reply == (if StillGood(db, user, payload, later) then Saved(r.users[user], false) else DraftGone)
               && second.db.users == r.users
  {
    hide DbOk, SaveMain, Changes, ReviewedDraft, StillGood;
    AfterFirstSave(db, clock, user, op, payload, now);
    DraftAfterSave(db, clock, user, op, payload, now, later);
    var r := SaveMain(db, user, op, payload, now).db;
    var again := payload.(expected := r.users[user]);
    if StillGood(db, user, payload, later) {
      AcceptedReply(r, now, user, op', again, later);
    } else {
      GoneDraft(r, user, op', again, later);
    }
  }

  lemma AfterFirstSave(db: Db, clock: Time, user: UserId, op: OpId, payload: Payload, now: Time)
    requires DbOk(db, clock) && user in db.users && db.users[user] == payload.expected && ReviewedDraft(db, user, payload, now)
    requires (user, op) !in db.ops && clock <= now
    requires user in db.profiles ==> db.profiles[user].revision == db.users[user]
    ensures var r := SaveMain(db, user, op, payload, now);
            && DbOk(r.db, now) && user in r.db.users && r.reply.Saved? && r.db.ops.Keys == db.ops.Keys + {(user, op)}
            && r.db.users[user] <= payload.expected + 1
            && !Changes(r.db, user, payload.(expected := r.db.users[user]))
  {
    hide DbOk, SaveMain, Changes, Holds, Later, ReviewedDraft;
    ClockForward(db, clock, now);
    AcceptedReply(db, now, user, op, payload, now);
    SaveStoresWhatWasSent(db, user, op, payload, now, user + 1);
    Transactions.SaveMainKeeps(db, user, op, payload, now);
    var r := SaveMain(db, user, op, payload, now).db;
    UnchangedWhenHeld(r, user, payload.(expected := r.users[user]));
  }

  // ---- deleting

  /** A deletion at the account's revision leaves nothing of the resume, and the revision moves exactly when there was a
    * resume or work to cancel; at any other revision nothing happens. */
  lemma DeletionIsComplete(db: Db, user: UserId, expected: nat)
    requires user in db.users
    ensures var r := DeleteResume(db, user, expected);
            && (r.revision.None? <==> db.users[user] != expected) && (r.revision.None? ==> r.db == db && r.refs == {})
            && (r.revision.Some? ==>
                  && user !in r.db.profiles && ChunksOf(r.db, user) == []
                  && r.db.users == db.users[user := r.revision.value]
                  && (r.revision.value == expected + 1
                      <==> user in db.profiles || exists id | id in db.tasks :: OwnedWork(db.tasks[id], user))
                  && (r.revision.value == expected || r.revision.value == expected + 1)
                  && r.db.profiles.Keys == db.profiles.Keys - {user})
  {
    var ids := OwnedWorkIds(db, user);
    if id :| id in db.tasks && OwnedWork(db.tasks[id], user) { assert id in ids; }
    if ids != {} {
      var id :| id in ids;
      assert id in db.tasks && OwnedWork(db.tasks[id], user);
    }
    hide OwnedWork, OwnedWorkIds, CancelAll, TempRefs;
  }

  /** A save or deletion based on what was read before an effective deletion is refused. */
  lemma DeletionOutdatesWhatWasRead(db: Db, user: UserId, expected: nat, op: OpId, payload: Payload, now: Time)
    requires user in db.users && DeleteResume(db, user, expected).revision == Some(expected + 1)
    requires (user, op) !in db.ops && payload.expected == expected
    ensures var r := DeleteResume(db, user, expected);
            && user in r.db.users
            && SaveMain(r.db, user, op, payload, now) == SaveResult(r.db, RevisionConflict(Some(expected + 1)))
            && DeleteResume(r.db, user, expected) == DeleteResult(r.db, None, {})
  {
    hide CancelOwner, TempRefs, Enqueue, ReviewedDraft, Changes, FailedEmbedding;
    CancellationKeepsOps(db, user);
  }

  lemma CancellationKeepsOps(db: Db, user: UserId)
    ensures CancelOwner(db, user).0.ops == db.ops
  {
  }

  // ---- drafts

  /** The draft of a finished extraction can be saved exactly until it expires, by its owner and at its revision; a
    * discarded one cannot be saved at all. */
  lemma DraftIsGoodUntilItExpires(db: Db, c: Claim, draft: Draft, ttl: nat, now: Time, user: UserId, payload: Payload, later: Time)
    requires c.task in db.tasks && db.tasks[c.task].kind == Extraction && payload.extraction == Some(c.task)
    requires Complete(db, c.task, c.owner, c.revision, c.token, now).ok
    ensures var r := CompleteExtraction(db, c, draft, ttl, now);
            && r.delete == c.payload
            && (ReviewedDraft(r.db, user, payload, later)
                <==> later < now + ttl && user == c.owner && payload.expected == c.revision)
            && !ReviewedDraft(Discard(r.db, c.owner, c.task).db, user, payload, later)
  {
  }

  // ---- uploads

  /** A deletion reports exactly the uploads of the account's extractions, and a refused one none. */
  lemma DeletionReportsUploads(db: Db, user: UserId, expected: nat, ref: Ref)
    requires user in db.users
    ensures ref in DeleteResume(db, user, expected).refs <==>
              db.users[user] == expected
              && exists id | id in db.tasks :: db.tasks[id].owner == user && db.tasks[id].kind == Extraction && db.tasks[id].payload == Some(ref)
  {
    hide CancelOwner;
  }

  /** Discarding ends the account's own extraction, whatever its state, with its event, and reports its upload; nobody else's
    * task and no other kind is touched. */
  lemma DiscardingEndsTheExtraction(db: Db, user: UserId, id: TaskId)
    requires db.tasks.Keys == db.events.Keys
    ensures var r := Discard(db, user, id);
            if id in db.tasks && db.tasks[id].owner == user && db.tasks[id].kind == Extraction then
              var t, e := db.tasks[id], db.events[id];
              r == DiscardResult(db.(tasks := db.tasks[id := t.(state := Cancelled, failure := Some(CancelledByOwner), payload := None,
                                                                result := None, expires := None, token := None, leaseEnd := None)],
                                     events := db.events[id := e.(state := EventCancelled, token := None, leaseEnd := None)]),
                                 true, t.payload)
            else r == DiscardResult(db, false, None)
  {
  }

  /** An upload becomes a pending extraction at the account's revision, with a pending event, unless it has been enqueued before. */
  lemma UploadIsEnqueued(db: Db, user: UserId, ref: Ref, now: Time)
    requires user in db.users
    ensures var again := exists id | id in db.tasks ::
                           db.tasks[id].owner == user && db.tasks[id].kind == Extraction && db.tasks[id].key == Upload(ref);
            Prepare(db, user, ref, now) ==
              if again then None
              else Some(db.(next := db.next + 1,
                            tasks := db.tasks[db.next := Task(user, Extraction, Upload(ref), db.users[user], Some(ref), None, None, Pending,
                                                              0, 3, now, None, None, None, now)],
                            events := db.events[db.next := Event(EventPending, 0, now, None, None, now)]))
  {
    if id :| id in db.tasks.Keys && SameIdentity(db.tasks[id], user, Extraction, Upload(ref)) { }
  }

  // ---- answers

  /** What a stored operation answers: another request is refused, an old operation is too old, a requested review is asked
    * for again, and a saved revision is repeated. */
  predicate StoredAnswer(row: Operation, payload: Payload, now: Time, r: Reply) {
    if row.payload != payload then r == IdempotencyConflict
    else if row.expires <= now then r == OperationExpired
    else if row.state == OpFailed && row.failure == Some(ReviewFailure) then r == ReviewRequired
    else row.state == OpSucceeded && row.result.Some? ==> r == Saved(row.result.value, false)
  }

  /** The handler's refusals, in its order: what the key has been used for, the revision, the draft; a refusal writes nothing.
    * The transaction itself repeats a requested review even when it is old. */
  lemma SaveAnswers(db: Db, user: UserId, op: OpId, payload: Payload, now: Time)
    requires user in db.users
    ensures var first, r := Precheck(db, user, op, payload, now), SaveMain(db, user, op, payload, now);
            && ((user, op) in db.ops ==>
                  && first.Some? && StoredAnswer(db.ops[(user, op)], payload, now, first.value)
                  && r.db == db
                  && (r.reply == first.value
                      || (db.ops[(user, op)].payload == payload && db.ops[(user, op)].state == OpFailed
                          && db.ops[(user, op)].failure == Some(ReviewFailure) && r.reply == ReviewRequired)))
            && ((user, op) !in db.ops && db.users[user] != payload.expected ==>
                  first == Some(RevisionConflict(Some(db.users[user]))) && r == SaveResult(db, RevisionConflict(Some(db.users[user]))))
            && ((user, op) !in db.ops && db.users[user] == payload.expected ==> first == None)
            && ((user, op) !in db.ops && db.users[user] == payload.expected && payload.extraction.Some?
                && (payload.extraction.value in db.tasks ==>
                      var t := db.tasks[payload.extraction.value];
                      t.owner != user || t.kind != Extraction || t.state != Succeeded || t.revision != payload.expected
                      || t.expires.None? || t.expires.value <= now) ==>
                  r == SaveResult(db, DraftGone))
  {
    hide Enqueue, FailedEmbedding, Changes;
  }

  /** When the privacy check has changed the content, the key is used up for a review, for a day; nothing else is written. */
  lemma ReviewIsStored(db: Db, user: UserId, op: OpId, payload: Payload, now: Time)
    requires (user, op) !in db.ops
    ensures SaveReview(db, user, op, payload, now)
         == SaveResult(db.(ops := db.ops[(user, op) := Operation(payload, OpFailed, None, Some(ReviewFailure), now + 24 * 60 * 60)]),
                       ReviewRequired)
  {
  }

  /** An accepted save stores its key with the request and the revision, for a day. */
  lemma SaveStoresItsKey(db: Db, user: UserId, op: OpId, payload: Payload, now: Time)
    requires user in db.users && (user, op) !in db.ops && SaveMain(db, user, op, payload, now).reply.Saved?
    ensures var r := SaveMain(db, user, op, payload, now);
            r.db.ops == db.ops[(user, op) := Operation(payload, OpSucceeded, Some(r.reply.revision), None, now + 24 * 60 * 60)]
  {
    EnqueueKeepsResumes(Republish(db, user, payload), user, SaveKey(op), db.users[user] + 1, now);
    EnqueueKeepsResumes(db, user, RetryKey(op), db.users[user], now);
    hide Enqueue, ReviewedDraft, FailedEmbedding, Replay, ReviewStored, Changes;
  }
}
