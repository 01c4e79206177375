/** The Redis server as the cache sees it through redis-py: one command awaited on its
    own, or a pipeline, which redis-py sends as a MULTI/EXEC transaction. */
module RedisStore {

  import opened Wrappers
  import opened RedisSemantics

  /** What redis-py hands back for one reply: an error reply is raised. */
  function Outcome(reply: Reply): (r: Result<Reply, StoreError>)
    ensures r.Failure? <==> reply.ErrorReply?
    ensures r.Success? ==> r.value == reply
  {
    if reply.ErrorReply? then Failure(reply.error) else Success(reply)
  }

  /** What `execute()` hands back for a transaction: every command has run; the first error
      reply, if any, is raised, otherwise all replies are returned in order. */
  function BatchOutcome(replies: seq<Reply>): (r: Result<seq<Reply>, StoreError>)
    ensures r.Success? <==> forall i :: 0 <= i < |replies| ==> !replies[i].ErrorReply?
    ensures r.Success? ==> r.value == replies
  {
    match FirstError(replies)
    case Some(e) => Failure(e)
    case None => Success(replies)
  }

  class Store {
    var db: Db

    ghost predicate Valid()
      reads this
    {
      ValidDb(db)
    }

    constructor()
      ensures Valid() && db == map[]
    {
      db := map[];
    }

    /** One awaited command. A command that cannot be sent changes nothing. */
    method Execute(c: Command) returns (r: Result<Reply, StoreError>)
      requires Valid()
      modifies this
      ensures Valid()
      ensures !Sendable(c) ==> r == Failure(Refusal(c)) && db == old(db)
      ensures Sendable(c) ==> db == Exec(old(db), c).0 && r == Outcome(Exec(old(db), c).1)
    {
      if !Sendable(c) {
        return Failure(Refusal(c));
      }
      var step := Exec(db, c);
      db := step.0;
      r := Outcome(step.1);
    }

    /** One awaited read: the keyspace is left as it is. */
    method Read(c: Command) returns (r: Result<Reply, StoreError>)
      requires Valid() && IsRead(c)
      ensures !Sendable(c) ==> r == Failure(Refusal(c))
      ensures Sendable(c) ==> r == Outcome(Exec(db, c).1)
    {
      if !Sendable(c) {
        return Failure(Refusal(c));
      }
      r := Outcome(Exec(db, c).1);
    }

    /** A pipeline: if any queued command cannot be sent, nothing runs; otherwise every
        command runs in submission order, and the first error reply is raised only after
        all of them have. */
    method Pipeline(cs: seq<Command>) returns (r: Result<seq<Reply>, StoreError>)
      requires Valid()
      modifies this
      ensures Valid()
      ensures !AllSendable(cs) ==> r == Failure(FirstRefusal(cs).value) && db == old(db)
      ensures AllSendable(cs) ==> db == RunDb(old(db), cs) && r == BatchOutcome(RunReplies(old(db), cs))
    {
      var refused := FirstRefusal(cs);
      if refused.Some? {
        return Failure(refused.value);
      }
      var replies: seq<Reply> := [];
      var i := 0;
      while i < |cs|
        invariant 0 <= i <= |cs|
        invariant ValidDb(db)
        invariant AllSendable(cs[..i])
        invariant db == RunDb(old(db), cs[..i])
        invariant replies == RunReplies(old(db), cs[..i])
      {
        assert cs[..i + 1] == cs[..i] + [cs[i]];
        RunSnoc(old(db), cs[..i], cs[i]);
        var step := Exec(db, cs[i]);
        db := step.0;
        replies := replies + [step.1];
        i := i + 1;
      }
      assert cs[..|cs|] == cs;
      r := BatchOutcome(replies);
    }

    /** A pipeline of reads only: the keyspace is left as it is. */
    method Query(cs: seq<Command>) returns (r: Result<seq<Reply>, StoreError>)
      requires Valid() && AllReads(cs)
      ensures !AllSendable(cs) ==> r == Failure(FirstRefusal(cs).value)
      ensures AllSendable(cs) ==> r == BatchOutcome(RunReplies(db, cs))
    {
      var refused := FirstRefusal(cs);
      if refused.Some? {
        return Failure(refused.value);
      }
      var replies: seq<Reply> := [];
      var i := 0;
      var view := db;
      while i < |cs|
        invariant 0 <= i <= |cs|
        invariant ValidDb(view)
        invariant AllSendable(cs[..i])
        invariant view == RunDb(db, cs[..i])
        invariant replies == RunReplies(db, cs[..i])
      {
        assert cs[..i + 1] == cs[..i] + [cs[i]];
        RunSnoc(db, cs[..i], cs[i]);
        var step := Exec(view, cs[i]);
        view := step.0;
        replies := replies + [step.1];
        i := i + 1;
      }
      assert cs[..|cs|] == cs;
      r := BatchOutcome(replies);
    }
  }
}
