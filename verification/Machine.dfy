/** The canonization service instance, the data service and the attestation service's walk put
    together: the classes, driven step by step, go through exactly the states of the protocol.
    What Theorems.dfy says about every reachable state therefore holds of them. */
module Machine {
  import opened Ids
  import opened Ledger
  import opened Canonization
  import Canonizer
  import Database
  import ProcessQueue
  import opened Protocol
  import opened QueueShape
  import opened Conversation
  import opened Safety
  import opened Theorems

  class Host {
    const attesting: bool
    const canon: Canonizer.Instance
    const data: Database.DataService
    var asked: seq<Query>
    var answered: seq<Response>
    var att: Attest
    ghost var sys: Sys

    /** The host and the protocol state it is in agree, part by part. */
    ghost predicate Matches()
      reads this, canon, data
    {
      && canon.Valid() && data.Valid() && sys.attesting == attesting
      && sys.canon == canon.View() && sys.armed == canon.armed && sys.log.sent == canon.sent
      && sys.store == data.Contents()
      && sys.asked == asked && sys.answered == answered && sys.att == att
    }

    ghost predicate Valid()
      reads this, canon, data
    {
      Matches() && Reachable(sys)
    }

    /** A service that has just been started, over any database in good order. */
    constructor (attests: bool, c: Canonizer.Instance, d: Database.DataService, ghost submitted: seq<Uuid>,
                 ghost dropped: set<Uuid>)
      requires c.Valid() && d.Valid() && GoodStart(attests, d.Contents(), submitted, dropped)
      requires c.armed && c.sent == [] && c.View() == Start(Setup(c.limits.transactions, c.View().signer))
      ensures Valid() && canon == c && data == d
      ensures sys == Begin(attests, d.Contents(), submitted, dropped, Setup(c.limits.transactions, c.View().signer))
    {
      attesting, canon, data := attests, c, d;
      asked, answered, att := [], [], Asleep;
      sys := Begin(attests, d.Contents(), submitted, dropped, Setup(c.limits.transactions, c.View().signer));
      BeginIsReachable(attests, d.Contents(), submitted, dropped, Setup(c.limits.transactions, c.View().signer));
    }

    /** Hands what the instance sent in its last callback to the peers. */
    method Dispatch(before: nat)
      requires before <= |canon.sent| <= before + 1
      modifies `asked
      ensures asked == old(asked) + if |canon.sent| == before then [] else [Asked(canon.sent[before])]
    {
      if |canon.sent| > before {
        asked := asked + [Asked(canon.sent[before])];
      }
    }

    method Fire(f: Faults)
      requires Valid() && canon.armed
      modifies this, canon
      ensures Valid() && sys == Apply(old(sys), TimerFiring(f))
    {
      var before := |canon.sent|;
      ghost var t := FiredState(sys, f);
      canon.TimerFires(f);
      Dispatch(before);
      sys := t;
    }

    method Deliver(f: Faults, sig: seq<byte>)
      requires Valid() && answered != [] && |sig| == SIGNATURE_SIZE
      modifies this, canon
      ensures Valid() && sys == Apply(old(sys), Delivering(0, f, sig))
    {
      ghost var t := DeliveredState(sys, f, sig);
      TakeAnswer(f, sig, t);
    }

    method TakeAnswer(f: Faults, sig: seq<byte>, ghost t: Sys)
      requires Matches() && |answered| == 1 && |sig| == SIGNATURE_SIZE
      requires sys.canon.forceExit || Handles(sys.canon, answered[0])
      requires After(sys, t, Effects(sys.canon, answered[0], f, sig))
      modifies this, canon
      ensures Matches() && sys == t
    {
      var before, r := |canon.sent|, answered[0];
      answered := [];
      HandOver(r, f, sig);
      Dispatch(before);
      sys := t;
    }

    /** The callback a response belongs to. */
    method HandOver(r: Response, f: Faults, sig: seq<byte>)
      requires canon.Valid() && |sig| == SIGNATURE_SIZE && (canon.forceExit || Handles(canon.View(), r))
      modifies canon
      ensures canon.Valid()
      ensures var o := Effects(old(canon.View()), r, f, sig);
        && canon.View() == o.c
        && canon.sent == old(canon.sent) + (if o.effect.Send? then [o.effect.request] else [])
        && canon.armed == (old(canon.armed) || o.effect.Arm?)
    {
      if r.RandomIs? {
        canon.RandomRead(r.valid, r.id, f);
      } else if r.NotifyIs? {
        canon.NotifyRead(r.ok, f);
      } else {
        canon.DataRead(r, f, sig);
      }
    }

    /** A peer takes the pending request; the data service answers from its tables. */
    method Serve(choice: Choice)
      requires Valid() && asked != []
      modifies this, data
      ensures Valid() && sys == Apply(old(sys), Serving(0, choice))
    {
      ghost var t := ServedState(sys, asked[0], choice);
      AnswerAndAdopt(choice, t);
    }

    method AnswerAndAdopt(choice: Choice, ghost t: Sys)
      requires Matches() && |asked| == 1 && answered == [] && t == Protocol.Serve(sys, 0, choice) && SameBut(sys, t)
      requires ChainLinked(sys.store.chain) && PendingOk(sys.store.chain, sys.asked)
      modifies this, data
      ensures Matches() && sys == t
    {
      var next, reply := Answer(asked[0], choice, sys, t);
      Adopt(next, reply, t);
    }

    /** Moves on to `t`, of which everything but the messages is there already. */
    method Adopt(next: Option<Query>, reply: Option<Response>, ghost t: Sys)
      requires canon.Valid() && data.Valid() && t.att == att && t.attesting == attesting
      requires t.canon == canon.View() && t.armed == canon.armed && t.log.sent == canon.sent
      requires t.store == data.Contents()
      requires t.asked == (if next.Some? then [next.value] else [])
      requires t.answered == (if reply.Some? then [reply.value] else [])
      modifies this
      ensures Matches() && sys == t
    {
      asked := if next.Some? then [next.value] else [];
      answered := if reply.Some? then [reply.value] else [];
      sys := t;
    }

    /** The answer to one request, with what is left to be asked. */
    method Answer(q: Query, choice: Choice, ghost s: Sys, ghost t: Sys)
      returns (next: Option<Query>, reply: Option<Response>)
      requires data.Valid() && s.store == data.Contents() && s.asked == [q] && s.answered == []
      requires t == Protocol.Serve(s, 0, choice)
      requires ChainLinked(s.store.chain) && PendingOk(s.store.chain, s.asked)
      modifies data
      ensures data.Valid()
      ensures
        && data.Contents() == t.store
        && t.asked == (if next.Some? then [next.value] else [])
        && t.answered == (if reply.Some? then [reply.value] else [])
    {
      if q.Asked? && q.request.AskWrite? {
        next, reply := None, Some(WriteIs(false));
        if choice.ok {
          var status := data.MakeBlock(q.request.id, q.request.cert);
          reply := Some(WriteIs(status == Success));
        }
      } else {
        next, reply := AnswerRead(q, choice, s, t);
      }
    }

    /** Every request but a block write leaves the tables alone. */
    method AnswerRead(q: Query, choice: Choice, ghost s: Sys, ghost t: Sys)
      returns (next: Option<Query>, reply: Option<Response>)
      requires data.Valid() && s.store == data.Contents() && s.asked == [q] && s.answered == []
      requires t == Protocol.Serve(s, 0, choice)
      requires ChainLinked(s.store.chain) && PendingOk(s.store.chain, s.asked)
      requires !(q.Asked? && q.request.AskWrite?)
      ensures
        && s.store == t.store
        && t.asked == (if next.Some? then [next.value] else [])
        && t.answered == (if reply.Some? then [reply.value] else [])
    {
      if q.FirstFound? || q.request.AskTxn? || q.request.AskFirst? {
        next, reply := AnswerQueue(q, choice, s, t);
        return;
      }
      next := None;
      match q.request {
        case AskLatest(_) =>
          var id := data.LatestBlockId();
          reply := Some(LatestIs(choice.ok, if choice.ok then id else Zero));
        case AskBlock(_, id) =>
          var b := ReadBlock(id, choice.ok, s);
          reply := Some(b);
        case AskRandom => reply := Some(RandomIs(choice.ok, choice.id));
        case AskContext => reply := Some(ContextIs(choice.ok, choice.ctx));
        case AskNotify(_) => reply := Some(NotifyIs(choice.ok));
        case AskClose(_) => reply := Some(CloseIs);
      }
    }

    /** The two kinds of queue read. */
    method AnswerQueue(q: Query, choice: Choice, ghost s: Sys, ghost t: Sys)
      returns (next: Option<Query>, reply: Option<Response>)
      requires data.Valid() && s.store == data.Contents() && s.asked == [q] && s.answered == []
      requires t == Protocol.Serve(s, 0, choice)
      requires ChainLinked(s.store.chain) && PendingOk(s.store.chain, s.asked)
      requires q.FirstFound? || q.request.AskTxn? || q.request.AskFirst?
      ensures
        && s.store == t.store
        && t.asked == (if next.Some? then [next.value] else [])
        && t.answered == (if reply.Some? then [reply.value] else [])
    {
      next, reply := None, None;
      if q.FirstFound? {
        var a := ReadQueue(q.key, choice.ok, s);
        reply := Some(FirstIs(a));
      } else if q.request.AskTxn? {
        var a := ReadQueue(q.request.id, choice.ok, s);
        reply := Some(TxnIs(a));
      } else {
        var status, key := data.FirstKey();
        if !choice.ok {
          reply := Some(FirstIs(Failed));
        } else if status != Success {
          reply := Some(FirstIs(NotThere));
        } else {
          next := Some(FirstFound(key));
        }
      }
    }

    /** Moves on to `t`, of which everything but the attestation service is there already. */
    method Settle(next: Attest, ghost t: Sys)
      requires canon.Valid() && data.Valid() && t.attesting == attesting && t.att == next
      requires t.canon == canon.View() && t.armed == canon.armed && t.log.sent == canon.sent
      requires t.store == data.Contents()
      requires t.asked == asked && t.answered == answered
      modifies `att, `sys
      ensures Matches() && sys == t
    {
      att := next;
      sys := t;
    }

    /** A submission, whoever makes it; only the one that breaks the queue table has no step. */
    method Submit(key: Uuid, artifact: Uuid, cert: Certificate)
      requires Valid() && !data.Breaks(key)
      modifies this, data
      ensures Valid() && sys == Apply(old(sys), Submitting(key, artifact, cert))
    {
      ghost var t := EnteredState(sys, key, artifact, cert);
      var status := data.Submit(key, artifact, cert, EntryState(attesting));
      Settle(att, t);
    }

    /** The attestation service looks for the head of the queue. */
    method Wake()
      requires Valid() && attesting && att.Asleep?
      modifies this
      ensures Valid() && sys == Apply(old(sys), Waking)
    {
      ghost var t := WokenState(sys);
      var status, key := data.FirstKey();
      Settle(if status == Success then Fetching(key, true) else att, t);
    }

    /** The attestation service reads the node it looks for. */
    method Read()
      requires Valid() && att.Fetching?
      modifies this
      ensures Valid() && sys == Apply(old(sys), Reading)
    {
      ghost var t := ReadState(sys);
      var next := Look(att.key, att.first);
      Settle(next, t);
    }

    /** What the attestation service makes of a node read. */
    method Look(key: Uuid, first: bool) returns (next: Attest)
      requires data.Valid() && !Sentinel(key)
      ensures next == LookedAt(Get(data.Contents().queue, key), first)
    {
      var status, answer := data.Get(key);
      if status == NotFound {
        return if first then Asleep else Stopped;
      } else if status != Success {
        return Stopped;
      } else if first && answer.entry.state != Submitted {
        return Asleep;
      }
      return At(answer.entry, answer.next);
    }

    /** The attestation service promotes the node it has read, and looks for the next. */
    method Promote(recorded: bool)
      requires Valid() && att.At?
      modifies this, data
      ensures Valid() && sys == Apply(old(sys), Judging(true, recorded))
    {
      ghost var t := JudgedState(sys, true, recorded);
      var status := data.Promote(att.entry.key);
      Settle(if status == Success && recorded then Onward(att.next) else Stopped, t);
    }

    /** The attestation service drops the node it has read, and looks for the next. */
    method Drop()
      requires Valid() && att.At?
      modifies this, data
      ensures Valid() && sys == Apply(old(sys), Judging(false, true))
    {
      ghost var t := JudgedState(sys, false, true);
      var status := data.Drop(att.entry.key);
      Settle(Onward(att.next), t);
    }

    method ReadQueue(key: Uuid, ok: bool, ghost s: Sys) returns (a: ReadAnswer)
      requires data.Valid() && s.store == data.Contents() && !Sentinel(key)
      ensures a == ReadOf(ok, Get(s.store.queue, key))
    {
      var status, answer := data.Get(key);
      if !ok || (status != Success && status != NotFound) {
        return Failed;
      }
      if status == NotFound {
        return NotThere;
      }
      return There(answer.entry, answer.next);
    }

    method ReadBlock(id: Uuid, ok: bool, ghost s: Sys) returns (r: Response)
      requires data.Valid() && s.store == data.Contents() && ChainLinked(s.store.chain)
      ensures r == BlockAnswer(ok, s.store.chain, id)
    {
      var status, node := data.GetBlock(id);
      ghost var found := FindBlock(s.store.chain, id);
      if found.Some? {
        ghost var i :| 0 <= i < |s.store.chain| && s.store.chain[i] == found.value;
        assert BlockLinked(s.store.chain, i);
      }
      if !ok || status != Success {
        return BlockIs(false, 0, None);
      }
      return BlockIs(true, node.value.height, if node.value.cert.Some? then node.value.cert.value.sig else None);
    }
  }

  /** What the callback of a response does to the instance. */
  function Effects(c: Canon, r: Response, f: Faults, sig: seq<byte>): Out
    requires c.forceExit || Handles(c, r)
  {
    if c.forceExit then Out(c, Nothing) else OnResponse(c, r, f, sig)
  }

  /** A callback with outcome `o` leads from `s` to `t`, part by part, and no response is left. */
  ghost predicate After(s: Sys, t: Sys, o: Out) {
    && t.attesting == s.attesting && t.canon == o.c && t.store == s.store && t.att == s.att
    && t.armed == (s.armed || o.effect.Arm?) && t.answered == []
    && t.asked == s.asked + (if o.effect.Send? then [Asked(o.effect.request)] else [])
    && t.log.sent == s.log.sent + (if o.effect.Send? then [o.effect.request] else [])
  }

  lemma FiredState(s: Sys, f: Faults) returns (t: Sys)
    requires Reachable(s) && s.armed
    ensures t == Apply(s, TimerFiring(f)) && Reachable(t)
    ensures s.answered == [] && After(s.(armed := false), t, OnTimer(s.canon, f))
  {
    ReachableStep(s, TimerFiring(f));
    ReachableBase(s);
    t := Apply(s, TimerFiring(f));
    assert s.asked + [] == s.asked && s.log.sent + [] == s.log.sent;
  }

  lemma DeliveredState(s: Sys, f: Faults, sig: seq<byte>) returns (t: Sys)
    requires Reachable(s) && s.answered != [] && |sig| == SIGNATURE_SIZE
    ensures |s.answered| == 1 && (s.canon.forceExit || Handles(s.canon, s.answered[0]))
    ensures t == Apply(s, Delivering(0, f, sig)) && Reachable(t)
    ensures After(s, t, Effects(s.canon, s.answered[0], f, sig))
  {
    ReachableStep(s, Delivering(0, f, sig));
    AnswerAlone(s);
    t := Apply(s, Delivering(0, f, sig));
    assert s.asked + [] == s.asked && s.log.sent + [] == s.log.sent;
  }

  lemma AnswerAlone(s: Sys)
    requires Reachable(s) && s.answered != []
    ensures |s.answered| == 1 && (s.canon.forceExit || Handles(s.canon, s.answered[0]))
  {
    ReachableBase(s);
  }

  /** Nothing but the attestation service, the queue and what is known about them differs. */
  ghost predicate Elsewhere(s: Sys, t: Sys) {
    && t.attesting == s.attesting && t.canon == s.canon && t.armed == s.armed && t.log.sent == s.log.sent
    && t.asked == s.asked && t.answered == s.answered && t.store.chain == s.store.chain
  }

  /** Where the attestation service goes from what it found. */
  function LookedAt(found: Lookup, first: bool): Attest {
    match found
    case Missing => if first then Asleep else Stopped
    case Found(e, _, next) =>
      if e.cert.bytes == [] then Stopped else if first && e.state != Submitted then Asleep else At(e, next)
  }

  /** What it looks for is never a sentinel. */
  lemma ReadState(s: Sys) returns (t: Sys)
    requires Reachable(s) && s.att.Fetching?
    ensures !Sentinel(s.att.key)
    ensures t == Apply(s, Reading) && Reachable(t)
    ensures Elsewhere(s, t) && t.store == s.store && t.att == LookedAt(Get(s.store.queue, s.att.key), s.att.first)
  {
    t := Read(s, s.att.key, s.att.first);
    FetchedKey(s);
    ReadShape(s, s.att.key, s.att.first);
    ReadLeadsTo(s, s.att.key, s.att.first);
    ReachableStep(s, Reading);
  }

  lemma ReadLeadsTo(s: Sys, key: Uuid, first: bool)
    ensures Read(s, key, first).att == LookedAt(Get(s.store.queue, key), first)
  {}

  lemma FetchedKey(s: Sys)
    requires Reachable(s) && s.att.Fetching?
    ensures !Sentinel(s.att.key) && Plain(s.store.queue)
  {
    ReachableBase(s);
  }

  lemma WokenState(s: Sys) returns (t: Sys)
    requires Reachable(s) && s.attesting && s.att.Asleep?
    ensures t == Apply(s, Waking) && Reachable(t) && Elsewhere(s, t) && t.store == s.store
    ensures t.att == if s.store.queue == [] then s.att else Fetching(s.store.queue[0].key, true)
  {
    t := Wake(s);
    ReachableStep(s, Waking);
  }

  lemma EnteredState(s: Sys, key: Uuid, artifact: Uuid, cert: Certificate) returns (t: Sys)
    requires Reachable(s)
    ensures t == Apply(s, Submitting(key, artifact, cert)) && Reachable(t) && Elsewhere(s, t) && t.att == s.att
    ensures t.store.queue == Submit(s.store.queue, key, artifact, cert, EntryState(s.attesting))
  {
    t := Enter(s, key, artifact, cert);
    ReachableStep(s, Submitting(key, artifact, cert));
  }

  lemma JudgedState(s: Sys, accept: bool, recorded: bool) returns (t: Sys)
    requires Reachable(s) && s.att.At?
    ensures t == Apply(s, Judging(accept, recorded)) && Reachable(t) && Elsewhere(s, t)
    ensures var q, key := s.store.queue, s.att.entry.key;
      && t.store.queue == (if accept then Promote(q, key) else Drop(q, key))
      && t.att == if accept && !(key in Keys(q) && recorded) then Stopped else Onward(s.att.next)
  {
    t := Judge(s, s.att.entry, s.att.next, accept, recorded);
    ReachableStep(s, Judging(accept, recorded));
  }

  lemma ServedState(s: Sys, q: Query, choice: Choice) returns (t: Sys)
    requires Reachable(s) && s.asked != [] && s.asked[0] == q
    ensures s.asked == [q] && s.answered == [] && ChainLinked(s.store.chain) && PendingOk(s.store.chain, s.asked)
    ensures t == Protocol.Serve(s, 0, choice) == Apply(s, Serving(0, choice)) && Reachable(t)
    ensures SameBut(s, t)
  {
    ReachableStep(s, Serving(0, choice));
    ReachableBase(s);
    ServeLeaves(s, 0, choice);
    t := Protocol.Serve(s, 0, choice);
  }
}
