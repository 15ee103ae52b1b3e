/** Where the answer of a task comes from, whatever its code: the reply that wrote it. */
module PipelineAnswers {
  import opened Basics
  import opened Tasks
  import opened Pipeline
  import opened PipelineInvariant
  import opened PipelineSteps
  import opened PipelineTheorems

  /** A reply to a batch with this id at position `i` turns its entry into `t`: the code
      of the reply, its payload at that position, and one stage more. */
  ghost predicate Wrote(u: Pipe, e: Event, id: Id, i: nat, t: Tasks.Task) {
    && e.Reply? && e.c < |u.conns| && u.conns[e.c].phase.Sent?
    && i < |u.conns[e.c].phase.ids| == |e.payloads| && u.conns[e.c].phase.ids[i] == id && id in u.table
    && t.code == e.code && t.data == e.payloads[i]
    && t.stage == u.table[id].stage + 1 && t.route == u.table[id].route
  }

  lemma ReplyWrites(cfg: Config, s: Pipe, e: Event, id: Id) returns (i: nat)
    requires cfg.Valid() && Inv(cfg, s) && Enabled(cfg, s, e) && e.Reply? && id in Apply(cfg, s, e).table
    ensures id in s.table
    ensures Apply(cfg, s, e).table[id] == s.table[id] || Wrote(s, e, id, i, Apply(cfg, s, e).table[id])
  {
    var ids := s.conns[e.c].phase.ids;
    assert AllAt(s.place, Held(s.conns[e.c].phase), Hand(e.c));
    UpdateAllFrame(s.table, e.code, ids, e.payloads);
    i := 0;
    if id in ids {
      i :| 0 <= i < |ids| && ids[i] == id;
    }
  }

  lemma WorkKeepsEntry(cfg: Config, s: Pipe, c: nat, id: Id)
    requires Enabled(cfg, s, Work(c)) && id in DoWork(cfg, s, c).table
    ensures id in s.table && DoWork(cfg, s, c).table[id] == s.table[id]
  {
  }

  lemma ClientKeepsEntry(cfg: Config, s: Pipe, e: Event, id: Id)
    requires Enabled(cfg, s, e) && !OfConn(e) && e != StoreTask(id) && id in Apply(cfg, s, e).table
    ensures id in s.table && Apply(cfg, s, e).table[id] == s.table[id]
  {
  }

  /** Only storing and replies write entries. */
  lemma OthersKeepEntry(cfg: Config, s: Pipe, e: Event, id: Id)
    requires Enabled(cfg, s, e) && !e.Reply? && e != StoreTask(id) && id in Apply(cfg, s, e).table
    ensures id in s.table && Apply(cfg, s, e).table[id] == s.table[id]
  {
    if e.Work? {
      WorkKeepsEntry(cfg, s, e.c, id);
    } else if OfConn(e) {
      ConnStepTables(cfg, s, e);
    } else {
      ClientKeepsEntry(cfg, s, e, id);
    }
  }

  /** The entry is not stored anew. */
  ghost predicate NotStored(events: seq<Event>, id: Id) {
    forall j :: 0 <= j < |events| ==> events[j] != StoreTask(id)
  }

  /** The `k`-th event of the run writes this entry for the task that still has it. */
  ghost predicate WrittenAt(
      cfg: Config, s: Pipe, events: seq<Event>, id: Id, t: Tasks.Task, k: nat, u: Pipe, i: nat)
  {
    && k < |events| && Reaches(cfg, s, events[..k], u) && Wrote(u, events[k], id, i, t)
    && NotStored(events[k + 1..], id)
  }

  lemma WrittenLater(cfg: Config, s: Pipe, events: seq<Event>, id: Id, t: Tasks.Task, k: nat, u: Pipe, i: nat)
    requires events != [] && Enabled(cfg, s, events[0])
    requires WrittenAt(cfg, Apply(cfg, s, events[0]), events[1..], id, t, k, u, i)
    ensures WrittenAt(cfg, s, events, id, t, k + 1, u, i)
  {
    var before := events[..k + 1];
    assert before[0] == events[0] && before[1..] == events[1..][..k];
    assert events[1..][k + 1..] == events[k + 2..];
  }

  lemma WrittenNow(cfg: Config, s: Pipe, events: seq<Event>, id: Id, t: Tasks.Task, i: nat)
    requires events != [] && NotStored(events[1..], id)
    ensures Wrote(s, events[0], id, i, t) ==> WrittenAt(cfg, s, events, id, t, 0, s, i)
    ensures events[0] != StoreTask(id) ==> NotStored(events, id)
  {
    assert events[..0] == [] && forall j :: 0 < j < |events| ==> events[j] == events[1..][j - 1];
  }

  /** An entry that has left its first stage was there from the beginning, or the last
      reply to a batch with its id wrote it. */
  lemma {:induction false} WhereWritten(cfg: Config, s: Pipe, events: seq<Event>, t: Pipe, id: Id)
    returns (during: bool, k: nat, u: Pipe, i: nat)
    requires cfg.Valid() && Inv(cfg, s) && Reaches(cfg, s, events, t) && id in t.table && t.table[id].stage > 0
    ensures if during then WrittenAt(cfg, s, events, id, t.table[id], k, u, i)
      else id in s.table && s.table[id] == t.table[id] && NotStored(events, id)
    decreases |events|
  {
    during, k, u, i := false, 0, s, 0;
    if events != [] {
      var m := Apply(cfg, s, events[0]);
      StepKeeps(cfg, s, events[0]);
      during, k, u, i := WhereWritten(cfg, m, events[1..], t, id);
      if during {
        WrittenLater(cfg, s, events, id, t.table[id], k, u, i);
        k := k + 1;
      } else {
        during, i := WrittenFirst(cfg, s, events, t.table[id], id);
        k, u := 0, s;
      }
    }
  }

  lemma WrittenFirst(cfg: Config, s: Pipe, events: seq<Event>, t: Tasks.Task, id: Id) returns (now: bool, i: nat)
    requires cfg.Valid() && Inv(cfg, s) && events != [] && Enabled(cfg, s, events[0])
    requires id in Apply(cfg, s, events[0]).table && Apply(cfg, s, events[0]).table[id] == t && t.stage > 0
    requires NotStored(events[1..], id)
    ensures if now then WrittenAt(cfg, s, events, id, t, 0, s, i)
      else id in s.table && s.table[id] == t && NotStored(events, id)
  {
    i := 0;
    if events[0].Reply? {
      i := ReplyWrites(cfg, s, events[0], id);
    } else if events[0] != StoreTask(id) {
      OthersKeepEntry(cfg, s, events[0], id);
    }
    WrittenNow(cfg, s, events, id, t, i);
    now := !(id in s.table && s.table[id] == t);
  }

  /** What a handler collects, success or failure, is the answer of one reply of the run:
      its code, and its payload at the position that the id had in the batch. Since
      then the entry was not stored anew, so it is the answer to this very task. */
  lemma AnswerIsTheReplys(cfg: Config, events: seq<Event>, s: Pipe, id: Id) returns (k: nat, u: Pipe, i: nat)
    requires cfg.Valid() && Reaches(cfg, Init(cfg), events, s) && Enabled(cfg, s, Collect(id))
    ensures Collected(s, id).Task? && WrittenAt(cfg, Init(cfg), events, id, Collected(s, id).task, k, u, i)
  {
    InitInv(cfg);
    CollectGetsOwnAnswer(cfg, s, id);
    var during;
    during, k, u, i := WhereWritten(cfg, Init(cfg), events, s, id);
  }
}
