/** What the client of a task gets of its text in a run of the server, from the launch of the task on. */
module TaskText {
  import opened Wrappers
  import opened Utf8
  import opened TextStream
  import opened Indentation
  import opened Slots
  import opened UpdateSlots
  import opened ServerInvariant
  import opened BatchBuilding
  import opened DecodeCoverage
  import opened RetryLoop
  import opened ServerRuns
  import opened Replies
  import opened ReplySteps
  import opened Silence

  /** What a command tells. */
  function EventsOf(cfg: Config, sv: Server, c: Command): seq<Event>
    requires Valid(sv)
  {
    match c
    case CallUpdate(o) => Update(cfg, sv, o).events
    case LaunchTask(i, task, ok) =>
      if i < |sv.slots| && !Processing(sv.slots[i]) && !ok then [Sent(task.id, Error(BadGrammar))] else []
    case _ => []
  }

  /** The tokens that the library gives for slot `i` while it has the task and the command is carried out. */
  function HeardBy(cfg: Config, sv: Server, c: Command, i: nat, id: int): seq<Sample>
    requires Valid(sv) && i < |sv.slots|
  {
    if c.CallUpdate? && !AllIdle(sv.slots) && sv.slots[i].idTask == id
    then Heard(cfg, c.o, Loop(BuiltFrom(cfg, c.o, Begun(sv)), 0, cfg.nBatch, 0), i) else []
  }

  function AllEvents(cfg: Config, sv: Server, cs: seq<Command>): seq<Event>
    requires Valid(sv)
    decreases |cs|
  {
    if cs == [] then [] else EventsOf(cfg, sv, cs[0]) + AllEvents(cfg, Exec(cfg, sv, cs[0]), cs[1..])
  }

  function AllHeard(cfg: Config, sv: Server, cs: seq<Command>, i: nat, id: int): seq<Sample>
    requires Valid(sv) && i < |sv.slots|
    decreases |cs|
  {
    if cs == [] then [] else HeardBy(cfg, sv, cs[0], i, id) + AllHeard(cfg, Exec(cfg, sv, cs[0]), cs[1..], i, id)
  }

  /** The results of the task are those of its run; slot `i` has it or had it, and no other slot. */
  ghost predicate Serves(cfg: Config, sv: Server, i: nat, replies: seq<Reply>, task: Task, smps: seq<Sample>) {
    && Valid(sv) && i < |sv.slots|
    && (forall k :: 0 <= k < |sv.slots| && k != i ==> sv.slots[k].idTask != task.id)
    && Carried(replies, task, smps)
    && (sv.slots[i].idTask == task.id ==> Carries(cfg, sv.slots[i], replies, task, smps))
  }

  /** The command does not give the task's number away again. */
  predicate LeavesNumber(c: Command, id: int) { c.LaunchTask? ==> c.task.id != id }

  // ------------------------------------------------------------------ one command

  lemma UpdateServes(cfg: Config, sv: Server, i: nat, replies: seq<Reply>, task: Task, smps: seq<Sample>, o: Oracle)
    requires Serves(cfg, sv, i, replies, task, smps) && sv.slots[i].idTask == task.id
    ensures Serves(cfg, Update(cfg, sv, o).server, i, replies + RepliesTo(Update(cfg, sv, o).events, task.id), task,
                   smps + HeardBy(cfg, sv, CallUpdate(o), i, task.id))
  {
    hide Carries, Carried, BuiltFrom, DecodeFrom;
    assert RepliesTo([], task.id) == [] && replies + [] == replies && smps + [] == smps;
    if !AllIdle(sv.slots) {
      var w := BuiltFrom(cfg, o, Begun(sv));
      var l := Loop(w, 0, cfg.nBatch, 0);
      assert Tells(cfg, Begun(sv), i, replies, task, smps);
      hide RepliesTo;
      BuiltTells(cfg, o, Begun(sv), i, replies, task, smps);
      DecodeTells(cfg, o, l, i, replies, task, smps);
      var t := DecodeFrom(cfg, o, l).work;
      CarriesIsCarried(cfg, t.slots[i], replies + RepliesTo(t.events, task.id), task, smps + Heard(cfg, o, l, i));
    }
  }

  lemma CarriesIsCarried(cfg: Config, s: Slot, replies: seq<Reply>, task: Task, smps: seq<Sample>)
    requires Carries(cfg, s, replies, task, smps)
    ensures Carried(replies, task, smps)
  {
    hide Carried, TaskRun;
  }

  /** Once the slot has another task nothing is sent for this one. */
  lemma GoneServes(cfg: Config, sv: Server, i: nat, replies: seq<Reply>, task: Task, smps: seq<Sample>, o: Oracle)
    requires Serves(cfg, sv, i, replies, task, smps) && sv.slots[i].idTask != task.id
    ensures Serves(cfg, Update(cfg, sv, o).server, i, replies + RepliesTo(Update(cfg, sv, o).events, task.id), task,
                   smps + HeardBy(cfg, sv, CallUpdate(o), i, task.id))
  {
    hide Carries, Carried, Update, RepliesTo;
    UpdateIsSilent(cfg, sv, o, task.id);
    assert replies + [] == replies && smps + [] == smps;
  }

  lemma QuietServes(cfg: Config, sv: Server, i: nat, replies: seq<Reply>, task: Task, smps: seq<Sample>, c: Command)
    requires Serves(cfg, sv, i, replies, task, smps) && LeavesNumber(c, task.id) && !c.CallUpdate?
    ensures Serves(cfg, Exec(cfg, sv, c), i, replies + RepliesTo(EventsOf(cfg, sv, c), task.id), task,
                   smps + HeardBy(cfg, sv, c, i, task.id))
  {
    hide Carries, Carried;
    var r := Exec(cfg, sv, c);
    NoReply(EventsOf(cfg, sv, c), task.id);
    assert replies + [] == replies && smps + [] == smps;
    if r.slots[i].idTask == task.id {
      assert SameOrder(sv.slots[i], r.slots[i]) && (Processing(r.slots[i]) ==> Processing(sv.slots[i]));
      CarriesQuiet(cfg, sv.slots[i], r.slots[i], replies, task, smps);
    }
  }

  lemma ExecServes(cfg: Config, sv: Server, i: nat, replies: seq<Reply>, task: Task, smps: seq<Sample>, c: Command)
    requires Serves(cfg, sv, i, replies, task, smps) && LeavesNumber(c, task.id)
    ensures Serves(cfg, Exec(cfg, sv, c), i, replies + RepliesTo(EventsOf(cfg, sv, c), task.id), task,
                   smps + HeardBy(cfg, sv, c, i, task.id))
  {
    hide Carries, Carried, RepliesTo, Update, HeardBy;
    if !c.CallUpdate? {
      QuietServes(cfg, sv, i, replies, task, smps, c);
    } else if sv.slots[i].idTask == task.id {
      UpdateServes(cfg, sv, i, replies, task, smps, c.o);
    } else {
      GoneServes(cfg, sv, i, replies, task, smps, c.o);
    }
  }

  lemma {:induction false} RunServes(cfg: Config, sv: Server, i: nat, replies: seq<Reply>, task: Task,
                                     smps: seq<Sample>, cs: seq<Command>)
    requires Serves(cfg, sv, i, replies, task, smps) && forall c :: c in cs ==> LeavesNumber(c, task.id)
    ensures Serves(cfg, AfterAll(cfg, sv, cs), i, replies + RepliesTo(AllEvents(cfg, sv, cs), task.id), task,
                   smps + AllHeard(cfg, sv, cs, i, task.id))
    decreases |cs|
  {
    hide Carries, Carried, Exec, EventsOf, HeardBy;
    if cs == [] {
      assert RepliesTo([], task.id) == [] && replies + [] == replies && smps + [] == smps;
    } else {
      var v, told, heard := Exec(cfg, sv, cs[0]), EventsOf(cfg, sv, cs[0]), HeardBy(cfg, sv, cs[0], i, task.id);
      hide RepliesTo;
      ExecServes(cfg, sv, i, replies, task, smps, cs[0]);
      RunServes(cfg, v, i, replies + RepliesTo(told, task.id), task, smps + heard, cs[1..]);
      RepliesConcat(told, AllEvents(cfg, v, cs[1..]), task.id);
      assert replies + RepliesTo(told, task.id) + RepliesTo(AllEvents(cfg, v, cs[1..]), task.id)
             == replies + RepliesTo(AllEvents(cfg, sv, cs), task.id);
      assert smps + heard + AllHeard(cfg, v, cs[1..], i, task.id) == smps + AllHeard(cfg, sv, cs, i, task.id);
    }
  }

  // ------------------------------------------------------------------ the launch

  lemma LaunchServes(cfg: Config, sv: Server, i: nat, task: Task)
    requires Valid(sv) && i < |sv.slots| && !Processing(sv.slots[i])
    requires forall k :: 0 <= k < |sv.slots| && k != i ==> sv.slots[k].idTask != task.id
    ensures Serves(cfg, Exec(cfg, sv, LaunchTask(i, task, true)), i, [], task, [])
  {
  }

  lemma ServedText(cfg: Config, sv: Server, i: nat, replies: seq<Reply>, task: Task, smps: seq<Sample>)
    requires Serves(cfg, sv, i, replies, task, smps)
    ensures var run, stream := TaskRun(task.params, smps), task.params.stream;
            && (HasFinal(replies) ==> PartialText(replies) + FinalText(replies) == ClientText(run, stream))
            && PartialText(replies) == (if stream then run.sent else []) && (HasPartial(replies) ==> stream)
            && (sv.slots[i].idTask == task.id && Processing(sv.slots[i]) ==> !HasFinal(replies) && run.text.hasNext)
            && OnlyLastEnds(task.params, smps)
            && (Embeddings in replies ==> task.kind == Embedding) && (Score in replies ==> task.kind == Rerank)
  {
    hide TaskRun, PartialText, FinalText, HasFinal, HasPartial, OnlyLastEnds, RepliesTo;
  }

  /** The task's text reaches its client. In every run, with any answers of the library and also if decoding fails for
      good: from the launch of a task on an idle slot on, the partial contents, joined together and followed by the
      content of the final result, are what a client gets of the run over the tokens that the library gave for the task;
      they come with a stream only, and before the end they are what the stream has carried so far. Embeddings and
      scores go to those who want them. */
  lemma TaskTextIsDelivered(cfg: Config, sv: Server, i: nat, task: Task, cs: seq<Command>)
    requires Valid(sv) && i < |sv.slots| && !Processing(sv.slots[i])
    requires forall k :: 0 <= k < |sv.slots| && k != i ==> sv.slots[k].idTask != task.id
    requires forall c :: c in cs ==> LeavesNumber(c, task.id)
    ensures var launched := Exec(cfg, sv, LaunchTask(i, task, true));
            var s := AfterAll(cfg, launched, cs).slots[i];
            var replies := RepliesTo(AllEvents(cfg, launched, cs), task.id);
            var heard, stream := AllHeard(cfg, launched, cs, i, task.id), task.params.stream;
            var run := TaskRun(task.params, heard);
            && (HasFinal(replies) ==> PartialText(replies) + FinalText(replies) == ClientText(run, stream))
            && PartialText(replies) == (if stream then run.sent else []) && (HasPartial(replies) ==> stream)
            && (s.idTask == task.id && Processing(s) ==> !HasFinal(replies) && run.text.hasNext)
            && OnlyLastEnds(task.params, heard)
            && (Embeddings in replies ==> task.kind == Embedding) && (Score in replies ==> task.kind == Rerank)
  {
    hide *;
    var launched := Exec(cfg, sv, LaunchTask(i, task, true));
    LaunchServes(cfg, sv, i, task);
    RunServes(cfg, launched, i, [], task, [], cs);
    var replies, heard := RepliesTo(AllEvents(cfg, launched, cs), task.id), AllHeard(cfg, launched, cs, i, task.id);
    assert [] + replies == replies && [] + heard == heard;
    ServedText(cfg, AfterAll(cfg, launched, cs), i, replies, task, heard);
  }

  // ------------------------------------------------------------------ the run of a task

  function PiecesOf(smps: seq<Sample>): seq<Text> {
    if smps == [] then [] else PiecesOf(smps[..|smps| - 1]) + [smps[|smps| - 1].piece]
  }

  /** If the time limit does not strike, the run of a task is the one over the pieces of its tokens that the results on
      the text are about. */
  lemma {:induction false} TaskRunIsGenerated(p: Params, smps: seq<Sample>)
    requires OnlyLastEnds(p, smps) && forall smp :: smp in smps ==> !smp.late
    ensures TaskRun(p, smps) == GenerateLines(PiecesOf(smps), p.stops, p.nIndent)
  {
    if smps != [] {
      var front := smps[..|smps| - 1];
      assert forall n :: 0 <= n < |front| ==> front[..n] == smps[..n];
      TaskRunIsGenerated(p, front);
      assert TaskRun(p, smps[..|smps| - 1]).text.hasNext;
      assert PiecesOf(smps)[..|PiecesOf(smps)| - 1] == PiecesOf(front);
      hide Accept, LinesChecked;
    }
  }

  /** What the client of a task without limits of time and indentation has, in full: the text of the plain run. */
  lemma PlainTaskText(p: Params, smps: seq<Sample>)
    requires OnlyLastEnds(p, smps) && p.nIndent <= 0 && forall smp :: smp in smps ==> !smp.late
    ensures ClientText(TaskRun(p, smps), p.stream) == ClientText(Generate(PiecesOf(smps), p.stops), p.stream)
  {
    TaskRunIsGenerated(p, smps);
    NoLimitIsPlain(PiecesOf(smps), p.stops, p.nIndent);
  }

  // ------------------------------------------------------------------ the tokens of a call

  /** The slot is not sampled from any more: it has no entry where the loop is or behind, or it is not one to sample. */
  predicate IsDeaf(s: Slot, at: nat) { s.iBatch < at || !IsReady(s) || (s.phase == DonePrompt && NonCausal(s)) }

  lemma {:induction false} HeardNever(cfg: Config, o: Oracle, l: Loop, i: nat)
    requires Shaped(l.work) && l.nBatch >= 1 && i < |l.work.slots| && !cfg.hasDraft && IsDeaf(l.work.slots[i], l.i)
    ensures Heard(cfg, o, l, i) == []
    decreases |l.work.batch| - l.i, l.nBatch
  {
    var heard := DecodeUnfold(cfg, o, l, i);
    hide Heard;
    match DecodeTurn(cfg, o, l)
    case Stop(_) =>
    case Again(m) =>
      if o.decodes(l.call) == 0 {
        var count := Min(l.nBatch, |l.work.batch| - l.i);
        var d, view := ViewDecoded(l.work, l.i, count), View(l.i, count);
        if IsDue(l.work.slots[i], l.i, count) {
          HandleTakesTurn(cfg, o, l.call, view, d, 0, i);
        } else {
          HandleKeepsOthers(cfg, o, l.call, view, d, 0, i);
        }
      }
      HeardNever(cfg, o, m, i);
  }

  /** Call `c` decodes the view that holds entry `at`. */
  predicate DecodesEntry(o: Oracle, n: nat, total: nat, c: nat, at: int) {
    o.decodes(c) == 0 && StartOf(o, n, total, c) <= at < StartOf(o, n, total, c + 1)
  }

  lemma {:induction false} HeardOnce(cfg: Config, o: Oracle, w0: Work, l: Loop, i: nat) returns (c: nat)
    requires OnTheWay(cfg, o, w0, l) && i < |l.work.slots| && !cfg.hasDraft
    requires var s := l.work.slots[i]; IsReady(s) && !NonCausal(s) && l.i <= s.iBatch < |w0.batch|
    ensures || (DecodeFrom(cfg, o, l).fatal && Heard(cfg, o, l, i) == [])
            || (DecodesEntry(o, cfg.nBatch, |w0.batch|, c, l.work.slots[i].iBatch)
                && Heard(cfg, o, l, i) == [o.samples(c, i)])
    decreases |l.work.batch| - l.i, l.nBatch
  {
    var heard := DecodeUnfold(cfg, o, l, i);
    c := l.call;
    var s := l.work.slots[i];
    if FailsForGood(o, cfg.nBatch, l.call) {
      GivingUpEnds(cfg, o, w0, l);
    } else if o.decodes(l.call) != 0 {
      FailureGoesOn(cfg, o, w0, l);
      c := HeardOnce(cfg, o, w0, DecodeTurn(cfg, o, l).loop, i);
    } else {
      SuccessGoesOn(cfg, o, w0, l);
      var count, m := Min(l.nBatch, |l.work.batch| - l.i), DecodeTurn(cfg, o, l).loop;
      var d, view := ViewDecoded(l.work, l.i, count), View(l.i, count);
      if InView(s, l.i, count) {
        HandleTakesTurn(cfg, o, l.call, view, d, 0, i);
        HeardNever(cfg, o, m, i);
      } else {
        HandleKeepsOthers(cfg, o, l.call, view, d, 0, i);
        c := HeardOnce(cfg, o, w0, m, i);
      }
    }
  }

  lemma OneTokenPerBatch(cfg: Config, o: Oracle, w: Work, i: nat)
    requires Shaped(w) && i < |w.slots| && !cfg.hasDraft
    requires IsReady(w.slots[i]) ==> 0 <= w.slots[i].iBatch < |w.batch|
    requires w.slots[i].phase == Generating ==> !NonCausal(w.slots[i])
    ensures var l := Loop(w, 0, cfg.nBatch, 0);
            var heard := Heard(cfg, o, l, i);
            if IsReady(w.slots[i]) && !NonCausal(w.slots[i])
            then || (DecodeFrom(cfg, o, l).fatal && heard == [])
                 || exists c: nat :: DecodesEntry(o, cfg.nBatch, |w.batch|, c, w.slots[i].iBatch)
                                     && heard == [o.samples(c, i)]
            else heard == []
  {
    assert Views(w.events, |w.events|) == [];
    hide DecodeFrom, Heard;
    if IsReady(w.slots[i]) && !NonCausal(w.slots[i]) {
      var c := HeardOnce(cfg, o, w, Loop(w, 0, cfg.nBatch, 0), i);
    } else {
      HeardNever(cfg, o, Loop(w, 0, cfg.nBatch, 0), i);
    }
  }

  /** Without a draft model, from every sound state: in a call of `update_slots` a task that generates or has its prompt
      in hears one token, the one sampled for its slot after the decode call whose view holds its entry, unless decoding
      fails for good before; other tasks hear none. */
  lemma OneTokenPerCall(cfg: Config, o: Oracle, sv: Server, i: nat)
    requires RunOk(cfg, sv) && !AllIdle(sv.slots) && i < |sv.slots| && !cfg.hasDraft
    ensures var w, heard := BuiltFrom(cfg, o, Begun(sv)), HeardBy(cfg, sv, CallUpdate(o), i, sv.slots[i].idTask);
            if IsReady(w.slots[i]) && !NonCausal(w.slots[i])
            then || (Update(cfg, sv, o).fatal && heard == [])
                 || exists c: nat :: DecodesEntry(o, cfg.nBatch, |w.batch|, c, w.slots[i].iBatch)
                                     && heard == [o.samples(c, i)]
            else heard == []
  {
    var w := BuiltFrom(cfg, o, Begun(sv));
    BuiltOk(cfg, o, sv);
    assert ReadyOk(w.slots[i], w.batch, i) && PhaseOk(cfg, w.slots[i]);
    hide RunOk, BatchOk, BuiltFrom, DecodeFrom, Heard, AllIdle, DecodesEntry;
    OneTokenPerBatch(cfg, o, w, i);
  }
}
