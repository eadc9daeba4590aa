/**
 The AI run monitor: a ring buffer of the newest 200 runs, edited in place, against the
 unbounded log of all runs.
 */
module RunMonitor {
  import opened Wrappers
  import opened Money
  import opened Text

  const MAX_RUNS: nat := 200
  const MAX_MESSAGE: nat := 300
  const MAX_REPLY: nat := 240

  datatype Status = Running | Succeeded | Failed | Blocked

  datatype Run = Run(
    id: string, userId: int, audience: string, message: string, provider: string, status: Status,
    tools: seq<string>, ragChunks: int, replyPreview: Option<string>, error: Option<string>,
    ms: Option<int>, startedAt: Option<real>)

  datatype Event =
    | Start(id: string, userId: int, audience: string, message: Option<string>, provider: string, now: real)
    | Note(id: string, tools: seq<string>, ragChunks: int)
    | Finish(id: string, reply: Option<string>, error: Option<string>, newProvider: Option<string>,
             blocked: bool, now: real)

  function Prefix<T>(s: seq<T>, n: nat): seq<T> {
    if |s| <= n then s else s[..n]
  }

  function OrEmpty(s: Option<string>): string {
    if s.Some? then s.value else ""
  }

  function NewRun(e: Event): Run
    requires e.Start?
  {
    Run(e.id, e.userId, e.audience, Prefix(OrEmpty(e.message), MAX_MESSAGE), e.provider, Running,
        [], 0, None, None, None, Some(e.now))
  }

  /** The run after a note or a finish that carries its id. */
  function Edited(r: Run, e: Event): (t: Run)
    requires !e.Start?
    ensures t.id == r.id && t.startedAt == r.startedAt
    ensures e.Finish? ==> t.status != Running && (t.status == Failed <==> Given(e.error))
  {
    match e
    case Note(_, tools, chunks) => r.(tools := tools, ragChunks := chunks)
    case Finish(_, reply, error, provider, blocked, now) =>
      r.(status := if Given(error) then Failed else if blocked then Blocked else Succeeded,
         replyPreview := Some(Prefix(OrEmpty(reply), MAX_REPLY)),
         error := error,
         provider := if Given(provider) then provider.value else r.provider,
         ms := if r.startedAt.Some? then Some(Truncate((now - r.startedAt.value) * 1000.0)) else r.ms)
  }

  /** Edits the newest run that has the event's id, if there is one. */
  function EditFirst(log: seq<Run>, e: Event): (r: seq<Run>)
    requires !e.Start?
    ensures |r| == |log|
  {
    if log == [] then []
    else if log[0].id == e.id then [Edited(log[0], e)] + log[1..]
    else [log[0]] + EditFirst(log[1..], e)
  }

  /** An edit leaves every run its id and its start. */
  lemma {:induction false} EditFirstKeeps(log: seq<Run>, e: Event, i: nat)
    requires !e.Start? && i < |log|
    ensures EditFirst(log, e)[i].id == log[i].id && EditFirst(log, e)[i].startedAt == log[i].startedAt
  {
    hide Edited;
    if log[0].id != e.id && i > 0 {
      EditFirstKeeps(log[1..], e, i - 1);
    }
  }

  /** The unbounded log, newest first. */
  function Apply(log: seq<Run>, e: Event): seq<Run> {
    if e.Start? then [NewRun(e)] + log else EditFirst(log, e)
  }

  function Log(es: seq<Event>): seq<Run> {
    if es == [] then [] else Apply(Log(es[..|es| - 1]), es[|es| - 1])
  }

  /** What the bounded buffer does with the same event: the oldest run falls out. */
  function ApplyBounded(runs: seq<Run>, e: Event): seq<Run> {
    if e.Start? then Prefix([NewRun(e)] + runs, MAX_RUNS) else EditFirst(runs, e)
  }

  function Buffer(es: seq<Event>): seq<Run> {
    if es == [] then [] else ApplyBounded(Buffer(es[..|es| - 1]), es[|es| - 1])
  }

  lemma {:induction false} EditFirstOfPrefix(log: seq<Run>, e: Event, n: nat)
    requires !e.Start?
    ensures EditFirst(Prefix(log, n), e) == Prefix(EditFirst(log, e), n)
  {
    if log != [] && log[0].id != e.id && n > 0 {
      EditFirstOfPrefix(log[1..], e, n - 1);
      assert Prefix(log, n)[1..] == Prefix(log[1..], n - 1);
    }
  }

  lemma {:induction false} EditFirstMisses(log: seq<Run>, e: Event)
    requires !e.Start? && forall r :: r in log ==> r.id != e.id
    ensures EditFirst(log, e) == log
  {
    if log != [] {
      EditFirstMisses(log[1..], e);
    }
  }

  lemma {:induction false} EditFirstAt(log: seq<Run>, e: Event, k: nat)
    requires !e.Start? && k < |log| && log[k].id == e.id
    requires forall i :: 0 <= i < k ==> log[i].id != e.id
    ensures EditFirst(log, e) == log[k := Edited(log[k], e)]
  {
    if k > 0 {
      EditFirstAt(log[1..], e, k - 1);
    }
  }

  lemma BoundedStep(log: seq<Run>, e: Event)
    ensures ApplyBounded(Prefix(log, MAX_RUNS), e) == Prefix(Apply(log, e), MAX_RUNS)
  {
    if !e.Start? {
      EditFirstOfPrefix(log, e, MAX_RUNS);
    }
  }

  /** The buffer is always the newest 200 runs of the full log, whatever the ids. */
  lemma {:induction false} BufferRefinesLog(es: seq<Event>)
    ensures Buffer(es) == Prefix(Log(es), MAX_RUNS)
  {
    if es != [] {
      BufferRefinesLog(es[..|es| - 1]);
      BoundedStep(Log(es[..|es| - 1]), es[|es| - 1]);
    }
  }

  /** Notes and finishes of a run that has fallen out of the buffer change nothing in it. */
  lemma EvictedRunsStayInvisible(es: seq<Event>, e: Event)
    requires !e.Start? && forall r :: r in Buffer(es) ==> r.id != e.id
    ensures Buffer(es + [e]) == Buffer(es)
  {
    assert (es + [e])[..|es|] == es;
    EditFirstMisses(Buffer(es), e);
  }

  // ---- what a log entry says about its run ----

  /** One run's own history: its start, then every later event with its id. */
  function History(es: seq<Event>, id: string): Option<Run> {
    if es == [] then None
    else
      var before, e := History(es[..|es| - 1], id), es[|es| - 1];
      if e.id != id then before
      else if e.Start? then Some(NewRun(e))
      else if before.None? then None
      else Some(Edited(before.value, e))
  }

  ghost predicate UniqueIds(es: seq<Event>) {
    forall i, j :: 0 <= i < j < |es| && es[i].Start? && es[j].Start? ==> es[i].id != es[j].id
  }

  lemma {:induction false} LoggedRunsWereStarted(es: seq<Event>, k: nat) returns (i: nat)
    requires k < |Log(es)|
    ensures i < |es| && es[i].Start? && es[i].id == Log(es)[k].id
  {
    var n := |es| - 1;
    if !es[n].Start? {
      EditFirstKeeps(Log(es[..n]), es[n], k);
      hide EditFirst;
      i := LoggedRunsWereStarted(es[..n], k);
    } else if k == 0 {
      i := n;
    } else {
      i := LoggedRunsWereStarted(es[..n], k - 1);
    }
  }

  ghost predicate DistinctIds(log: seq<Run>) {
    forall i, j :: 0 <= i < j < |log| ==> log[i].id != log[j].id
  }

  lemma {:induction false} LogKeepsIdsDistinct(es: seq<Event>)
    requires UniqueIds(es)
    ensures DistinctIds(Log(es))
  {
    if es != [] {
      var n := |es| - 1;
      LogKeepsIdsDistinct(es[..n]);
      if es[n].Start? {
        forall k | 0 <= k < |Log(es[..n])|
          ensures Log(es[..n])[k].id != es[n].id
        {
          var i := LoggedRunsWereStarted(es[..n], k);
          assert es[..n][i] == es[i];
        }
      } else {
        forall k | 0 <= k < |Log(es[..n])|
          ensures Log(es)[k].id == Log(es[..n])[k].id
        {
          EditFirstKeeps(Log(es[..n]), es[n], k);
        }
        hide EditFirst;
      }
    }
  }

  lemma {:induction false} EditFirstElements(log: seq<Run>, e: Event, k: nat)
    requires !e.Start? && DistinctIds(log) && k < |log|
    ensures EditFirst(log, e)[k] == if log[k].id == e.id then Edited(log[k], e) else log[k]
  {
    if log[k].id == e.id {
      EditFirstAt(log, e, k);
    } else if log[0].id != e.id {
      if k > 0 {
        EditFirstElements(log[1..], e, k - 1);
      }
    }
  }

  /** With unique ids every entry of the log is its run's own history. */
  lemma {:induction false} LogTellsHistories(es: seq<Event>, k: nat)
    requires UniqueIds(es) && k < |Log(es)|
    ensures History(es, Log(es)[k].id) == Some(Log(es)[k])
  {
    var n := |es| - 1;
    var front, e := es[..n], es[n];
    LogKeepsIdsDistinct(es);
    LogKeepsIdsDistinct(front);
    if e.Start? {
      if k > 0 {
        LogTellsHistories(front, k - 1);
        assert Log(es)[0].id == e.id;
      }
    } else {
      LogTellsHistories(front, k);
      EditFirstElements(Log(front), e, k);
    }
  }

  // ---- entries field by field ----

  /** A started run: running, without results, its message cut at 300 characters. */
  lemma StartedRun(log: seq<Run>, e: Event)
    requires e.Start?
    ensures var r := Apply(log, e)[0];
            && r.id == e.id && r.userId == e.userId && r.audience == e.audience && r.provider == e.provider
            && r.status == Running && r.tools == [] && r.ragChunks == 0 && r.startedAt == Some(e.now)
            && r.replyPreview.None? && r.error.None? && r.ms.None?
            && r.message <= OrEmpty(e.message) && |r.message| <= 300
            && (|OrEmpty(e.message)| <= 300 ==> r.message == OrEmpty(e.message))
            && (|OrEmpty(e.message)| > 300 ==> |r.message| == 300)
  {
  }

  /** A note replaces tools and chunks, and nothing else. */
  lemma NotedRun(r: Run, e: Event)
    requires e.Note?
    ensures var t := Edited(r, e);
            && t.tools == e.tools && t.ragChunks == e.ragChunks
            && t.(tools := r.tools, ragChunks := r.ragChunks) == r
  {
  }

  /**
   A finished run: an error that is not empty makes it failed, else a block makes it blocked, else
   it succeeded; an empty provider keeps the old one; the duration is in whole milliseconds.
   */
  lemma FinishedRun(r: Run, e: Event)
    requires e.Finish?
    ensures var t := Edited(r, e);
            var failed := e.error.Some? && e.error.value != "";
            && (t.status == Failed <==> failed)
            && (t.status == Blocked <==> !failed && e.blocked)
            && (t.status == Succeeded <==> !failed && !e.blocked)
            && t.error == e.error
            && (e.newProvider in {None, Some("")} ==> t.provider == r.provider)
            && (e.newProvider !in {None, Some("")} ==> Some(t.provider) == e.newProvider)
            && t.replyPreview.Some? && t.replyPreview.value <= OrEmpty(e.reply)
            && |t.replyPreview.value| == (if |OrEmpty(e.reply)| <= 240 then |OrEmpty(e.reply)| else 240)
            && (r.startedAt.Some? && e.now >= r.startedAt.value ==>
                  var ms := (e.now - r.startedAt.value) * 1000.0;
                  t.ms.Some? && t.ms.value as real <= ms < t.ms.value as real + 1.0)
            && t.message == r.message && t.tools == r.tools && t.userId == r.userId && t.audience == r.audience
  {
    if r.startedAt.Some? && e.now >= r.startedAt.value {
      assert (e.now - r.startedAt.value) * 1000.0 >= 0.0;
    }
  }

  /** The buffer, entry by entry. */
  lemma BufferIsNewest(es: seq<Event>, i: nat)
    ensures |Buffer(es)| == if |Log(es)| <= 200 then |Log(es)| else 200
    ensures i < |Buffer(es)| ==> Buffer(es)[i] == Log(es)[i]
  {
    BufferRefinesLog(es);
    hide Log, Buffer;
  }

  // ---- reading ----

  /** The stop of Python's s[:limit] for a list of n. */
  function SliceStop(n: nat, limit: int): (k: nat)
    ensures k <= n && (limit >= 0 ==> k == if limit <= n then limit else n)
    ensures limit < 0 ==> n - k == -limit || (k == 0 && n < -limit)
  {
    if limit >= 0 then (if limit <= n then limit else n)
    else if n + limit >= 0 then n + limit else 0
  }

  function CountStatus(runs: seq<Run>, status: Status): (k: nat)
    ensures k <= |runs|
  {
    if runs == [] then 0
    else CountStatus(runs[..|runs| - 1], status) + if runs[|runs| - 1].status == status then 1 else 0
  }

  lemma {:induction false} CountsAreDisjoint(runs: seq<Run>)
    ensures CountStatus(runs, Succeeded) + CountStatus(runs, Failed) + CountStatus(runs, Blocked)
            + CountStatus(runs, Running) == |runs|
  {
    if runs != [] {
      CountsAreDisjoint(runs[..|runs| - 1]);
    }
  }

  /** ok + errors <= runs_buffered <= 200, in every reachable state. */
  lemma StatusNumbersFit(es: seq<Event>)
    ensures CountStatus(Buffer(es), Succeeded) + CountStatus(Buffer(es), Failed) <= |Buffer(es)| <= MAX_RUNS
  {
    CountsAreDisjoint(Buffer(es));
    BufferRefinesLog(es);
  }

  class Monitor {
    var runs: seq<Run>
    /** Every run ever started, newest first. */
    ghost var log: seq<Run>

    ghost predicate Valid()
      reads this
    {
      && runs == Prefix(log, MAX_RUNS)
      && forall r :: r in log ==> r.startedAt.Some?
    }

    constructor ()
      ensures Valid() && log == []
    {
      runs, log := [], [];
    }

    method StartRun(id: string, userId: int, audience: string, message: Option<string>, provider: string, now: real)
      requires Valid()
      modifies this
      ensures Valid() && log == Apply(old(log), Start(id, userId, audience, message, provider, now))
    {
      var text := OrEmpty(message);
      var r := Run(id, userId, audience, Prefix(text, MAX_MESSAGE), provider, Running,
                   [], 0, None, None, None, Some(now));
      runs := [r] + runs;
      if |runs| > MAX_RUNS {
        runs := runs[..|runs| - 1];
      }
      log := [r] + log;
    }

    method NoteTools(id: string, tools: seq<string>, ragChunks: int)
      requires Valid()
      modifies this
      ensures Valid() && log == Apply(old(log), Note(id, tools, ragChunks))
    {
      ghost var e := Note(id, tools, ragChunks);
      BoundedStep(log, e);
      EditKeepsStarts(log, e);
      hide EditFirst, Prefix;
      var i := 0;
      while i < |runs|
        invariant 0 <= i <= |runs| && runs == old(runs) && log == old(log)
        invariant forall j :: 0 <= j < i ==> runs[j].id != id
      {
        if runs[i].id == id {
          EditFirstAt(runs, e, i);
          runs := runs[i := runs[i].(tools := tools, ragChunks := ragChunks)];
          log := EditFirst(log, e);
          return;
        }
        i := i + 1;
      }
      EditFirstMisses(runs, e);
      log := EditFirst(log, e);
    }

    /** The assignments of finish_run to one run. */
    static method Close(run: Run, reply: Option<string>, error: Option<string>, provider: Option<string>,
                        blocked: bool, now: real) returns (r: Run)
      requires run.startedAt.Some?
      ensures r == Edited(run, Finish(run.id, reply, error, provider, blocked, now))
    {
      r := run.(status := if Given(error) then Failed else if blocked then Blocked else Succeeded);
      r := r.(replyPreview := Some(Prefix(OrEmpty(reply), MAX_REPLY)), error := error);
      if Given(provider) {
        r := r.(provider := provider.value);
      }
      r := r.(ms := Some(Truncate((now - r.startedAt.value) * 1000.0)));
    }

    method FinishRun(id: string, reply: Option<string>, error: Option<string>, provider: Option<string>,
                     blocked: bool, now: real)
      requires Valid()
      modifies this
      ensures Valid() && log == Apply(old(log), Finish(id, reply, error, provider, blocked, now))
    {
      ghost var e := Finish(id, reply, error, provider, blocked, now);
      BoundedStep(log, e);
      EditKeepsStarts(log, e);
      assert forall r :: r in runs ==> r.startedAt.Some?;
      hide EditFirst, Prefix, Edited;
      var i := 0;
      while i < |runs|
        invariant 0 <= i <= |runs| && runs == old(runs) && log == old(log)
        invariant forall j :: 0 <= j < i ==> runs[j].id != id
      {
        if runs[i].id == id {
          EditFirstAt(runs, e, i);
          var closed := Close(runs[i], reply, error, provider, blocked, now);
          runs := runs[i := closed];
          log := EditFirst(log, e);
          return;
        }
        i := i + 1;
      }
      EditFirstMisses(runs, e);
      log := EditFirst(log, e);
    }

    /** The newest runs of the full log, at most 200 and at most limit, with start times blanked. */
    method RecentRuns(limit: int) returns (rows: seq<Run>)
      requires Valid()
      ensures |rows| == SliceStop(|Prefix(log, MAX_RUNS)|, limit)
      ensures forall i :: 0 <= i < |rows| ==> rows[i] == log[i].(startedAt := None)
    {
      var newest := runs[..SliceStop(|runs|, limit)];
      rows := [];
      var i := 0;
      while i < |newest|
        invariant 0 <= i <= |newest| && |rows| == i
        invariant forall j :: 0 <= j < i ==> rows[j] == log[j].(startedAt := None)
      {
        rows := rows + [newest[i].(startedAt := None)];
        i := i + 1;
      }
    }

    method MonitorStatus() returns (buffered: nat, good: nat, errors: nat)
      requires Valid()
      ensures buffered == if |log| <= MAX_RUNS then |log| else MAX_RUNS
      ensures good == CountStatus(Prefix(log, MAX_RUNS), Succeeded)
      ensures errors == CountStatus(Prefix(log, MAX_RUNS), Failed)
      ensures good + errors <= buffered <= MAX_RUNS
    {
      buffered, good, errors := |runs|, 0, 0;
      var i := 0;
      while i < |runs|
        invariant 0 <= i <= |runs|
        invariant good == CountStatus(runs[..i], Succeeded) && errors == CountStatus(runs[..i], Failed)
      {
        assert runs[..i + 1][..i] == runs[..i];
        if runs[i].status == Succeeded {
          good := good + 1;
        }
        if runs[i].status == Failed {
          errors := errors + 1;
        }
        i := i + 1;
      }
      assert runs[..i] == runs;
      CountsAreDisjoint(runs);
    }
  }

  lemma EditKeepsStarts(log: seq<Run>, e: Event)
    requires !e.Start? && forall r :: r in log ==> r.startedAt.Some?
    ensures forall r :: r in EditFirst(log, e) ==> r.startedAt.Some?
  {
    forall i | 0 <= i < |log|
      ensures EditFirst(log, e)[i].startedAt.Some?
    {
      EditFirstKeeps(log, e, i);
    }
    hide EditFirst;
  }
}
