/** host/convsummary.go: the manager's own maps, keyed by conversation, proved to
    move each conversation as Summary.Step does. */
module SummaryManager {
  import opened GoText
  import opened History
  import Summary

  /** The record of a turn, the history it is given, and where the turn is: in a call
      of the summarizer, or about to hand a job to the background. saved: what its
      last save wrote. */
  class Conversation {
    var rolling: Option<Summary.Sum>
    var history: seq<ConvTurn>
    var call: Option<Summary.Job>
    var todo: Option<Summary.Job>
    var saved: Option<Summary.Sum>

    constructor ()
      ensures rolling == None && history == [] && call == None && todo == None && saved == None
    {
      rolling, history, call, todo, saved := None, [], None, None, None;
    }
  }

  class Manager {
    var summaries: map<string, Summary.Sum>
    var summaryInflight: set<string>
    var tasks: map<string, Summary.Task> // the background goroutines

    ghost predicate Valid()
      reads this
    {
      tasks.Keys == summaryInflight
    }

    ghost function Cached(key: string): Option<Summary.Sum>
      reads this
    {
      if key in summaries then Some(summaries[key]) else None
    }

    /** Conversation c, kept under key, as the model sees it. */
    ghost function View(key: string, c: Conversation): Summary.State
      reads this, c
    {
      Summary.State(c.history, c.rolling, c.saved, Cached(key),
                    if key in tasks then [tasks[key]] else [], key in summaryInflight, c.call, c.todo)
    }

    /** No other conversation is touched. */
    twostate predicate OnlyAt(key: string)
      reads this
    {
      forall k | k != key ::
        && (k in summaries <==> k in old(summaries)) && (k in summaries ==> summaries[k] == old(summaries)[k])
        && (k in tasks <==> k in old(tasks)) && (k in tasks ==> tasks[k] == old(tasks)[k])
    }

    method BestSummary(key: string, c: Conversation) returns (best: Option<Summary.Sum>)
      ensures best == Summary.BestSummary(c.rolling, Cached(key))
    {
      best := c.rolling;
      if key in summaries {
        var st := summaries[key];
        if best.None? || st.upTo > best.value.upTo {
          best := Some(st);
        }
      }
    }

    method AdoptCachedSummary(key: string, c: Conversation)
      requires Summary.Free(View(key, c))
      modifies c`rolling
      ensures View(key, c) == Summary.Step(old(View(key, c)), Summary.AdoptCached)
    {
      var best := BestSummary(key, c);
      if best.Some? && (c.rolling.None? || best.value.upTo > c.rolling.value.upTo) {
        c.rolling := best;
      }
    }

    method StoreSummary(key: string, s: Summary.Sum)
      modifies this`summaries
      ensures Cached(key) == Summary.Store(old(Cached(key)), s) && OnlyAt(key)
    {
      if key in summaries && s.upTo <= summaries[key].upTo {
        return; // a newer one already landed
      }
      summaries := summaries[key := s];
    }

    /** The plan for a fresh session, worked out with the loops of the source. */
    method PlanFresh(h: seq<ConvTurn>, best: Option<Summary.Sum>) returns (p: Summary.Plan)
      ensures p == Summary.FreshPlan(h, best)
    {
      if |h| <= Summary.TAIL_TURNS {
        return Summary.Skip;
      }
      var pending := Summary.TurnsToSummarizeLoop(h, best, Summary.TAIL_TURNS);
      var reusable := Summary.SummaryGapReusable(pending);
      p := if |pending| > 0 && best.Some? && reusable then Summary.Reuse(best.value, pending)
           else if |pending| > 0 then Summary.Call(Summary.Job(best, pending))
           else if best.Some? then Summary.Current(best.value)
           else Summary.Skip;
    }

    /** summaryForFreshSession up to the summarizer or the start of a job. */
    method BeginFresh(key: string, c: Conversation) returns (p: Summary.Plan)
      requires Summary.Free(View(key, c))
      modifies c`rolling, c`call, c`todo
      ensures p == Summary.PlanOf(old(View(key, c)))
      ensures View(key, c) == Summary.Step(old(View(key, c)), Summary.Fresh)
    {
      var best := BestSummary(key, c);
      p := PlanFresh(c.history, best);
      match p
      case Skip =>
      case Reuse(b, pending) =>
        c.rolling := best;
        c.todo := Some(Summary.Job(best, pending));
      case Call(job) => c.call := Some(job);
      case Current(now) => c.rolling := best;
    }

    /** The summarizer returned; ok: with a summary. */
    method CallReturned(key: string, c: Conversation, ok: bool)
      requires c.call.Some? && c.call.value.turns != []
      modifies this`summaries, c`rolling, c`call
      ensures View(key, c) == Summary.Step(old(View(key, c)), Summary.FreshDone(ok)) && OnlyAt(key)
    {
      var job := c.call.value;
      c.call := None;
      if ok {
        var now := Summary.Folded(job);
        StoreSummary(key, now);
        c.rolling := Some(now);
      }
    }

    /** maybePrewarmSummary past its threshold, up to the start of the job. */
    method MaybePrewarm(key: string, c: Conversation)
      requires Summary.Free(View(key, c))
      modifies c`todo
      ensures View(key, c) == Summary.Step(old(View(key, c)), Summary.Prewarm)
    {
      var best := BestSummary(key, c);
      var pending := Summary.TurnsToSummarizeLoop(c.history, best, Summary.TAIL_TURNS);
      if |pending| < Summary.PREWARM_MIN_TURNS {
        return;
      }
      c.todo := Some(Summary.Job(best, pending));
    }

    /** At most one job per conversation: a call while one runs does nothing. */
    method RefreshSummaryAsync(key: string, c: Conversation)
      requires Valid() && c.todo.Some?
      modifies this`summaryInflight, this`tasks, c`todo
      ensures Valid() && OnlyAt(key)
      ensures View(key, c) == Summary.Step(old(View(key, c)), Summary.Start)
    {
      var j := c.todo.value;
      c.todo := None;
      if |j.turns| == 0 || key in summaryInflight {
        return;
      }
      summaryInflight := summaryInflight + {key};
      tasks := tasks[key := Summary.Task(j, false)];
    }

    /** The background job of key has its answer, if any. */
    method TaskStore(key: string, ghost c: Conversation, ok: bool)
      requires Valid() && key in tasks && !tasks[key].stored && tasks[key].job.turns != []
      modifies this`summaries, this`tasks
      ensures Valid() && OnlyAt(key)
      ensures View(key, c) == Summary.Step(old(View(key, c)), Summary.TaskStored(0, ok))
    {
      if ok {
        StoreSummary(key, Summary.Folded(tasks[key].job));
      }
      tasks := tasks[key := tasks[key].(stored := true)];
    }

    /** Its deferred delete. */
    method TaskRelease(key: string, ghost c: Conversation)
      requires Valid() && key in tasks && tasks[key].stored
      modifies this`summaryInflight, this`tasks
      ensures Valid() && OnlyAt(key)
      ensures View(key, c) == Summary.Step(old(View(key, c)), Summary.TaskReleased(0))
    {
      summaryInflight := summaryInflight - {key};
      tasks := tasks - {key};
    }

    /** The rest of it after the synchronous call. */
    method AfterCall(key: string, c: Conversation, answers: bool, fallback: seq<ConvTurn>) returns (x: Summary.Prompt)
      requires Valid() && c.call.Some? && c.call.value.turns != []
      modifies this`summaries, c`rolling, c`call
      ensures Valid() && OnlyAt(key)
      ensures var now := Summary.Folded(old(c.call).value);
        x == if answers then Summary.Prompt(Some(now), Summary.LastTurns(c.history)) else Summary.Prompt(None, fallback)
      ensures answers ==> c.rolling == x.summary
      ensures !answers ==> c.rolling == old(c.rolling) && summaries == old(summaries)
    {
      CallReturned(key, c, answers);
      if !answers {
        return Summary.Prompt(None, fallback);
      }
      var tail := TailTurns(c.history, Summary.TAIL_TURNS, MAX_HISTORY_CHARS_ON_RECOVERY);
      return Summary.Prompt(c.rolling, tail);
    }

    /** !compact: the stream's turns are dropped and the record saved. */
    method Compact(key: string, c: Conversation)
      requires Summary.Free(View(key, c))
      modifies c`history, c`saved
      ensures View(key, c) == Summary.Step(old(View(key, c)), Summary.Compact)
    {
      c.history := [];
      c.saved := c.rolling;
    }

    /** Conversation c is deleted and a new one made under its id; the cache and a job
        at work stay where they are. */
    method Remake(key: string, ghost c: Conversation) returns (n: Conversation)
      requires Summary.Free(View(key, c))
      ensures fresh(n) && View(key, n) == Summary.Step(View(key, c), Summary.Remade)
    {
      n := new Conversation();
    }

    /** The context of a turn on a fresh session, nothing coming in between; answers:
        what the summarizer would say if it is asked. */
    method FreshContext(key: string, c: Conversation, answers: bool) returns (x: Summary.Prompt)
      requires Valid() && Summary.Free(View(key, c))
      modifies this, c
      ensures Valid() && OnlyAt(key) && c.history == old(c.history)
      ensures x == Summary.Prompted(c.history, Summary.BestSummary(old(c.rolling), old(Cached(key))), answers)
      ensures x.summary.Some? ==> c.rolling == x.summary
      ensures x.summary.None? ==> c.rolling == old(c.rolling) && summaries == old(summaries)
    {
      var fallback := HistoryForContext(c.history, false);
      var p := BeginFresh(key, c);
      match p
      case Skip => return Summary.Prompt(None, fallback);
      case Reuse(b, pending) =>
        RefreshSummaryAsync(key, c);
        return Summary.Prompt(Some(b), c.history[|c.history| - Summary.TAIL_TURNS - |pending|..]);
      case Call(job) =>
        x := AfterCall(key, c, answers, fallback);
      case Current(now) =>
        var tail := TailTurns(c.history, Summary.TAIL_TURNS, MAX_HISTORY_CHARS_ON_RECOVERY);
        return Summary.Prompt(c.rolling, tail);
    }
  }
}
