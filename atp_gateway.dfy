/**
 * The ATP gateway's own logic: the timer-driven round-robin of account and
 * position queries, and the error log line.
 *
 * The queries themselves, the market-data refresh after each firing tick and
 * the log sink are calls into code outside this model; each is recorded in
 * a ghost field instead of being carried out.
 */
module AtpGateway {
  import opened Wrappers
  import opened Rotation
  import opened ErrorLog

  /** The zero-argument queries the gateway polls. */
  datatype QueryOp = QueryAccount | QueryPosition

  /** The rotation `init_query` installs, head first. */
  const InitialQueries: seq<QueryOp> := [QueryAccount, QueryPosition]

  class Gateway {
    /** Timer ticks since the last query run. */
    var count: int
    /** The rotating list of queries; the head runs next. */
    var queryFunctions: seq<QueryOp>

    /** Whether `init_query` has registered the timer handler. */
    ghost var registered: bool
    /** Timer ticks handled since the last `init_query`. */
    ghost var ticks: nat
    /** The queries run since the last `init_query`, in order. */
    ghost var invoked: seq<QueryOp>
    /** Market-data date refreshes requested over the gateway's lifetime. */
    ghost var dateUpdates: nat
    /** Lines written to the log sink over the gateway's lifetime. */
    ghost var log: seq<string>

    /**
     * The scheduler invariant: between ticks the counter is 0 or 1, a query
     * runs on every second tick, the k-th run is initial[(k-1) mod L], and
     * the list is the initial list rotated once per run.
     */
    ghost predicate Valid()
      reads this
    {
      registered &&
      0 <= count < 2 &&
      ticks == 2 * |invoked| + count &&
      invoked == Invocations(InitialQueries, |invoked|) &&
      queryFunctions == RotateN(InitialQueries, |invoked|)
    }

    /**
     * What the invariant means for a caller: `count` is the number of ticks
     * mod 2, one query has run per two ticks (so queries run on ticks 2, 4,
     * 6, ...), and the i-th run (from 0) is the initial list's entry i mod 2.
     */
    lemma ScheduleShape()
      requires Valid()
      ensures count == ticks % 2 && |invoked| == ticks / 2
      ensures forall i :: 0 <= i < |invoked| ==> invoked[i] == InitialQueries[i % 2]
    {
      forall i | 0 <= i < |invoked|
        ensures invoked[i] == InitialQueries[i % 2]
      {
        InvocationsAt(InitialQueries, |invoked|, i);
      }
    }

    /** A new gateway: no handler registered, nothing logged. */
    constructor ()
      ensures !registered && log == [] && dateUpdates == 0
    {
      count := 0;
      queryFunctions := [];
      registered := false;
      ticks := 0;
      invoked := [];
      dateUpdates := 0;
      log := [];
    }

    /** Resets the counter, installs account then position, and registers the timer handler. */
    method InitQuery()
      modifies this`count, this`queryFunctions, this`registered, this`ticks, this`invoked
      ensures Valid()
      ensures count == 0 && queryFunctions == [QueryAccount, QueryPosition]
      ensures ticks == 0 && invoked == []
    {
      count := 0;
      queryFunctions := [QueryAccount, QueryPosition];
      registered := true;
      ticks := 0;
      invoked := [];
    }

    /**
     * One timer tick. The counter goes up; below the interval nothing else
     * happens. On the interval the counter is reset, the head query is
     * popped, run, and appended to the tail, and a market-data date refresh
     * is requested. Returns the query run, if any.
     */
    method ProcessTimerEvent() returns (fired: Option<QueryOp>)
      requires Valid()
      modifies this`count, this`queryFunctions, this`ticks, this`invoked, this`dateUpdates
      ensures Valid()
      ensures ticks == old(ticks) + 1
      ensures old(count) + 1 < 2 ==>
        fired == None && count == old(count) + 1 &&
        queryFunctions == old(queryFunctions) && invoked == old(invoked) &&
        dateUpdates == old(dateUpdates)
      ensures old(count) + 1 >= 2 ==>
        count == 0 &&
        fired == Some(old(queryFunctions)[0]) &&
        queryFunctions == old(queryFunctions)[1..] + [old(queryFunctions)[0]] &&
        invoked == old(invoked) + [old(queryFunctions)[0]] &&
        dateUpdates == old(dateUpdates) + 1
      ensures |queryFunctions| == |old(queryFunctions)|
      ensures multiset(queryFunctions) == multiset(old(queryFunctions))
      ensures fired.Some? <==> count == 0
    {
      count := count + 1;
      ticks := ticks + 1;
      if count < 2 {
        return None;
      }
      count := 0;

      FiringStep(InitialQueries, |invoked|);
      var func := queryFunctions[0];
      queryFunctions := queryFunctions[1..];
      invoked := invoked + [func];
      queryFunctions := queryFunctions + [func];

      dateUpdates := dateUpdates + 1;
      fired := Some(func);
    }

    /** Logs `write_error`'s line, or raises `KeyError` (logging nothing) when a key is missing. */
    method WriteError(msg: string, error: map<string, string>) returns (outcome: Lookup<string>)
      modifies this`log
      ensures outcome == FormatError(msg, error)
      ensures outcome.Found? ==> log == old(log) + [outcome.value]
      ensures outcome.KeyError? ==> log == old(log)
      ensures old(Valid()) ==> Valid()
    {
      outcome := FormatError(msg, error);
      if outcome.Found? {
        log := log + [outcome.value];
      }
    }
  }

  /** Six timer ticks after `init_query`: queries run on ticks 2, 4 and 6, alternating from the account query. */
  method SixTicksAfterInit() returns (fired: seq<Option<QueryOp>>)
    ensures fired == [None, Some(QueryAccount), None, Some(QueryPosition), None, Some(QueryAccount)]
  {
    var g := new Gateway();
    g.InitQuery();
    var f1 := g.ProcessTimerEvent();
    var f2 := g.ProcessTimerEvent();
    var f3 := g.ProcessTimerEvent();
    var f4 := g.ProcessTimerEvent();
    var f5 := g.ProcessTimerEvent();
    var f6 := g.ProcessTimerEvent();
    fired := [f1, f2, f3, f4, f5, f6];
  }
}
