/** The in-memory cache of a dataset: it reads the rows written to the
    database since the last load and appends them to what it holds, and it
    stops reading once it has loaded from a dataset marked completed. The
    database queries are not modelled: the `completed` answer and the
    appending function of each load, which may raise, are arguments. */
module DataSetCache {
  import opened Base

  /** What the append query reads and returns: rows written and rows read
      per parameter tree, and the data per parameter tree (`D` stands for
      one tree's arrays). */
  datatype Tables<D> = Tables(
    writeStatus: map<string, Option<int>>,
    readStatus: map<string, int>,
    data: Option<map<string, D>>)

  /** The cache, with the dataset's completed flag that loading refreshes. */
  datatype Cache<D> = Cache(
    datasetCompleted: bool,
    tables: Tables<D>,
    loadedFromCompleted: bool)

  /** The database work one load does. */
  datatype DbCall = CompletedQuery | AppendQuery

  /** `__init__`: empty data and statuses, not yet loaded from a completed
      dataset; the dataset's own flag is whatever it was. */
  function NewCache<D>(datasetCompleted: bool): (c: Cache<D>)
    ensures c.tables.data == Some(map[]) && c.tables.readStatus == map[] && c.tables.writeStatus == map[]
    ensures !c.loadedFromCompleted
    ensures c.datasetCompleted == datasetCompleted
    ensures Consistent(c)
  {
    Cache(datasetCompleted, Tables(map[], map[], Some(map[])), false)
  }

  /** The result of one load: the new cache, the database calls made, and
      the exception the load raised, if any. */
  datatype Loaded<D> = Loaded(cache: Cache<D>, calls: seq<DbCall>, error: Option<Error>)

  /** The append query: the new statuses and data, or the exception it
      raised. */
  type Append<!D> = Tables<D> -> Result<Tables<D>>

  /** `load_data_from_db`. Once loaded from a completed dataset it does
      nothing. Otherwise it refreshes the dataset's completed flag from the
      database and remembers a completion, both before the append query
      runs; then it replaces the statuses and data with what the append
      query returns. When the append raises, the flags are already set and
      the statuses and data stay as they were. */
  function Load<D>(c: Cache<D>, completedNow: bool, append: Append<D>): (r: Loaded<D>)
    ensures c.loadedFromCompleted ==> r == Loaded(c, [], None)
    ensures !c.loadedFromCompleted ==> r.calls == [CompletedQuery, AppendQuery]
    ensures !c.loadedFromCompleted ==> r.cache.datasetCompleted == completedNow
    ensures !c.loadedFromCompleted ==> (r.cache.loadedFromCompleted <==> completedNow)
    ensures !c.loadedFromCompleted ==> (r.error.None? <==> append(c.tables).Ok?)
    ensures !c.loadedFromCompleted && append(c.tables).Ok? ==> r.cache.tables == append(c.tables).value
    ensures !c.loadedFromCompleted && append(c.tables).Err? ==>
      r.cache.tables == c.tables && r.error == Some(append(c.tables).error)
  {
    if c.loadedFromCompleted then Loaded(c, [], None)
    else
      var flagged := Cache(completedNow, c.tables, completedNow);
      match append(c.tables)
      case Ok(t) => Loaded(flagged.(tables := t), [CompletedQuery, AppendQuery], None)
      case Err(e) => Loaded(flagged, [CompletedQuery, AppendQuery], Some(e))
  }

  /** The cache never claims a completed load unless the dataset was seen
      completed. */
  predicate Consistent<D>(c: Cache<D>) {
    c.loadedFromCompleted ==> c.datasetCompleted
  }

  lemma LoadKeepsConsistent<D>(c: Cache<D>, completedNow: bool, append: Append<D>)
    requires Consistent(c)
    ensures Consistent(Load(c, completedNow, append).cache)
    ensures c.loadedFromCompleted ==> Load(c, completedNow, append).cache.loadedFromCompleted
  {}

  /** The load that first sees completion still appends: the rows written
      before completion are read. */
  lemma CompletingLoadStillAppends<D>(c: Cache<D>, append: Append<D>)
    requires !c.loadedFromCompleted
    ensures var r := Load(c, true, append);
      r.cache.loadedFromCompleted && AppendQuery in r.calls &&
      (append(c.tables).Ok? ==> r.cache.tables == append(c.tables).value)
  {}

  /** One database answer per load: whether the dataset is completed, and
      what appending returns. */
  datatype Answer<!D> = Answer(completed: bool, append: Append<D>)

  /** A run of loads against successive database answers, each a separate
      call: the calls are concatenated, and the first exception raised is
      kept. */
  function Loads<D>(c: Cache<D>, answers: seq<Answer<D>>): Loaded<D>
    decreases |answers|
  {
    if |answers| == 0 then Loaded(c, [], None)
    else
      var first := Load(c, answers[0].completed, answers[0].append);
      var rest := Loads(first.cache, answers[1..]);
      Loaded(rest.cache, first.calls + rest.calls, if first.error.Some? then first.error else rest.error)
  }

  /** Position of the first answer reporting completion, or the number of
      answers when none does. */
  function FirstCompleted<D>(answers: seq<Answer<D>>): (k: nat)
    ensures k <= |answers|
    ensures forall j :: 0 <= j < k ==> !answers[j].completed
    ensures k < |answers| ==> answers[k].completed
  {
    if |answers| == 0 then 0
    else if answers[0].completed then 0
    else 1 + FirstCompleted(answers[1..])
  }

  /** After a run of loads, the cache has loaded from a completed dataset
      exactly when it had before or some answer reported completion. */
  lemma {:induction false} LoadsFlag<D>(c: Cache<D>, answers: seq<Answer<D>>)
    ensures Loads(c, answers).cache.loadedFromCompleted <==>
      c.loadedFromCompleted || exists j :: 0 <= j < |answers| && answers[j].completed
    decreases |answers|
  {
    if |answers| > 0 {
      var first := Load(c, answers[0].completed, answers[0].append);
      LoadsFlag(first.cache, answers[1..]);
      if exists j :: 0 <= j < |answers[1..]| && answers[1..][j].completed {
        var j :| 0 <= j < |answers[1..]| && answers[1..][j].completed;
        assert answers[j + 1].completed;
      }
      if exists j :: 0 <= j < |answers| && answers[j].completed {
        var j :| 0 <= j < |answers| && answers[j].completed;
        if j > 0 {
          assert answers[1..][j - 1].completed;
        }
      }
    }
  }

  /** Once loaded from a completed dataset, any run of loads changes nothing
      and touches no database. */
  lemma {:induction false} LoadsIdleOnceLoaded<D>(c: Cache<D>, answers: seq<Answer<D>>)
    requires c.loadedFromCompleted
    ensures Loads(c, answers) == Loaded(c, [], None)
    decreases |answers|
  {
    if |answers| > 0 {
      LoadsIdleOnceLoaded(c, answers[1..]);
    }
  }

  /** Starting from a cache not yet loaded from a completed dataset, a run of
      loads appends once per answer up to and including the first one that
      reports completion, and never again. */
  lemma {:induction false} LoadsAppendCount<D>(c: Cache<D>, answers: seq<Answer<D>>)
    requires !c.loadedFromCompleted
    ensures var k := FirstCompleted(answers);
      var n := if k < |answers| then k + 1 else |answers|;
      Loads(c, answers).calls == Repeat([CompletedQuery, AppendQuery], n)
    decreases |answers|
  {
    if |answers| > 0 {
      var first := Load(c, answers[0].completed, answers[0].append);
      if answers[0].completed {
        LoadsIdleOnceLoaded(first.cache, answers[1..]);
        assert Repeat([CompletedQuery, AppendQuery], 1) == [CompletedQuery, AppendQuery] + Repeat([CompletedQuery, AppendQuery], 0);
      } else {
        LoadsAppendCount(first.cache, answers[1..]);
      }
    }
  }

  /** `n` copies of `s`, one after the other. */
  function Repeat<T>(s: seq<T>, n: nat): (r: seq<T>)
    ensures |r| == n * |s|
  {
    if n == 0 then [] else s + Repeat(s, n - 1)
  }

  /** An append that raises on the load which first sees completion leaves
      the cache flagged with the data it held before: every later load does
      nothing, so `data()` keeps returning that stale data. */
  lemma FailedCompletingLoadIsFinal<D>(c: Cache<D>, append: Append<D>, answers: seq<Answer<D>>,
                                       completedLater: bool, appendLater: Append<D>)
    requires !c.loadedFromCompleted && append(c.tables).Err?
    ensures var r := Load(c, true, append);
      && r.error == Some(append(c.tables).error)
      && r.cache.loadedFromCompleted && r.cache.tables == c.tables
      && Loads(r.cache, answers) == Loaded(r.cache, [], None)
      && Data(r.cache, completedLater, appendLater) == (Loaded(r.cache, [], None), Ok(c.tables.data))
  {
    LoadsIdleOnceLoaded(Load(c, true, append).cache, answers);
  }

  /** `data()`: always load, then return the cached data; an exception of
      the load propagates. */
  function Data<D>(c: Cache<D>, completedNow: bool, append: Append<D>): (r: (Loaded<D>, Result<Option<map<string, D>>>))
    ensures r.0 == Load(c, completedNow, append)
    ensures r.0.error.None? ==> r.1 == Ok(r.0.cache.tables.data)
    ensures r.0.error.Some? ==> r.1 == Err(r.0.error.value)
    ensures c.loadedFromCompleted ==> r.1 == Ok(c.tables.data)
  {
    var l := Load(c, completedNow, append);
    match l.error
    case Some(e) => (l, Err(e))
    case None => (l, Ok(l.cache.tables.data))
  }

  /** `to_pandas`: load, then None when the data is None; otherwise the
      data converted to one frame per parameter tree. The conversion is the
      `toFrames` argument. An exception of the load propagates. */
  function ToPandas<D, F>(c: Cache<D>, completedNow: bool, append: Append<D>,
                          toFrames: map<string, D> -> F): (r: (Loaded<D>, Result<Option<F>>))
    ensures r.0 == Load(c, completedNow, append)
    ensures r.1.Err? <==> r.0.error.Some?
    ensures r.1.Err? ==> r.1.error == r.0.error.value
    ensures r.1.Ok? ==> (r.1.value.None? <==> r.0.cache.tables.data.None?)
    ensures r.1.Ok? && r.1.value.Some? ==> r.1.value.value == toFrames(r.0.cache.tables.data.value)
  {
    var l := Load(c, completedNow, append);
    match l.error
    case Some(e) => (l, Err(e))
    case None =>
      match l.cache.tables.data
      case None => (l, Ok(None))
      case Some(d) => (l, Ok(Some(toFrames(d))))
  }

  /** `data()` and `to_pandas` see the same load, raise together, and agree
      on the data. */
  lemma ToPandasAgreesWithData<D, F>(c: Cache<D>, completedNow: bool, append: Append<D>,
                                     toFrames: map<string, D> -> F)
    ensures var d := Data(c, completedNow, append).1;
      var p := ToPandas(c, completedNow, append, toFrames).1;
      && (d.Err? <==> p.Err?)
      && (d.Err? ==> d.error == p.error)
      && (d.Ok? ==> (d.value.None? <==> p.value.None?))
      && (d.Ok? && d.value.Some? ==> p.value.value == toFrames(d.value.value))
  {}
}
