/**
 * The import orchestration of import.go (`Import`, `importItems`) and of its
 * copy cmd/gtfs/commands/import.go (`importAll`, `importSingle`): the eight
 * GTFS source files are imported one after the other, each through the batch
 * inserter of its kind, and one result per source goes to an optional
 * progress channel, which is closed at the end.
 *
 * A source file is given as what the CSV decoder makes of it: the rows it
 * decoded, then possibly the error that stopped it. A file name missing from
 * the directory is a file that cannot be opened.
 */
module ImportOrchestrator {
  import opened Wrappers
  import opened Entities
  import opened BatchInsert

  /** One decoded CSV row, of whichever kind its file holds. */
  datatype Record =
    | AgencyRow(agency: Agency)
    | RouteRow(route: Route)
    | TripRow(trip: Trip)
    | StopRow(stop: Stop)
    | StopTimeRow(stopTime: StopTime)
    | ShapeRow(shape: Shape)
    | CalendarRow(calendar: Calendar)
    | CalendarDateRow(calendarDate: CalendarDate)

  /** What the CSV decoder produced from one file: its rows in order, then its error if it stopped on one. */
  datatype Decoded = Decoded(rows: seq<Record>, error: Option<string>)

  datatype Source = Source(path: string, kind: ItemType)

  /** The sources in the order they are imported, each with its kind. */
  const Sources: seq<Source> := [
    Source("agency.txt", Agencies),
    Source("routes.txt", Routes),
    Source("trips.txt", Trips),
    Source("stops.txt", Stops),
    Source("stop_times.txt", StopTimes),
    Source("shapes.txt", Shapes),
    Source("calendar.txt", Calendars),
    Source("calendar_dates.txt", CalendarDates)
  ]

  /** The effect of importing one source: batches stored, writes issued, result reported. */
  datatype ItemsRun = ItemsRun(written: seq<seq<Record>>, attempts: nat, result: ImportItemsResult)

  /**
   * `importItems`: a file that cannot be opened and a kind without an
   * inserter give an error result with the zero `ItemType` and write nothing.
   * Otherwise the inserter of the kind consumes every decoded row; if the
   * decoder stopped on an error, that error replaces the inserter's result,
   * again with the zero `ItemType`.
   */
  function ImportItemsOutcome(files: map<string, Decoded>, path: string, kind: ItemType,
                              start: nat, rejects: set<nat>): ItemsRun
  {
    if path !in files then ItemsRun([], 0, ImportItemsResult(Agencies, 0, 0, Some(OpenFailed(path))))
    else if !IsKnownKind(kind) then ItemsRun([], 0, ImportItemsResult(Agencies, 0, 0, Some(UnknownItemType(kind))))
    else
      var decoded := files[path];
      var run := BatchOutcome(decoded.rows, kind, start, rejects);
      if decoded.error.Some? then
        ItemsRun(run.written, run.attempts, ImportItemsResult(Agencies, 0, 0, Some(DecodeFailed(decoded.error.value))))
      else
        ItemsRun(run.written, run.attempts, run.result)
  }

  /** `importItems` on the store. */
  method ImportItems(db: Db<Record>, files: map<string, Decoded>, path: string, kind: ItemType)
    returns (r: ImportItemsResult, ghost step: ItemsRun)
    modifies db
    ensures step == ImportItemsOutcome(files, path, kind, old(db.attempts), db.rejects)
    ensures db.written == old(db.written) + step.written
    ensures db.attempts == old(db.attempts) + step.attempts
    ensures r == step.result
  {
    step := ImportItemsOutcome(files, path, kind, db.attempts, db.rejects);
    if path !in files {
      r := ImportItemsResult(Agencies, 0, 0, Some(OpenFailed(path)));
      return;
    }
    if !IsKnownKind(kind) {
      r := ImportItemsResult(Agencies, 0, 0, Some(UnknownItemType(kind)));
      return;
    }
    var decoded := files[path];
    r := BatchImport(db, decoded.rows, kind);
    if decoded.error.Some? {
      r := ImportItemsResult(Agencies, 0, 0, Some(DecodeFailed(decoded.error.value)));
    }
  }

  /** What importing one source does, given the number of the next write. */
  type SourceOutcome = (Source, nat) -> ItemsRun

  /** `importItems` against this directory of files and this store, as a function of the source. */
  function Outcomes(files: map<string, Decoded>, rejects: set<nat>): SourceOutcome {
    (src: Source, next: nat) => ImportItemsOutcome(files, src.path, src.kind, next, rejects)
  }

  /** The effect of importing a list of sources in order. */
  datatype Run = Run(written: seq<seq<Record>>, attempts: nat, results: seq<ImportItemsResult>)

  /**
   * Importing `srcs` one after the other, each by `outcome`, against a store
   * whose next write is number `start`: each source starts where the
   * previous one left the store, whatever that one reported.
   */
  function RunSources(outcome: SourceOutcome, srcs: seq<Source>, start: nat): (run: Run)
    ensures |run.results| == |srcs|
    decreases |srcs|
  {
    if srcs == [] then Run([], 0, [])
    else
      var before := RunSources(outcome, srcs[..|srcs| - 1], start);
      var step := outcome(srcs[|srcs| - 1], start + before.attempts);
      Run(before.written + step.written, before.attempts + step.attempts, before.results + [step.result])
  }

  /** `Import`'s loop over the sources, each imported by `importItems`. */
  function ImportRun(files: map<string, Decoded>, srcs: seq<Source>, start: nat, rejects: set<nat>): Run {
    RunSources(Outcomes(files, rejects), srcs, start)
  }

  /** The progress channel: what has been sent on it, and whether it is closed. */
  class Channel {
    var sent: seq<ImportItemsResult>
    var closed: bool

    constructor ()
      ensures sent == [] && !closed
    {
      sent := [];
      closed := false;
    }

    /** `progress <- r`; sending on a closed channel panics in Go, so it is not allowed. */
    method Send(r: ImportItemsResult)
      requires !closed
      modifies this
      ensures sent == old(sent) + [r] && !closed
    {
      sent := sent + [r];
    }

    /** `close(progress)`. */
    method Close()
      requires !closed
      modifies this
      ensures closed && sent == old(sent)
    {
      closed := true;
    }
  }

  /**
   * `Import`: every source is imported in the fixed order, whatever earlier
   * sources reported; when a channel is given, it receives the eight results
   * in that order and is then closed.
   */
  method Import(db: Db<Record>, files: map<string, Decoded>, progress: Channel?)
    requires progress != null ==> !progress.closed
    modifies db, progress
    ensures var run := ImportRun(files, Sources, old(db.attempts), db.rejects);
      && db.written == old(db.written) + run.written
      && db.attempts == old(db.attempts) + run.attempts
      && (progress != null ==> progress.sent == old(progress.sent) + run.results && progress.closed)
  {
    ghost var start := db.attempts;
    ghost var base := db.written;
    ghost var sent0 := if progress != null then progress.sent else [];
    ghost var rejects := db.rejects;
    ghost var run := Run([], 0, []);
    var i := 0;
    while i < |Sources|
      invariant 0 <= i <= |Sources|
      invariant db.rejects == rejects
      invariant run == RunSources(Outcomes(files, rejects), Sources[..i], start)
      invariant db.written == base + run.written
      invariant db.attempts == start + run.attempts
      invariant progress != null ==> progress.sent == sent0 + run.results && !progress.closed
    {
      var r;
      ghost var step;
      r, step := ImportSource(db, files, Sources, i, start, run);
      AppendAssoc(base, run.written, step.written);
      if progress != null {
        progress.Send(r);
        AppendAssoc(sent0, run.results, [r]);
      }
      run := Run(run.written + step.written, run.attempts + step.attempts, run.results + [r]);
      i := i + 1;
    }
    if progress != null {
      progress.Close();
    }
    assert Sources[..|Sources|] == Sources;
  }

  /** Source i of `srcs` imported after the ones before it. */
  method ImportSource(db: Db<Record>, files: map<string, Decoded>, srcs: seq<Source>, i: nat,
                      ghost start: nat, ghost run: Run)
    returns (r: ImportItemsResult, ghost step: ItemsRun)
    requires i < |srcs|
    requires run == RunSources(Outcomes(files, db.rejects), srcs[..i], start)
    requires db.attempts == start + run.attempts
    modifies db
    ensures RunSources(Outcomes(files, db.rejects), srcs[..i + 1], start)
      == Run(run.written + step.written, run.attempts + step.attempts, run.results + [r])
    ensures db.written == old(db.written) + step.written
    ensures db.attempts == old(db.attempts) + step.attempts
  {
    r, step := ImportItems(db, files, srcs[i].path, srcs[i].kind);
    RunSourcesStep(Outcomes(files, db.rejects), srcs, i, start, run, step);
  }

  /** Appending is associative; stated once so that the loop above need not rediscover it. */
  lemma AppendAssoc<T>(a: seq<T>, b: seq<T>, c: seq<T>)
    ensures (a + b) + c == a + (b + c)
  {
  }

  /** Importing one more source extends the run by that source's outcome. */
  lemma RunSourcesStep(outcome: SourceOutcome, srcs: seq<Source>, i: nat, start: nat, before: Run, step: ItemsRun)
    requires i < |srcs|
    requires before == RunSources(outcome, srcs[..i], start)
    requires step == outcome(srcs[i], start + before.attempts)
    ensures RunSources(outcome, srcs[..i + 1], start)
      == Run(before.written + step.written, before.attempts + step.attempts, before.results + [step.result])
  {
    var s := srcs[..i + 1];
    assert s[..|s| - 1] == srcs[..i] && s[|s| - 1] == srcs[i];
  }

  /** Importing a longer list of sources does not change the results of its first sources. */
  lemma {:induction false} RunSourcesPrefix(outcome: SourceOutcome, srcs: seq<Source>, k: nat, start: nat)
    requires k <= |srcs|
    ensures RunSources(outcome, srcs, start).results[..k] == RunSources(outcome, srcs[..k], start).results
    decreases |srcs| - k
  {
    if k < |srcs| {
      var n := |srcs|;
      RunSourcesPrefix(outcome, srcs[..n - 1], k, start);
      assert srcs[..n - 1][..k] == srcs[..k];
      var all := RunSources(outcome, srcs, start).results;
      assert all[..n - 1] == RunSources(outcome, srcs[..n - 1], start).results;
      assert all[..k] == all[..n - 1][..k];
    } else {
      assert srcs[..k] == srcs;
    }
  }

  /**
   * Importing a list of sources reports exactly one result per source, in
   * source order, and the i-th is the outcome of importing source i against
   * the store as the earlier sources left it, whether or not they failed.
   */
  lemma ResultsInOrder(outcome: SourceOutcome, srcs: seq<Source>, start: nat, i: nat)
    requires i < |srcs|
    ensures |RunSources(outcome, srcs, start).results| == |srcs|
    ensures RunSources(outcome, srcs, start).results[i]
      == outcome(srcs[i], start + RunSources(outcome, srcs[..i], start).attempts).result
  {
    RunSourcesPrefix(outcome, srcs, i + 1, start);
    var before := RunSources(outcome, srcs[..i], start);
    RunSourcesStep(outcome, srcs, i, start, before, outcome(srcs[i], start + before.attempts));
    var all := RunSources(outcome, srcs, start).results;
    assert all[i] == all[..i + 1][i];
  }

  /**
   * A source whose file decodes cleanly is imported in full whatever the
   * other sources did, failed writes included: if its own writes succeed,
   * it reports its own kind, all its rows and ⌈rows/1000⌉ batches.
   */
  lemma LaterSourcesStillRun(files: map<string, Decoded>, start: nat, rejects: set<nat>, i: nat)
    requires i < |Sources|
    requires Sources[i].path in files && files[Sources[i].path].error.None?
    requires var first := start + RunSources(Outcomes(files, rejects), Sources[..i], start).attempts;
      var batches := (|files[Sources[i].path].rows| + BatchSize - 1) / BatchSize;
      forall a :: first <= a < first + batches ==> a !in rejects
    ensures var rows := files[Sources[i].path].rows;
      ImportRun(files, Sources, start, rejects).results[i]
        == ImportItemsResult(Sources[i].kind, |rows|, (|rows| + BatchSize - 1) / BatchSize, None)
  {
    var outcome := Outcomes(files, rejects);
    ResultsInOrder(outcome, Sources, start, i);
    NoFailureCounts(files[Sources[i].path].rows, Sources[i].kind,
                    start + RunSources(outcome, Sources[..i], start).attempts, rejects);
  }

  /**
   * A file that cannot be opened is reported with the error and the zero
   * `ItemType` (that of agencies), not with the source's kind, and the
   * source writes nothing.
   */
  lemma OpenFailureReported(files: map<string, Decoded>, path: string, kind: ItemType, start: nat, rejects: set<nat>)
    requires path !in files
    ensures var run := ImportItemsOutcome(files, path, kind, start, rejects);
      && run.result.itemType == Agencies
      && run.result.error == Some(OpenFailed(path))
      && run.written == [] && run.attempts == 0
  {
  }

  /** A kind without an inserter is reported as an error and nothing is written. */
  lemma UnknownKindReported(files: map<string, Decoded>, path: string, kind: ItemType, start: nat, rejects: set<nat>)
    requires path in files && !IsKnownKind(kind)
    ensures var run := ImportItemsOutcome(files, path, kind, start, rejects);
      && run.result.error == Some(UnknownItemType(kind))
      && run.written == [] && run.attempts == 0
  {
  }

  /**
   * A decode error is reported with the zero `ItemType` and zero counts, while
   * the rows decoded before it have still gone through the inserter: with no
   * failing write they are all stored, in order.
   */
  lemma DecodeErrorReported(files: map<string, Decoded>, path: string, kind: ItemType, start: nat)
    requires path in files && IsKnownKind(kind) && files[path].error.Some?
    ensures var run := ImportItemsOutcome(files, path, kind, start, {});
      && run.result == ImportItemsResult(Agencies, 0, 0, Some(DecodeFailed(files[path].error.value)))
      && Flatten(run.written) == files[path].rows
  {
    NoFailureCounts(files[path].rows, kind, start, {});
  }
}
