/**
 * The bug-report store's three bounded logs: user actions, console output and
 * errors. Each log keeps only its newest entries. Entry ids and timestamps
 * come from a random generator and the clock, so they are parameters here.
 */
module BugReportStore {
  import opened Wrappers
  import opened Text

  const MAX_ACTIONS: nat := 50
  const MAX_CONSOLE_LOGS: nat := 100
  const MAX_ERRORS: nat := 20

  datatype ActionLog = ActionLog(id: string, timestamp: int, kind: string, details: map<string, string>)

  datatype Level = Log | Warn | Error | Info

  datatype ConsoleLog = ConsoleLog(id: string, timestamp: int, level: Level, args: string)

  datatype ErrorLog = ErrorLog(id: string, timestamp: int, name: string, message: string,
                               stack: Option<string>, context: Option<string>)

  datatype BugReport = BugReport(
    actions: seq<ActionLog>,
    consoleLogs: seq<ConsoleLog>,
    errors: seq<ErrorLog>,
    isModalOpen: bool,
    isInitialized: bool)

  const INITIAL := BugReport([], [], [], false, false)

  /** No log is over its cap. */
  predicate WithinCaps(b: BugReport)
  {
    |b.actions| <= MAX_ACTIONS && |b.consoleLogs| <= MAX_CONSOLE_LOGS && |b.errors| <= MAX_ERRORS
  }

  /**
   * `[...log.slice(-cap + 1), entry]`: the newest `cap - 1` entries of the log
   * (all of them when there are fewer) followed by the new one. A cap of 1
   * would make that `slice(-0)`, which keeps the whole log, so caps start at 2.
   */
  function Appended<T>(log: seq<T>, entry: T, cap: nat): (r: seq<T>)
    requires cap >= 2
    ensures |r| <= cap && |r| >= 1 && r[|r| - 1] == entry
    ensures |log| < cap ==> |r| == |log| + 1
    ensures |log| >= cap - 1 ==> |r| == cap
    ensures r[..|r| - 1] == log[|log| - (|r| - 1)..]
  {
    var kept := if |log| <= cap - 1 then log else log[|log| - (cap - 1)..];
    assert (kept + [entry])[..|kept|] == kept;
    kept + [entry]
  }

  /** The last `cap` entries of a history (all of it when it is shorter). */
  function Newest<T>(all: seq<T>, cap: nat): (r: seq<T>)
    ensures |r| == if |all| < cap then |all| else cap
  {
    if |all| < cap then all else all[|all| - cap..]
  }

  /** The bounded log is the newest `cap` entries of the whole history. */
  lemma AppendedIsNewest<T>(log: seq<T>, entry: T, cap: nat)
    requires cap >= 2
    ensures Appended(log, entry, cap) == Newest(log + [entry], cap)
  {
    var all := log + [entry];
    var r := Appended(log, entry, cap);
    assert r == r[..|r| - 1] + [entry];
    assert all[|all| - |r|..] == log[|log| - (|r| - 1)..] + [entry];
  }

  /** Keeping the newest entries, adding more and keeping the newest again forgets nothing more. */
  lemma NewestTwice<T>(a: seq<T>, b: seq<T>, cap: nat)
    ensures Newest(Newest(a, cap) + b, cap) == Newest(a + b, cap)
  {
    if |a| >= cap {
      var k := |a| - cap;
      assert Newest(a, cap) + b == (a + b)[k..];
    }
  }

  /** Logging entries one by one through the bounded log. */
  function AppendedAll<T>(log: seq<T>, entries: seq<T>, cap: nat): (r: seq<T>)
    requires cap >= 2
    decreases |entries|
  {
    if entries == [] then log else AppendedAll(Appended(log, entries[0], cap), entries[1..], cap)
  }

  /** One step of `AppendedAll`, with the bounded append written as `Newest`. */
  lemma AppendedAllStep<T>(log: seq<T>, entries: seq<T>, cap: nat)
    requires cap >= 2 && entries != []
    ensures AppendedAll(log, entries, cap) == AppendedAll(Newest(log + [entries[0]], cap), entries[1..], cap)
  {
    AppendedIsNewest(log, entries[0], cap);
  }

  /** Trimming after the first entry and again at the end is trimming once at the end. */
  lemma NewestStep<T>(log: seq<T>, entries: seq<T>, cap: nat)
    requires entries != []
    ensures Newest(Newest(log + [entries[0]], cap) + entries[1..], cap) == Newest(log + entries, cap)
  {
    NewestTwice(log + [entries[0]], entries[1..], cap);
    assert log + [entries[0]] + entries[1..] == log + entries;
  }

  /** However many entries are logged, the log holds the newest `cap` entries of its whole history. */
  lemma {:induction false} AppendedAllIsNewest<T>(log: seq<T>, entries: seq<T>, cap: nat)
    requires cap >= 2 && |log| <= cap
    ensures AppendedAll(log, entries, cap) == Newest(log + entries, cap)
    decreases |entries|
  {
    if entries == [] {
      assert log + entries == log;
    } else {
      var step := Newest(log + [entries[0]], cap);
      AppendedAllStep(log, entries, cap);
      AppendedAllIsNewest(step, entries[1..], cap);
      NewestStep(log, entries, cap);
    }
  }

  /** `stringifyArgs` for arguments already turned into strings: joined with spaces. */
  function StringifyArgs(args: seq<string>): (s: string)
  {
    Join(args, " ")
  }

  /** Arguments without spaces can be read back from the logged message by splitting at the spaces. */
  lemma StringifyArgsReadBack(args: seq<string>)
    requires args != [] && forall k :: 0 <= k < |args| ==> ' ' !in args[k]
    ensures Split(StringifyArgs(args), " ") == args
  {
    SplitJoin(args, ' ');
  }

  /** `logAction`: the action is the newest entry, the older ones keep their order. */
  function ActionLogged(b: BugReport, action: ActionLog): (r: BugReport)
    ensures r.actions == Appended(b.actions, action, MAX_ACTIONS)
    ensures r.(actions := b.actions) == b
    ensures WithinCaps(b) ==> WithinCaps(r)
  {
    b.(actions := Appended(b.actions, action, MAX_ACTIONS))
  }

  /** `logConsole` */
  function ConsoleLogged(b: BugReport, id: string, timestamp: int, level: Level, args: seq<string>): (r: BugReport)
    ensures r.consoleLogs == Appended(b.consoleLogs, ConsoleLog(id, timestamp, level, StringifyArgs(args)), MAX_CONSOLE_LOGS)
    ensures r.(consoleLogs := b.consoleLogs) == b
    ensures WithinCaps(b) ==> WithinCaps(r)
  {
    b.(consoleLogs := Appended(b.consoleLogs, ConsoleLog(id, timestamp, level, StringifyArgs(args)), MAX_CONSOLE_LOGS))
  }

  /** `logError` */
  function ErrorLogged(b: BugReport, errorLog: ErrorLog): (r: BugReport)
    ensures r.errors == Appended(b.errors, errorLog, MAX_ERRORS)
    ensures r.(errors := b.errors) == b
    ensures WithinCaps(b) ==> WithinCaps(r)
  {
    b.(errors := Appended(b.errors, errorLog, MAX_ERRORS))
  }

  /** `clearLogs`: the three logs are emptied; the modal and interceptor flags stay. */
  function LogsCleared(b: BugReport): (r: BugReport)
    ensures r.actions == [] && r.consoleLogs == [] && r.errors == [] && WithinCaps(r)
    ensures r.isModalOpen == b.isModalOpen && r.isInitialized == b.isInitialized
  {
    b.(actions := [], consoleLogs := [], errors := [])
  }

  /** Once `cap + 1` entries have been logged from empty, the oldest is gone and the rest are kept. */
  lemma OldestDropped<T>(first: T, rest: seq<T>, cap: nat)
    requires cap >= 2 && |rest| == cap
    ensures AppendedAll([], [first] + rest, cap) == rest
  {
    var all := [first] + rest;
    assert Newest([] + all, cap) == rest by {
      assert [] + all == all;
      assert all[1..] == rest;
    }
    AppendedAllIsNewest([], all, cap);
  }

  /** The bug-report store. */
  class BugReportStore {
    var actions: seq<ActionLog>
    var consoleLogs: seq<ConsoleLog>
    var errors: seq<ErrorLog>
    var isModalOpen: bool
    var isInitialized: bool

    function State(): BugReport
      reads this
    {
      BugReport(actions, consoleLogs, errors, isModalOpen, isInitialized)
    }

    predicate Valid()
      reads this
    {
      WithinCaps(State())
    }

    constructor ()
      ensures Valid() && State() == INITIAL
    {
      actions, consoleLogs, errors, isModalOpen, isInitialized := [], [], [], false, false;
    }

    method LogAction(id: string, timestamp: int, kind: string, details: map<string, string>)
      requires Valid()
      modifies this
      ensures Valid() && State() == ActionLogged(old(State()), ActionLog(id, timestamp, kind, details))
    {
      var action := ActionLog(id, timestamp, kind, details);
      actions := Appended(actions, action, MAX_ACTIONS);
    }

    method LogConsole(id: string, timestamp: int, level: Level, args: seq<string>)
      requires Valid()
      modifies this
      ensures Valid() && State() == ConsoleLogged(old(State()), id, timestamp, level, args)
    {
      var log := ConsoleLog(id, timestamp, level, StringifyArgs(args));
      consoleLogs := Appended(consoleLogs, log, MAX_CONSOLE_LOGS);
    }

    method LogError(id: string, timestamp: int, name: string, message: string,
                    stack: Option<string>, context: Option<string>)
      requires Valid()
      modifies this
      ensures Valid() && State() == ErrorLogged(old(State()), ErrorLog(id, timestamp, name, message, stack, context))
    {
      var errorLog := ErrorLog(id, timestamp, name, message, stack, context);
      errors := Appended(errors, errorLog, MAX_ERRORS);
    }

    method ClearLogs()
      requires Valid()
      modifies this
      ensures Valid() && State() == LogsCleared(old(State()))
    {
      actions, consoleLogs, errors := [], [], [];
    }

    method SetModalOpen(open: bool)
      requires Valid()
      modifies this
      ensures Valid() && State() == old(State()).(isModalOpen := open)
    {
      isModalOpen := open;
    }
  }
}
