/**
 * The MySQL PDO driver (storage/database/drivers/mysqlpdo/Driver.php): a lazily
 * opened connection, statement execution with a single repair-and-retry for the
 * errors a repair can fix, and quoting of values.
 *
 * The server is an oracle: what connecting yields, and the outcome of the n-th
 * statement sent. What the driver does is recorded as a trace of events, in order.
 */
module Drivers {
  import opened Wrappers
  import opened Entities

  /** The outcome of one prepared statement: it ran, or PDO raised (SQLSTATE, driver code, driver message, exception message). */
  datatype Outcome = Done | Failed(state: string, code: int, info: string, message: string)

  /** What the driver does, in order: log lines, statements sent, repairs, connections. */
  datatype Event = Log(line: string) | DebugLog(line: string) | Run(stmt: string) | Repair | Connected

  /** The driver error codes repair() can fix: 1051 unknown table, 1054 unknown column, 1146 missing table. */
  const ReparableErrors: set<int> := {1051, 1054, 1146}

  const NotRepairableCode: int := 1511081930
  const MissingDatabaseCode: int := 1709051253

  /** The exception a failed statement ends in. */
  function NotRepairable(state: string, info: string): Exception
  {
    PrivateException("Error " + state + " [" + (if info == "" || info == "0" then "Unknown error" else info) + "] captured. Not repairable", NotRepairableCode)
  }

  /** The exception a refused connection ends in: error 1049 means the database does not exist. */
  function ConnectFailure(code: int): (e: Exception)
    ensures code == 1049 <==> e.FileNotFoundException?
  {
    if code == 1049 then FileNotFoundException("Database does not exist", MissingDatabaseCode)
    else PrivateException("DB Error. Connection refused by the server", 0)
  }

  /** The events of execute($stmt, [], $attemptRepair) on an open connection, the n-th statement being the first one sent. */
  function ExecEvents(stmt: string, attemptRepair: bool, run: nat -> Outcome, n: nat): seq<Event>
    decreases attemptRepair
  {
    var first := [Log("DB: " + stmt), Run(stmt)];
    match run(n)
    case Done => first
    case Failed(state, code, info, message) =>
      first + [Log("Captured: " + state + " - " + message)] +
      (if code in ReparableErrors && attemptRepair then [Repair] + ExecEvents(stmt, false, run, n + 1) else [])
  }

  /** What execute() returns: the index of the statement that ran, or the exception. */
  function ExecResult(stmt: string, attemptRepair: bool, run: nat -> Outcome, n: nat): Result<nat, Exception>
    decreases attemptRepair
  {
    match run(n)
    case Done => Success(n)
    case Failed(state, code, info, message) =>
      if code in ReparableErrors && attemptRepair then ExecResult(stmt, false, run, n + 1)
      else Failure(NotRepairable(state, info))
  }

  function Count(events: seq<Event>, e: Event): nat
  {
    if events == [] then 0 else (if events[0] == e then 1 else 0) + Count(events[1..], e)
  }

  lemma {:induction false} CountAppend(a: seq<Event>, b: seq<Event>, e: Event)
    ensures Count(a + b, e) == Count(a, e) + Count(b, e)
  {
    if a == [] {
      assert a + b == b;
    } else {
      assert (a + b)[1..] == a[1..] + b;
      CountAppend(a[1..], b, e);
    }
  }

  /**
   * The retry policy: one call sends the statement at most twice and repairs at most
   * once; it repairs only when repair is allowed and the first attempt failed with
   * a repairable code; with repair disabled it never repairs.
   */
  lemma {:induction false} ExecBounds(stmt: string, attemptRepair: bool, run: nat -> Outcome, n: nat)
    ensures Count(ExecEvents(stmt, attemptRepair, run, n), Run(stmt)) <= 2
    ensures Count(ExecEvents(stmt, attemptRepair, run, n), Repair) <= 1
    ensures Count(ExecEvents(stmt, attemptRepair, run, n), Repair) == 1 <==>
              attemptRepair && run(n).Failed? && run(n).code in ReparableErrors
    ensures !attemptRepair ==> Count(ExecEvents(stmt, attemptRepair, run, n), Run(stmt)) == 1
    decreases attemptRepair
  {
    var first := [Log("DB: " + stmt), Run(stmt)];
    assert first[1..] == [Run(stmt)] && [Run(stmt)][1..] == [];
    assert Count([Run(stmt)], Run(stmt)) == 1 && Count([Run(stmt)], Repair) == 0;
    assert Count(first, Run(stmt)) == 1 && Count(first, Repair) == 0;
    match run(n)
    case Done =>
    case Failed(state, code, info, message) =>
      var cap := [Log("Captured: " + state + " - " + message)];
      CountAppend(first, cap, Run(stmt));
      CountAppend(first, cap, Repair);
      if code in ReparableErrors && attemptRepair {
        var rest := ExecEvents(stmt, false, run, n + 1);
        ExecBounds(stmt, false, run, n + 1);
        assert ExecEvents(stmt, attemptRepair, run, n) == (first + cap) + ([Repair] + rest);
        CountAppend(first + cap, [Repair] + rest, Run(stmt));
        CountAppend(first + cap, [Repair] + rest, Repair);
        CountAppend([Repair], rest, Run(stmt));
        CountAppend([Repair], rest, Repair);
        assert Count(rest, Repair) == 0 by {
          if run(n + 1).Failed? {
            var c2 := [Log("Captured: " + run(n + 1).state + " - " + run(n + 1).message)];
            assert rest == first + c2;
            CountAppend(first, c2, Repair);
          }
        }
      } else {
        assert ExecEvents(stmt, attemptRepair, run, n) == first + cap + [];
        assert first + cap + [] == first + cap;
      }
  }

  /** The statement is always logged right before it is sent. */
  lemma LoggedBeforeRun(stmt: string, attemptRepair: bool, run: nat -> Outcome, n: nat)
    ensures var ev := ExecEvents(stmt, attemptRepair, run, n);
            forall i :: 0 <= i < |ev| && ev[i] == Run(stmt) ==> i > 0 && ev[i - 1] == Log("DB: " + stmt)
    decreases attemptRepair
  {
    if run(n).Failed? && run(n).code in ReparableErrors && attemptRepair {
      LoggedBeforeRun(stmt, false, run, n + 1);
    }
  }

  /** The value quote() gives on an open connection: null, 0 and false are spelled out; the rest is encoded, then quoted by the connection. */
  function QuoteWith(v: Value, encode: Value -> string, connQuote: string -> string): (r: string)
    ensures v == Null ==> r == "null"
    ensures v == Int(0) || v == Bool(false) ==> r == "'0'"
    ensures v != Null && v != Int(0) && v != Bool(false) ==> r == connQuote(encode(v))
  {
    if v == Null then "null"
    else if v == Int(0) then "'0'"
    else if v == Bool(false) then "'0'"
    else connQuote(encode(v))
  }

  /** The string "0" is not one of the special cases: it goes to the connection like any other string. */
  lemma ZeroStringIsQuotedByConnection(encode: Value -> string, connQuote: string -> string)
    ensures QuoteWith(Str("0"), encode, connQuote) == connQuote(encode(Str("0")))
    ensures QuoteWith(Int(0), encode, connQuote) == QuoteWith(Bool(false), encode, connQuote) == "'0'"
  {
  }

  /** The object factory; nothing of it is modelled beyond its identity. */
  class ObjectFactory {
    constructor() {}
  }

  /** The function-static $factory of getObjectFactory(), shared by every driver. */
  class FactorySlot {
    var factory: ObjectFactory?

    constructor()
      ensures factory == null
    {
      factory := null;
    }
  }

  class Driver {
    var connected: bool
    /** What connecting yields: None when the server accepts, else its error code and message. */
    const connectError: Option<(int, string)>
    /** The outcome of the n-th statement sent. */
    const run: nat -> Outcome
    const encode: Value -> string
    const connQuote: string -> string
    var sent: nat
    var trace: seq<Event>

    /** A new driver has no connection ($connection = false) and has sent nothing. */
    constructor(connectError: Option<(int, string)>, run: nat -> Outcome, encode: Value -> string, connQuote: string -> string)
      ensures !connected && sent == 0 && trace == []
      ensures this.connectError == connectError && this.run == run
      ensures this.encode == encode && this.connQuote == connQuote
    {
      connected := false;
      this.connectError := connectError;
      this.run := run;
      this.encode := encode;
      this.connQuote := connQuote;
      sent := 0;
      trace := [];
    }

    /** connect(): opens the connection, or fails (1049 as a missing database, anything else logged and refused). */
    method Connect() returns (err: Option<Exception>)
      modifies this
      ensures connectError.None? ==> err.None? && connected && trace == old(trace) + [Connected]
      ensures connectError.Some? ==> err == Some(ConnectFailure(connectError.value.0)) && connected == old(connected)
      ensures connectError.Some? && connectError.value.0 == 1049 ==> trace == old(trace)
      ensures connectError.Some? && connectError.value.0 != 1049 ==> trace == old(trace) + [DebugLog(connectError.value.1)]
      ensures sent == old(sent)
    {
      match connectError
      case None =>
        connected := true;
        trace := trace + [Connected];
        err := None;
      case Some((code, message)) =>
        if code != 1049 {
          trace := trace + [DebugLog(message)];
        }
        err := Some(ConnectFailure(code));
    }

    /** getConnection(): connects only when there is no connection yet. */
    method GetConnection() returns (err: Option<Exception>)
      modifies this
      ensures old(connected) ==> err.None? && connected && trace == old(trace)
      ensures !old(connected) && connectError.None? ==> err.None? && connected && trace == old(trace) + [Connected]
      ensures !old(connected) && connectError.Some? ==> err == Some(ConnectFailure(connectError.value.0)) && !connected
      ensures err.None? <==> connected
      ensures sent == old(sent)
    {
      err := None;
      if !connected {
        err := Connect();
      }
    }

    /**
     * execute($statement, [], $attemptrepair): connects if needed, logs and sends the
     * statement; a failure with a repairable code, when repair is allowed, triggers one
     * repair() and one more attempt with repair disabled.
     */
    method Execute(stmt: string, attemptRepair: bool) returns (r: Result<nat, Exception>)
      modifies this
      ensures !old(connected) && connectError.Some? ==>
                r == Failure(ConnectFailure(connectError.value.0)) && sent == old(sent) && !connected
      ensures old(connected) || connectError.None? ==>
                connected &&
                r == ExecResult(stmt, attemptRepair, run, old(sent)) &&
                trace == old(trace) + (if old(connected) then [] else [Connected]) + ExecEvents(stmt, attemptRepair, run, old(sent)) &&
                sent >= old(sent) + 1
      decreases attemptRepair
    {
      var err := GetConnection();
      if err.Some? {
        return Failure(err.value);
      }
      ghost var mid := trace;
      trace := trace + [Log("DB: " + stmt), Run(stmt)];
      var n := sent;
      sent := sent + 1;
      match run(n)
      case Done =>
        r := Success(n);
      case Failed(state, code, info, message) =>
        trace := trace + [Log("Captured: " + state + " - " + message)];
        if code !in ReparableErrors || !attemptRepair {
          return Failure(NotRepairable(state, info));
        }
        trace := trace + [Repair];
        ghost var before := trace;
        r := Execute(stmt, false);
        assert trace == before + ExecEvents(stmt, false, run, n + 1);
    }

    /** quote($text): the special cases need no connection; anything else is quoted by the (lazily opened) connection. */
    method Quote(v: Value) returns (r: Result<string, Exception>)
      modifies this
      ensures v == Null || v == Int(0) || v == Bool(false) ==> r == Success(QuoteWith(v, encode, connQuote)) && trace == old(trace)
      ensures r.Success? ==> r.value == QuoteWith(v, encode, connQuote)
      ensures r.Failure? ==> !old(connected) && connectError.Some? && r.error == ConnectFailure(connectError.value.0)
      ensures sent == old(sent)
    {
      if v == Null || v == Int(0) || v == Bool(false) {
        return Success(QuoteWith(v, encode, connQuote));
      }
      var err := GetConnection();
      if err.Some? {
        return Failure(err.value);
      }
      r := Success(connQuote(encode(v)));
    }

    /** The driver's quote() as a function of the value, once the connection is open. */
    function QuoteFn(): Value -> string
      reads this
    {
      v => QuoteWith(v, encode, connQuote)
    }
  }

  /** getObjectFactory(): the first call builds the factory, every later call (from any driver) returns that same one. */
  method GetObjectFactory(slot: FactorySlot) returns (f: ObjectFactory)
    modifies slot
    ensures old(slot.factory) != null ==> f == old(slot.factory)
    ensures old(slot.factory) == null ==> fresh(f)
    ensures slot.factory == f
  {
    if slot.factory == null {
      slot.factory := new ObjectFactory();
    }
    f := slot.factory;
  }
}
