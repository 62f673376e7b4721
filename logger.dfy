/** The logging utility (logger.ts): a buffer of the last 100 entries, the wrappers that fix level
    and category, and the lazily created shared instance. Timestamps and console output are left out;
    the production-only error store is kept as a sequence field. */
module Logging {
  import opened Basics
  import opened Text
  import J = Json

  datatype Level = Info | Warn | Error | Debug

  datatype Entry = Entry(level: Level, category: string, message: string, data: Option<J.Value>)

  /** How many entries the buffer keeps. */
  const Capacity: nat := 100

  /** How many errors the production error store keeps. */
  const StoredErrorLimit: nat := 10

  /** The last `n` elements of `s` (all of it when it is shorter): `s.slice(-n)` for n > 0. */
  function LastN<T>(s: seq<T>, n: nat): (r: seq<T>)
    ensures |r| == if |s| < n then |s| else n
    ensures r == s[|s| - |r|..]
  {
    if |s| <= n then s else s[|s| - n..]
  }

  /** Taking the last n twice, with more appended in between, is taking the last n once. */
  lemma LastNOfLastN<T>(s: seq<T>, t: seq<T>, n: nat)
    ensures LastN(LastN(s, n) + t, n) == LastN(s + t, n)
  {
    var k := |s| - |LastN(s, n)|;
    assert LastN(s, n) + t == (s + t)[k..];
  }

  /** One log call: push the entry, then drop the oldest one when the buffer is over capacity. */
  function Appended(logs: seq<Entry>, e: Entry): (r: seq<Entry>)
    ensures |logs| <= Capacity ==> |r| <= Capacity
    ensures r != [] && r[|r| - 1] == e
    ensures |logs| < Capacity ==> r == logs + [e]
    ensures |logs| == Capacity ==> r == logs[1..] + [e]
  {
    var pushed := logs + [e];
    if |pushed| > Capacity then pushed[1..] else pushed
  }

  /** Logging the entries `es` one after another. */
  function AppendAll(logs: seq<Entry>, es: seq<Entry>): seq<Entry>
    decreases |es|
  {
    if es == [] then logs else AppendAll(Appended(logs, es[0]), es[1..])
  }

  /** Whatever has been logged, the buffer holds exactly the last 100 entries in logging order. */
  lemma {:induction false} AppendAllKeepsLast(logs: seq<Entry>, es: seq<Entry>)
    requires |logs| <= Capacity
    ensures AppendAll(logs, es) == LastN(logs + es, Capacity)
    decreases |es|
  {
    if es == [] {
      assert logs + es == logs;
    } else {
      var next := Appended(logs, es[0]);
      assert next == LastN(logs + [es[0]], Capacity);
      AppendAllKeepsLast(next, es[1..]);
      LastNOfLastN(logs + [es[0]], es[1..], Capacity);
      assert (logs + [es[0]]) + es[1..] == logs + es;
    }
  }

  /** The entry `apiResponse` logs: an error exactly when the status is 400 or above. */
  function ApiResponseEntry(endpoint: string, status: int, data: Option<J.Value>): Entry {
    if status >= 400 then Entry(Error, "API", endpoint + " failed with status " + IntToString(status), data)
    else Entry(Info, "API", endpoint + " succeeded with status " + IntToString(status), data)
  }

  lemma ApiResponseLevel(endpoint: string, status: int, data: Option<J.Value>)
    ensures var e := ApiResponseEntry(endpoint, status, data);
            && e.category == "API" && e.data == data
            && (e.level == Error <==> status >= 400)
            && (e.level == Info <==> status < 400)
            && Contains(e.message, IntToString(status))
  {
    var e := ApiResponseEntry(endpoint, status, data);
    var middle := if status >= 400 then " failed with status " else " succeeded with status ";
    assert e.message == (endpoint + middle) + IntToString(status);
    ContainsParts(endpoint + middle, IntToString(status));
  }

  /** The production error store after logging `e`: errors join it and only the last ten stay. */
  function Stored(stored: seq<Entry>, e: Entry, production: bool): (r: seq<Entry>)
    ensures |stored| <= StoredErrorLimit ==> |r| <= StoredErrorLimit
    ensures e.level != Error || !production ==> r == stored
  {
    if e.level == Error && production then LastN(stored + [e], StoredErrorLimit) else stored
  }

  /** What `apiError` records of the error: its message, stack and name, null when missing. */
  function ErrorData(message: Option<string>, stack: Option<string>, name: Option<string>): (r: J.Value)
    ensures r.Obj? && r.fields.Keys == {"message", "stack", "name"}
    ensures message.Some? ==> r.fields["message"] == J.Str(message.value)
    ensures stack.Some? ==> r.fields["stack"] == J.Str(stack.value)
    ensures name.Some? ==> r.fields["name"] == J.Str(name.value)
    ensures !r.fields["message"].Str? <==> message.None?
    ensures !r.fields["stack"].Str? <==> stack.None?
    ensures !r.fields["name"].Str? <==> name.None?
  {
    J.Obj(map["message" := OrNull(message), "stack" := OrNull(stack), "name" := OrNull(name)])
  }

  function OrNull(s: Option<string>): J.Value {
    if s.Some? then J.Str(s.value) else J.Null
  }

  class Logger {
    var logs: seq<Entry>
    /** Errors stored for monitoring, kept only in a production build. */
    var storedErrors: seq<Entry>
    const production: bool

    predicate Valid()
      reads this
    {
      |logs| <= Capacity && |storedErrors| <= StoredErrorLimit
    }

    constructor (production: bool)
      ensures Valid() && logs == [] && storedErrors == [] && this.production == production
    {
      logs := [];
      storedErrors := [];
      this.production := production;
    }

    /** The private `log`: the entry joins the buffer, and in production an error also joins the
        store, of which the last ten are kept. */
    method Log(level: Level, category: string, message: string, data: Option<J.Value>)
      requires Valid()
      modifies this
      ensures Valid()
      ensures logs == Appended(old(logs), Entry(level, category, message, data))
      ensures storedErrors == Stored(old(storedErrors), Entry(level, category, message, data), production)
    {
      var entry := Entry(level, category, message, data);
      logs := logs + [entry];
      if |logs| > Capacity {
        logs := logs[1..];
      }
      storedErrors := Stored(storedErrors, entry, production);
    }

    method Info(category: string, message: string, data: Option<J.Value>)
      requires Valid()
      modifies this
      ensures Valid() && logs == Appended(old(logs), Entry(Level.Info, category, message, data))
      ensures storedErrors == old(storedErrors)
    {
      Log(Level.Info, category, message, data);
    }

    method Warn(category: string, message: string, data: Option<J.Value>)
      requires Valid()
      modifies this
      ensures Valid() && logs == Appended(old(logs), Entry(Level.Warn, category, message, data))
      ensures storedErrors == old(storedErrors)
    {
      Log(Level.Warn, category, message, data);
    }

    method Error(category: string, message: string, data: Option<J.Value>)
      requires Valid()
      modifies this
      ensures Valid() && logs == Appended(old(logs), Entry(Level.Error, category, message, data))
      ensures storedErrors == Stored(old(storedErrors), Entry(Level.Error, category, message, data), production)
    {
      Log(Level.Error, category, message, data);
    }

    method Debug(category: string, message: string, data: Option<J.Value>)
      requires Valid()
      modifies this
      ensures Valid() && logs == Appended(old(logs), Entry(Level.Debug, category, message, data))
      ensures storedErrors == old(storedErrors)
    {
      Log(Level.Debug, category, message, data);
    }

    method ApiRequest(endpoint: string, httpMethod: string, data: Option<J.Value>)
      requires Valid()
      modifies this
      ensures Valid() && logs == Appended(old(logs), Entry(Level.Info, "API", httpMethod + " " + endpoint, data))
      ensures storedErrors == old(storedErrors)
    {
      Info("API", httpMethod + " " + endpoint, data);
    }

    method ApiResponse(endpoint: string, status: int, data: Option<J.Value>)
      requires Valid()
      modifies this
      ensures Valid() && logs == Appended(old(logs), ApiResponseEntry(endpoint, status, data))
      ensures storedErrors == Stored(old(storedErrors), ApiResponseEntry(endpoint, status, data), production)
    {
      if status >= 400 {
        Error("API", endpoint + " failed with status " + IntToString(status), data);
      } else {
        Info("API", endpoint + " succeeded with status " + IntToString(status), data);
      }
    }

    method ApiError(endpoint: string, message: Option<string>, stack: Option<string>, name: Option<string>)
      requires Valid()
      modifies this
      ensures Valid()
      ensures logs == Appended(old(logs), Entry(Level.Error, "API", endpoint + " error", Some(ErrorData(message, stack, name))))
      ensures storedErrors == Stored(old(storedErrors), Entry(Level.Error, "API", endpoint + " error", Some(ErrorData(message, stack, name))), production)
    {
      Error("API", endpoint + " error", Some(ErrorData(message, stack, name)));
    }

    method VoiceEvent(event: string, data: Option<J.Value>)
      requires Valid()
      modifies this
      ensures Valid() && logs == Appended(old(logs), Entry(Level.Debug, "VOICE", event, data))
      ensures storedErrors == old(storedErrors)
    {
      Debug("VOICE", event, data);
    }

    method VoiceError(error: string, data: Option<J.Value>)
      requires Valid()
      modifies this
      ensures Valid() && logs == Appended(old(logs), Entry(Level.Error, "VOICE", error, data))
      ensures storedErrors == Stored(old(storedErrors), Entry(Level.Error, "VOICE", error, data), production)
    {
      Error("VOICE", error, data);
    }

    method UserAction(action: string, data: Option<J.Value>)
      requires Valid()
      modifies this
      ensures Valid() && logs == Appended(old(logs), Entry(Level.Info, "USER", action, data))
      ensures storedErrors == old(storedErrors)
    {
      Info("USER", action, data);
    }

    /** `performance(metric, value, unit = 'ms')`, for whole-number values. */
    method Performance(metric: string, value: int, unit: Option<string>)
      requires Valid()
      modifies this
      ensures Valid()
      ensures logs == Appended(old(logs), Entry(Level.Debug, "PERFORMANCE", metric + ": " + IntToString(value) + unit.GetOr("ms"), None))
      ensures storedErrors == old(storedErrors)
    {
      Debug("PERFORMANCE", metric + ": " + IntToString(value) + unit.GetOr("ms"), None);
    }

    /** A copy of the buffer; being a value, it is not changed by later logging. */
    method GetAllLogs() returns (copy: seq<Entry>)
      ensures copy == logs
    {
      copy := logs;
    }

    /** Empties the buffer and records that it did so. */
    method ClearLogs()
      requires Valid()
      modifies this
      ensures Valid()
      ensures logs == [Entry(Level.Info, "SYSTEM", "Logs cleared", None)]
      ensures storedErrors == old(storedErrors)
    {
      logs := [];
      Info("SYSTEM", "Logs cleared", None);
    }
  }

  /** The static `instance` slot of `Logger`: created on first use, the same object afterwards. */
  class LoggerHolder {
    var instance: Logger?

    constructor ()
      ensures instance == null
    {
      instance := null;
    }

    method GetInstance(production: bool) returns (l: Logger)
      modifies this
      ensures old(instance) != null ==> l == old(instance)
      ensures old(instance) == null ==> fresh(l) && l.logs == [] && l.storedErrors == [] && l.Valid()
      ensures instance == l
    {
      if instance == null {
        instance := new Logger(production);
      }
      l := instance;
    }
  }
}
