/**
 * Validation of the query parameters of a RESTCONF request (section 4.8 of RFC 8040): each
 * parameter may appear at most once; a write accepts only `insert` and `point` (sections 4.8.5 and
 * 4.8.6); a notification subscription accepts `start-time`, `stop-time` and `filter` (sections
 * 4.8.7, 4.8.8 and 4.8.4) and the vendor flag `odl-skip-notification-data`.
 *
 * The query is the request's entry set, a sequence of (name, values) entries in the order the
 * loops visit them. The value factories and the final `of` combinations belong to parameter
 * classes that are not part of this model: they are function parameters, each returning either
 * its value or the message of the IllegalArgumentException it throws.
 */
module QueryParams {
  import opened Wrappers
  import opened Errors

  /** One entry of the request's query: a parameter name with every value given for it. */
  datatype Entry = Entry(key: string, values: seq<string>)

  const StartTimeName := "start-time"
  const StopTimeName := "stop-time"
  const FilterName := "filter"
  const SkipNotificationDataName := "odl-skip-notification-data"
  const InsertName := "insert"
  const PointName := "point"

  // ---------------------------------------------------------------------------------------------
  // A single parameter

  /** The error for a parameter given more than once. */
  function AtMostOnce(name: string): Failure {
    Documented("Parameter " + name + " can appear at most once in request URI", Protocol, InvalidValue)
  }

  /**
   * The single value of a parameter: absent when no value is given, the value when exactly one is,
   * and a PROTOCOL/INVALID_VALUE error when more are.
   */
  function OptionalParam(name: string, values: seq<string>): (r: Result<Option<string>, Failure>)
    ensures r.Ok? <==> |values| <= 1
    ensures r.Ok? ==> (r.value.Some? <==> values != [])
    ensures r.Ok? && r.value.Some? ==> values == [r.value.value]
    ensures r.Err? ==> r.error == AtMostOnce(name)
  {
    match |values|
    case 0 => Ok(None)
    case 1 => Ok(Some(values[0]))
    case _ => Err(AtMostOnce(name))
  }

  /**
   * The single value of a parameter, converted by `factory` when present; a factory that rejects
   * the value throws an IllegalArgumentException, which propagates.
   */
  function OptionalParamWith<T>(factory: string -> Result<T, string>, name: string, values: seq<string>)
    : (r: Result<Option<T>, Failure>)
    ensures OptionalParam(name, values).Err? ==> r == Err(AtMostOnce(name))
    ensures OptionalParam(name, values) == Ok(None) ==> r == Ok(None)
    ensures r.Ok? && r.value.Some? ==> exists v :: values == [v] && factory(v) == Ok(r.value.value)
    ensures r.Err? && r.error.IllegalArgument? ==> exists v :: values == [v] && factory(v) == Err(r.error.message)
    ensures |values| == 1 && factory(values[0]).Ok? ==> r == Ok(Some(factory(values[0]).value))
    ensures |values| == 1 && factory(values[0]).Err? ==> r == Err(IllegalArgument(factory(values[0]).error))
  {
    var str :- OptionalParam(name, values);
    if str.None? then Ok(None)
    else
      match factory(str.value)
      case Ok(t) => Ok(Some(t))
      case Err(message) => Err(IllegalArgument(message))
  }

  /** The factory is applied only to a value that is present: without exactly one value the factory does not matter. */
  lemma FactoryOnlyForPresentValue<T>(f: string -> Result<T, string>, g: string -> Result<T, string>, name: string, values: seq<string>)
    requires |values| != 1
    ensures OptionalParamWith(f, name, values) == OptionalParamWith(g, name, values)
  {
  }

  /** The one value of `name` in the parameter map, absent when `name` is not a key. */
  function GetSingleParameter(params: map<string, seq<string>>, name: string): (r: Result<Option<string>, Failure>)
    ensures name !in params ==> r == Ok(None)
    ensures r == Ok(None) ==> name !in params || params[name] == []
    ensures r.Ok? && r.value.Some? ==> name in params && params[name] == [r.value.value]
    ensures r.Err? <==> name in params && |params[name]| >= 2
    ensures r.Err? ==> r.error == AtMostOnce(name)
    ensures name in params ==> r == OptionalParam(name, params[name])
  {
    if name !in params then Ok(None) else OptionalParam(name, params[name])
  }

  // ---------------------------------------------------------------------------------------------
  // Boolean flags

  function ToLowerAscii(c: char): char {
    if 'A' <= c <= 'Z' then (c as int - 'A' as int + 'a' as int) as char else c
  }

  /** Case-insensitive equality, folding ASCII letters; no other character folds to a letter of "true". */
  predicate EqualsIgnoreCase(a: string, b: string) {
    |a| == |b| && forall i | 0 <= i < |a| :: ToLowerAscii(a[i]) == ToLowerAscii(b[i])
  }

  /** A character folds to the same letter as `c` exactly when it is `c` or `C` (ASCII letters only). */
  lemma FoldsToLetter(x: char, lower: char, upper: char)
    requires 'a' <= lower <= 'z' && upper as int == lower as int - 'a' as int + 'A' as int
    ensures ToLowerAscii(x) == ToLowerAscii(lower) <==> x == lower || x == upper
  {
  }

  /** Java's Boolean.parseBoolean: true exactly for a present "true", in any case. */
  function ParseBoolean(s: Option<string>): (r: bool)
    ensures r ==> s.Some? && |s.value| == 4
    ensures s.None? ==> !r
    ensures r <==> s.Some? && |s.value| == 4 && forall i | 0 <= i < 4 :: s.value[i] == "true"[i] || s.value[i] == "TRUE"[i]
  {
    if s.Some? && |s.value| == 4 then
      FoldsToLetter(s.value[0], 't', 'T');
      FoldsToLetter(s.value[1], 'r', 'R');
      FoldsToLetter(s.value[2], 'u', 'U');
      FoldsToLetter(s.value[3], 'e', 'E');
      EqualsIgnoreCase(s.value, "true")
    else
      false
  }

  lemma ParseBooleanExamples()
    ensures ParseBoolean(Some("true")) && ParseBoolean(Some("TRUE")) && ParseBoolean(Some("tRuE"))
    ensures !ParseBoolean(Some("false")) && !ParseBoolean(Some("yes")) && !ParseBoolean(Some("1"))
    ensures !ParseBoolean(Some("true ")) && !ParseBoolean(Some(""))
  {
    assert !EqualsIgnoreCase("false", "true");
    assert !EqualsIgnoreCase("yes", "true");
    assert ToLowerAscii('1') != ToLowerAscii('t');
  }

  // ---------------------------------------------------------------------------------------------
  // Notification subscriptions

  /** The parameter classes a subscription uses: one factory per parameter, and the combination. */
  datatype NotificationFactories<!S, !P, !F, N> = NotificationFactories(
    startTime: string -> Result<S, string>,
    stopTime: string -> Result<P, string>,
    filter: string -> Result<F, string>,
    combine: (Option<S>, Option<P>, Option<F>, bool) -> Result<N, string>)

  /** The locals the loop over the entries updates. */
  datatype NotificationLocals<S, P, F> = NotificationLocals(
    startTime: Option<S>,
    stopTime: Option<P>,
    filter: Option<F>,
    skipNotificationData: bool)

  function InitialNotificationLocals<S, P, F>(): NotificationLocals<S, P, F> {
    NotificationLocals(None, None, None, false)
  }

  /** Where the loop over the entries stands: still running, left by `break`, or left by an exception. */
  datatype Scan<L> = Running(locals: L) | Stopped(locals: L) | Failed(failure: Failure)

  /** The catch clause around one step: an IllegalArgumentException is reported as an invalid value of the parameter. */
  function CatchIllegalArgument(name: string, failure: Failure): Failure {
    if failure.IllegalArgument? then DocumentedDefault("Invalid " + name + " value: " + failure.message) else failure
  }

  /** The error for a name a subscription does not accept. */
  function BadNotificationParameter(name: string): Failure {
    DocumentedDefault("Bad parameter used with notifications: " + name)
  }

  /** One turn of the loop: `start-time` and `stop-time` end it, `filter` and the flag continue it, any other name fails. */
  function NotificationStep<S, P, F, N>(f: NotificationFactories<S, P, F, N>, l: NotificationLocals<S, P, F>, entry: Entry)
    : Scan<NotificationLocals<S, P, F>>
  {
    var paramName := entry.key;
    if paramName == StartTimeName then
      match OptionalParamWith(f.startTime, paramName, entry.values)
      case Ok(v) => Stopped(l.(startTime := v))
      case Err(e) => Failed(CatchIllegalArgument(paramName, e))
    else if paramName == StopTimeName then
      match OptionalParamWith(f.stopTime, paramName, entry.values)
      case Ok(v) => Stopped(l.(stopTime := v))
      case Err(e) => Failed(CatchIllegalArgument(paramName, e))
    else if paramName == FilterName then
      match OptionalParamWith(f.filter, paramName, entry.values)
      case Ok(v) => Running(l.(filter := v))
      case Err(e) => Failed(CatchIllegalArgument(paramName, e))
    else if paramName == SkipNotificationDataName then
      match OptionalParam(paramName, entry.values)
      case Ok(s) => Running(l.(skipNotificationData := ParseBoolean(s)))
      case Err(e) => Failed(CatchIllegalArgument(paramName, e))
    else Failed(BadNotificationParameter(paramName))
  }

  /** The loop over the entries, from locals `l`. */
  function ScanNotification<S, P, F, N>(f: NotificationFactories<S, P, F, N>, l: NotificationLocals<S, P, F>, entries: seq<Entry>)
    : Scan<NotificationLocals<S, P, F>>
    decreases |entries|
  {
    if entries == [] then Running(l)
    else
      match NotificationStep(f, l, entries[0])
      case Running(next) => ScanNotification(f, next, entries[1..])
      case other => other
  }

  /** The combination after the loop: its IllegalArgumentException is reported as invalid query parameters. */
  function CombineNotification<S, P, F, N>(f: NotificationFactories<S, P, F, N>, l: NotificationLocals<S, P, F>): Result<N, Failure> {
    match f.combine(l.startTime, l.stopTime, l.filter, l.skipNotificationData)
    case Ok(params) => Ok(params)
    case Err(message) => Err(DocumentedDefault("Invalid query parameters: " + message))
  }

  /** After the loop: the exception that left it, or the combination of the locals it collected. */
  function FinishNotification<S, P, F, N>(f: NotificationFactories<S, P, F, N>, scan: Scan<NotificationLocals<S, P, F>>): Result<N, Failure> {
    match scan
    case Failed(e) => Err(e)
    case Running(l) => CombineNotification(f, l)
    case Stopped(l) => CombineNotification(f, l)
  }

  /** The parameters of a subscription, or the exception that rejects the query. */
  function NotificationQueryParamsOf<S, P, F, N>(f: NotificationFactories<S, P, F, N>, entries: seq<Entry>): Result<N, Failure> {
    FinishNotification(f, ScanNotification(f, InitialNotificationLocals(), entries))
  }

  method NewNotificationQueryParams<S, P, F, N>(f: NotificationFactories<S, P, F, N>, entries: seq<Entry>)
    returns (r: Result<N, Failure>)
    ensures r == NotificationQueryParamsOf(f, entries)
  {
    var startTime: Option<S> := None;
    var stopTime: Option<P> := None;
    var filter: Option<F> := None;
    var skipNotificationData := false;
    ghost var outcome := ScanNotification(f, InitialNotificationLocals(), entries);

    var i := 0;
    while i < |entries|
      invariant 0 <= i <= |entries|
      invariant ScanNotification(f, NotificationLocals(startTime, stopTime, filter, skipNotificationData), entries[i..]) == outcome
    {
      var paramName := entries[i].key;
      var paramValues := entries[i].values;
      assert entries[i..][0] == entries[i] && entries[i..][1..] == entries[i + 1..];

      if paramName == StartTimeName {
        var value := OptionalParamWith(f.startTime, paramName, paramValues);
        if value.Err? {
          return Err(CatchIllegalArgument(paramName, value.error));
        }
        startTime := value.value;
        assert outcome == Stopped(NotificationLocals(startTime, stopTime, filter, skipNotificationData));
        break;
      } else if paramName == StopTimeName {
        var value := OptionalParamWith(f.stopTime, paramName, paramValues);
        if value.Err? {
          return Err(CatchIllegalArgument(paramName, value.error));
        }
        stopTime := value.value;
        assert outcome == Stopped(NotificationLocals(startTime, stopTime, filter, skipNotificationData));
        break;
      } else if paramName == FilterName {
        var value := OptionalParamWith(f.filter, paramName, paramValues);
        if value.Err? {
          return Err(CatchIllegalArgument(paramName, value.error));
        }
        filter := value.value;
      } else if paramName == SkipNotificationDataName {
        var value := OptionalParam(paramName, paramValues);
        if value.Err? {
          return Err(CatchIllegalArgument(paramName, value.error));
        }
        skipNotificationData := ParseBoolean(value.value);
      } else {
        return Err(BadNotificationParameter(paramName));
      }
      i := i + 1;
    }

    var locals := NotificationLocals(startTime, stopTime, filter, skipNotificationData);
    assert outcome == Running(locals) || outcome == Stopped(locals);
    var combined := f.combine(startTime, stopTime, filter, skipNotificationData);
    if combined.Err? {
      return Err(DocumentedDefault("Invalid query parameters: " + combined.error));
    }
    return Ok(combined.value);
  }

  /** Running the loop over two parts is running it over the first, then, if it is still running, over the second. */
  lemma {:induction false} ScanNotificationAppend<S, P, F, N>(
    f: NotificationFactories<S, P, F, N>, l: NotificationLocals<S, P, F>, a: seq<Entry>, b: seq<Entry>)
    ensures ScanNotification(f, l, a + b) ==
            match ScanNotification(f, l, a)
            case Running(next) => ScanNotification(f, next, b)
            case other => other
    decreases |a|
  {
    if a == [] {
      assert a + b == b;
    } else {
      assert (a + b)[0] == a[0] && (a + b)[1..] == a[1..] + b;
      match NotificationStep(f, l, a[0])
      case Running(next) => ScanNotificationAppend(f, next, a[1..], b);
      case Stopped(_) =>
      case Failed(_) =>
    }
  }

  /** Once the entries before `e` leave the loop running, the query's fate is decided from `e` on. */
  lemma AfterPrefix<S, P, F, N>(f: NotificationFactories<S, P, F, N>, pre: seq<Entry>, e: Entry, post: seq<Entry>)
    requires ScanNotification(f, InitialNotificationLocals(), pre).Running?
    ensures var l := ScanNotification(f, InitialNotificationLocals(), pre).locals;
            NotificationQueryParamsOf(f, pre + [e] + post) == FinishNotification(f, ScanNotification(f, l, [e] + post))
    ensures var l := ScanNotification(f, InitialNotificationLocals(), pre).locals;
            !NotificationStep(f, l, e).Running? ==> ScanNotification(f, l, [e] + post) == NotificationStep(f, l, e)
  {
    ScanNotificationAppend(f, InitialNotificationLocals(), pre, [e] + post);
    assert pre + [e] + post == pre + ([e] + post);
    assert ([e] + post)[0] == e && ([e] + post)[1..] == post;
  }

  /**
   * The loop stops at the first `start-time` or `stop-time`: whatever entries follow it are neither
   * read nor rejected.
   */
  lemma StopsAtStartOrStopTime<S, P, F, N>(f: NotificationFactories<S, P, F, N>, pre: seq<Entry>, e: Entry, post1: seq<Entry>, post2: seq<Entry>)
    requires ScanNotification(f, InitialNotificationLocals(), pre).Running?
    requires e.key == StartTimeName || e.key == StopTimeName
    ensures NotificationQueryParamsOf(f, pre + [e] + post1) == NotificationQueryParamsOf(f, pre + [e] + post2)
  {
    AfterPrefix(f, pre, e, post1);
    AfterPrefix(f, pre, e, post2);
  }

  /** A name a subscription does not know is rejected, as soon as the loop reaches it. */
  lemma UnknownNotificationParameter<S, P, F, N>(f: NotificationFactories<S, P, F, N>, pre: seq<Entry>, e: Entry, post: seq<Entry>)
    requires ScanNotification(f, InitialNotificationLocals(), pre).Running?
    requires e.key !in {StartTimeName, StopTimeName, FilterName, SkipNotificationDataName}
    ensures NotificationQueryParamsOf(f, pre + [e] + post) == Err(DocumentedDefault("Bad parameter used with notifications: " + e.key))
  {
    AfterPrefix(f, pre, e, post);
  }

  /** A known subscription parameter given more than once is rejected with PROTOCOL/INVALID_VALUE. */
  lemma RepeatedNotificationParameter<S, P, F, N>(f: NotificationFactories<S, P, F, N>, pre: seq<Entry>, e: Entry, post: seq<Entry>)
    requires ScanNotification(f, InitialNotificationLocals(), pre).Running?
    requires e.key in {StartTimeName, StopTimeName, FilterName, SkipNotificationDataName}
    requires |e.values| >= 2
    ensures NotificationQueryParamsOf(f, pre + [e] + post)
            == Err(Documented("Parameter " + e.key + " can appear at most once in request URI", Protocol, InvalidValue))
  {
    AfterPrefix(f, pre, e, post);
  }

  /** A value a factory rejects is reported as an invalid value of that parameter. */
  lemma InvalidNotificationValue<S, P, F, N>(f: NotificationFactories<S, P, F, N>, pre: seq<Entry>, e: Entry, post: seq<Entry>, v: string, message: string)
    requires ScanNotification(f, InitialNotificationLocals(), pre).Running?
    requires e.values == [v]
    requires (e.key == StartTimeName && f.startTime(v) == Err(message))
          || (e.key == StopTimeName && f.stopTime(v) == Err(message))
          || (e.key == FilterName && f.filter(v) == Err(message))
    ensures NotificationQueryParamsOf(f, pre + [e] + post) == Err(DocumentedDefault("Invalid " + e.key + " value: " + message))
  {
    AfterPrefix(f, pre, e, post);
  }

  /** The flag is set from its single value: true exactly when that value is "true" in any case; no value clears it. */
  lemma SkipNotificationDataStep<S, P, F, N>(f: NotificationFactories<S, P, F, N>, l: NotificationLocals<S, P, F>, e: Entry)
    requires e.key == SkipNotificationDataName && |e.values| <= 1
    ensures NotificationStep(f, l, e) == Running(l.(skipNotificationData := |e.values| == 1 && EqualsIgnoreCase(e.values[0], "true")))
  {
  }

  /** Entries other than the flag leave it as it was. */
  lemma {:induction false} ScanKeepsSkipNotificationData<S, P, F, N>(f: NotificationFactories<S, P, F, N>, l: NotificationLocals<S, P, F>, entries: seq<Entry>)
    requires forall i | 0 <= i < |entries| :: entries[i].key != SkipNotificationDataName
    ensures !ScanNotification(f, l, entries).Failed? ==> ScanNotification(f, l, entries).locals.skipNotificationData == l.skipNotificationData
    decreases |entries|
  {
    if entries != [] {
      match NotificationStep(f, l, entries[0])
      case Running(next) => ScanKeepsSkipNotificationData(f, next, entries[1..]);
      case Stopped(_) =>
      case Failed(_) =>
    }
  }

  /** Without an `odl-skip-notification-data` entry, the flag the loop hands to the combination is false. */
  lemma SkipNotificationDataDefaultsFalse<S, P, F, N>(f: NotificationFactories<S, P, F, N>, entries: seq<Entry>)
    requires forall i | 0 <= i < |entries| :: entries[i].key != SkipNotificationDataName
    ensures var scan := ScanNotification(f, InitialNotificationLocals(), entries);
            !scan.Failed? ==> !scan.locals.skipNotificationData
  {
    ScanKeepsSkipNotificationData(f, InitialNotificationLocals(), entries);
  }

  /** When the combination rejects what the loop collected, the query is reported as invalid. */
  lemma InvalidNotificationCombination<S, P, F, N>(f: NotificationFactories<S, P, F, N>, entries: seq<Entry>, message: string)
    requires !ScanNotification(f, InitialNotificationLocals(), entries).Failed?
    requires var l := ScanNotification(f, InitialNotificationLocals(), entries).locals;
             f.combine(l.startTime, l.stopTime, l.filter, l.skipNotificationData) == Err(message)
    ensures NotificationQueryParamsOf(f, entries) == Err(DocumentedDefault("Invalid query parameters: " + message))
  {
  }

  // ---------------------------------------------------------------------------------------------
  // Writes

  /**
   * The parameter classes a write uses: the insert factory answers absent for a value it does not
   * recognise; the point factory may throw.
   */
  datatype WriteFactories<!I, !P, W> = WriteFactories(
    insert: string -> Option<I>,
    point: string -> Result<P, string>,
    combine: (Option<I>, Option<P>) -> Result<W, string>)

  datatype WriteLocals<I, P> = WriteLocals(insert: Option<I>, point: Option<P>)

  function BadWriteParameter(name: string): Failure {
    Documented("Bad parameter for post: " + name, Protocol, BadElement)
  }

  function UnrecognizedInsert(str: string): Failure {
    Documented("Unrecognized insert parameter value '" + str + "'", Protocol, BadElement)
  }

  /**
   * One turn of the loop: `insert` and `point` set their local when a value is given, any other name
   * fails. Nothing catches the point factory's IllegalArgumentException.
   */
  function WriteStep<I, P, W>(f: WriteFactories<I, P, W>, l: WriteLocals<I, P>, entry: Entry): Result<WriteLocals<I, P>, Failure> {
    var uriName := entry.key;
    if uriName == InsertName then
      var str :- OptionalParam(uriName, entry.values);
      if str.None? then Ok(l)
      else
        match f.insert(str.value)
        case None => Err(UnrecognizedInsert(str.value))
        case Some(insert) => Ok(l.(insert := Some(insert)))
    else if uriName == PointName then
      var str :- OptionalParam(uriName, entry.values);
      if str.None? then Ok(l)
      else
        match f.point(str.value)
        case Err(message) => Err(IllegalArgument(message))
        case Ok(point) => Ok(l.(point := Some(point)))
    else Err(BadWriteParameter(uriName))
  }

  function ScanWrite<I, P, W>(f: WriteFactories<I, P, W>, l: WriteLocals<I, P>, entries: seq<Entry>): Result<WriteLocals<I, P>, Failure>
    decreases |entries|
  {
    if entries == [] then Ok(l)
    else
      var next :- WriteStep(f, l, entries[0]);
      ScanWrite(f, next, entries[1..])
  }

  function CombineWrite<I, P, W>(f: WriteFactories<I, P, W>, l: WriteLocals<I, P>): Result<W, Failure> {
    match f.combine(l.insert, l.point)
    case Ok(params) => Ok(params)
    case Err(message) => Err(DocumentedDefault("Invalid query parameters: " + message))
  }

  /** The parameters of a write, or the exception that rejects the query. */
  function WriteDataParamsOf<I, P, W>(f: WriteFactories<I, P, W>, entries: seq<Entry>): Result<W, Failure> {
    var l :- ScanWrite(f, WriteLocals(None, None), entries);
    CombineWrite(f, l)
  }

  method NewWriteDataParams<I, P, W>(f: WriteFactories<I, P, W>, entries: seq<Entry>) returns (r: Result<W, Failure>)
    ensures r == WriteDataParamsOf(f, entries)
  {
    var insert: Option<I> := None;
    var point: Option<P> := None;
    ghost var outcome := ScanWrite(f, WriteLocals(None, None), entries);

    for i := 0 to |entries|
      invariant ScanWrite(f, WriteLocals(insert, point), entries[i..]) == outcome
    {
      var uriName := entries[i].key;
      var paramValues := entries[i].values;
      assert entries[i..][0] == entries[i] && entries[i..][1..] == entries[i + 1..];

      if uriName == InsertName {
        var str := OptionalParam(uriName, paramValues);
        if str.Err? {
          return Err(str.error);
        }
        if str.value.Some? {
          var value := f.insert(str.value.value);
          if value.None? {
            return Err(UnrecognizedInsert(str.value.value));
          }
          insert := value;
        }
      } else if uriName == PointName {
        var str := OptionalParam(uriName, paramValues);
        if str.Err? {
          return Err(str.error);
        }
        if str.value.Some? {
          var value := f.point(str.value.value);
          if value.Err? {
            return Err(IllegalArgument(value.error));
          }
          point := Some(value.value);
        }
      } else {
        return Err(BadWriteParameter(uriName));
      }
    }

    assert entries[|entries|..] == [];
    var combined := f.combine(insert, point);
    if combined.Err? {
      return Err(DocumentedDefault("Invalid query parameters: " + combined.error));
    }
    return Ok(combined.value);
  }

  lemma {:induction false} ScanWriteAppend<I, P, W>(f: WriteFactories<I, P, W>, l: WriteLocals<I, P>, a: seq<Entry>, b: seq<Entry>)
    ensures ScanWrite(f, l, a + b) ==
            match ScanWrite(f, l, a)
            case Ok(next) => ScanWrite(f, next, b)
            case Err(e) => Err(e)
    decreases |a|
  {
    if a == [] {
      assert a + b == b;
    } else {
      assert (a + b)[0] == a[0] && (a + b)[1..] == a[1..] + b;
      match WriteStep(f, l, a[0])
      case Ok(next) => ScanWriteAppend(f, next, a[1..], b);
      case Err(_) =>
    }
  }

  /** Once the entries before `e` are accepted, `e` fails the request as soon as its own step fails. */
  lemma WriteStepFailure<I, P, W>(f: WriteFactories<I, P, W>, pre: seq<Entry>, e: Entry, post: seq<Entry>)
    requires ScanWrite(f, WriteLocals(None, None), pre).Ok?
    requires WriteStep(f, ScanWrite(f, WriteLocals(None, None), pre).value, e).Err?
    ensures WriteDataParamsOf(f, pre + [e] + post) == Err(WriteStep(f, ScanWrite(f, WriteLocals(None, None), pre).value, e).error)
  {
    ScanWriteAppend(f, WriteLocals(None, None), pre, [e] + post);
    assert pre + [e] + post == pre + ([e] + post);
    assert ([e] + post)[0] == e && ([e] + post)[1..] == post;
  }

  /** A write accepts no name other than `insert` and `point`: any other is rejected with PROTOCOL/BAD_ELEMENT. */
  lemma UnknownWriteParameter<I, P, W>(f: WriteFactories<I, P, W>, pre: seq<Entry>, e: Entry, post: seq<Entry>)
    requires ScanWrite(f, WriteLocals(None, None), pre).Ok?
    requires e.key != InsertName && e.key != PointName
    ensures WriteDataParamsOf(f, pre + [e] + post) == Err(Documented("Bad parameter for post: " + e.key, Protocol, BadElement))
  {
    WriteStepFailure(f, pre, e, post);
  }

  /** An `insert` value the factory does not recognise is rejected with PROTOCOL/BAD_ELEMENT. */
  lemma UnrecognizedInsertValue<I, P, W>(f: WriteFactories<I, P, W>, pre: seq<Entry>, e: Entry, post: seq<Entry>, str: string)
    requires ScanWrite(f, WriteLocals(None, None), pre).Ok?
    requires e.key == InsertName && e.values == [str] && f.insert(str).None?
    ensures WriteDataParamsOf(f, pre + [e] + post)
            == Err(Documented("Unrecognized insert parameter value '" + str + "'", Protocol, BadElement))
  {
    WriteStepFailure(f, pre, e, post);
  }

  /** `insert` or `point` given more than once is rejected with PROTOCOL/INVALID_VALUE. */
  lemma RepeatedWriteParameter<I, P, W>(f: WriteFactories<I, P, W>, pre: seq<Entry>, e: Entry, post: seq<Entry>)
    requires ScanWrite(f, WriteLocals(None, None), pre).Ok?
    requires (e.key == InsertName || e.key == PointName) && |e.values| >= 2
    ensures WriteDataParamsOf(f, pre + [e] + post)
            == Err(Documented("Parameter " + e.key + " can appear at most once in request URI", Protocol, InvalidValue))
  {
    WriteStepFailure(f, pre, e, post);
  }

  /** The point factory's IllegalArgumentException leaves the request unwrapped. */
  lemma PointFailureEscapes<I, P, W>(f: WriteFactories<I, P, W>, pre: seq<Entry>, e: Entry, post: seq<Entry>, str: string, message: string)
    requires ScanWrite(f, WriteLocals(None, None), pre).Ok?
    requires e.key == PointName && e.values == [str] && f.point(str) == Err(message)
    ensures WriteDataParamsOf(f, pre + [e] + post) == Err(IllegalArgument(message))
  {
    WriteStepFailure(f, pre, e, post);
  }

  /** Without an entry carrying a value for it, a local stays as it was; so with no entries both stay null. */
  lemma {:induction false} ScanWriteKeepsUnset<I, P, W>(f: WriteFactories<I, P, W>, l: WriteLocals<I, P>, entries: seq<Entry>)
    requires ScanWrite(f, l, entries).Ok?
    ensures (forall i | 0 <= i < |entries| :: entries[i].key != InsertName || entries[i].values == [])
              ==> ScanWrite(f, l, entries).value.insert == l.insert
    ensures (forall i | 0 <= i < |entries| :: entries[i].key != PointName || entries[i].values == [])
              ==> ScanWrite(f, l, entries).value.point == l.point
    decreases |entries|
  {
    if entries != [] {
      var next := WriteStep(f, l, entries[0]).value;
      ScanWriteKeepsUnset(f, next, entries[1..]);
      assert forall i | 1 <= i < |entries| :: entries[1..][i - 1] == entries[i];
    }
  }

  /** With no entries the write is combined from a null insert and a null point. */
  lemma EmptyQueryWrite<I, P, W>(f: WriteFactories<I, P, W>)
    ensures WriteDataParamsOf(f, []) == CombineWrite(f, WriteLocals(None, None))
  {
  }

  /** When the combination rejects the insert and point collected, the query is reported as invalid. */
  lemma InvalidWriteCombination<I, P, W>(f: WriteFactories<I, P, W>, entries: seq<Entry>, message: string)
    requires ScanWrite(f, WriteLocals(None, None), entries).Ok?
    requires var l := ScanWrite(f, WriteLocals(None, None), entries).value; f.combine(l.insert, l.point) == Err(message)
    ensures WriteDataParamsOf(f, entries) == Err(DocumentedDefault("Invalid query parameters: " + message))
  {
  }
}
