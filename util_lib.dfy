// The small helpers of the WASM utility crate: character-count
// truncation, post-increment, a run-at-most-once drop guard and the
// logging adapters of Result and Option (logging itself is left out).

module UtilLib {
  import opened Wrappers

  /// The first `maxChars` characters of `s`, or `s` when it is no longer.
  function Truncate(s: string, maxChars: nat): (r: string)
    ensures |r| == if |s| <= maxChars then |s| else maxChars
    ensures r <= s
  {
    if |s| <= maxChars then s else s[..maxChars]
  }

  /// The last `maxChars` characters of `s`, or `s` when it is no longer.
  function TruncateAndRemoveFront(s: string, maxChars: nat): (r: string)
    ensures |r| == if |s| <= maxChars then |s| else maxChars
    ensures r == s[|s| - |r|..]
  {
    if |s| <= maxChars then s
    else
      var skip := |s| - maxChars;
      s[skip..]
  }

  /// Cutting `s` after `k` characters: the kept front and the kept back
  /// put together give `s` back.
  lemma TruncateSplit(s: string, k: nat)
    requires k <= |s|
    ensures Truncate(s, k) + TruncateAndRemoveFront(s, |s| - k) == s
  {
    assert s[..k] + s[k..] == s;
  }

  /// Truncating twice to the same width changes nothing more.
  lemma TruncateIdempotent(s: string, maxChars: nat)
    ensures Truncate(Truncate(s, maxChars), maxChars) == Truncate(s, maxChars)
    ensures TruncateAndRemoveFront(TruncateAndRemoveFront(s, maxChars), maxChars) ==
            TruncateAndRemoveFront(s, maxChars)
  {
  }

  /// `post_inc` on the place holding `value`: the old value is returned
  /// and the place then holds the next one.
  method PostInc(value: nat) returns (prev: nat, next: nat)
    ensures prev == value && next == prev + 1
  {
    prev := value;
    next := value + 1;
  }

  /// A guard holding a callback of type F that it invokes when dropped.
  /// `ran` records the callbacks invoked so far.
  class Deferred<F> {
    var callback: Option<F>
    var ran: seq<F>
    var dropped: bool

    /// The callback runs at most once, and only once it has been taken.
    ghost predicate Valid()
      reads this
    {
      && |ran| <= 1
      && (callback.Some? ==> ran == [])
      && (dropped ==> callback.None?)
    }

    constructor (f: F)
      ensures Valid() && callback == Some(f) && ran == [] && !dropped
    {
      callback := Some(f);
      ran := [];
      dropped := false;
    }

    /// Dropping takes the callback and runs it if it was still there.
    method Drop()
      requires Valid() && !dropped
      modifies this
      ensures Valid() && dropped && callback.None?
      ensures ran == if old(callback).Some? then old(ran) + [old(callback).value] else old(ran)
    {
      if callback.Some? {
        var f := callback.value;
        callback := None;
        ran := ran + [f];
      }
      dropped := true;
    }

    /// Aborting takes the callback without running it; the guard is then
    /// dropped, which finds nothing to run.
    method Abort()
      requires Valid() && !dropped
      modifies this
      ensures Valid() && dropped && callback.None? && ran == old(ran)
    {
      callback := None;
      Drop();
    }
  }

  method Defer<F>(f: F) returns (d: Deferred<F>)
    ensures fresh(d) && d.Valid() && d.callback == Some(f) && d.ran == [] && !d.dropped
  {
    d := new Deferred(f);
  }

  /// The life of one guard: the callback has run exactly once at the end
  /// unless the guard was aborted, and then never.
  method DeferredLifetime<F>(f: F, abort: bool) returns (ran: seq<F>)
    ensures abort ==> ran == []
    ensures !abort ==> ran == [f]
  {
    var d := Defer(f);
    if abort {
      d.Abort();
    } else {
      d.Drop();
    }
    ran := d.ran;
  }

  /// A line written to the `log` facade.
  datatype LogLevel = Error | Warn
  datatype LogRecord = LogRecord(level: LogLevel, message: string)

  /// `log_err`: the success value, or None after logging the error's
  /// `Debug` text (`debug`) at error level. The result pairs the value
  /// with the records logged.
  function LogErr<T, E>(r: Result<T, E>, debug: E -> string): (out: (Option<T>, seq<LogRecord>))
    ensures out.0.Some? <==> r.Ok?
    ensures out.0.Some? ==> out.0.value == r.value
    ensures r.Ok? ==> out.1 == []
    ensures r.Err? ==> out.1 == [LogRecord(Error, debug(r.error))]
  {
    match r
    case Ok(v) => (Some(v), [])
    case Err(e) => (None, [LogRecord(Error, debug(e))])
  }

  /// `warn_on_err`: a separate entry point from `log_err` that differs only
  /// in logging at warning level.
  function WarnOnErr<T, E>(r: Result<T, E>, debug: E -> string): (out: (Option<T>, seq<LogRecord>))
    ensures out.0.Some? <==> r.Ok?
    ensures out.0.Some? ==> out.0.value == r.value
    ensures r.Ok? ==> out.1 == []
    ensures r.Err? ==> out.1 == [LogRecord(Warn, debug(r.error))]
  {
    match r
    case Ok(v) => (Some(v), [])
    case Err(e) => (None, [LogRecord(Warn, debug(e))])
  }

  /// `log_none` hands `o` back unchanged and warns with `msg` when it is None.
  function LogNone<T>(o: Option<T>, msg: string): (out: (Option<T>, seq<LogRecord>))
    ensures out.0 == o
    ensures o.Some? ==> out.1 == []
    ensures o.None? ==> out.1 == [LogRecord(Warn, msg)]
  {
    if o.None? then (o, [LogRecord(Warn, msg)]) else (o, [])
  }

  /// The two result adapters yield the same value and log the same text;
  /// only the level differs. Chained into `log_none`, a failure is logged
  /// twice, once by each adapter, and a success not at all.
  lemma LogAdapters<T, E>(r: Result<T, E>, debug: E -> string, msg: string)
    ensures LogErr(r, debug).0 == WarnOnErr(r, debug).0
    ensures |LogErr(r, debug).1| == |WarnOnErr(r, debug).1| <= 1
    ensures forall i | 0 <= i < |LogErr(r, debug).1| ::
      LogErr(r, debug).1[i].message == WarnOnErr(r, debug).1[i].message &&
      LogErr(r, debug).1[i].level == Error && WarnOnErr(r, debug).1[i].level == Warn
    ensures var (v, logged) := LogErr(r, debug);
      |logged + LogNone(v, msg).1| == (if r.Ok? then 0 else 2)
  {
  }
}
