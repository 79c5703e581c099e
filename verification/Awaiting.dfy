/** What the agent loop awaits: code that is not its own and may throw. Which of its calls
    throw is fixed by a Host, an arbitrary function, so that what a run does can be stated of
    the host it runs in. */
module Awaiting {
  import opened Messages

  /** How an awaited step ended. A thrown error passes through every caller up to the run. */
  datatype Awaited = Normal | Thrown(error: string) {
    predicate IsFailure() {
      Thrown?
    }

    function PropagateFailure(): Awaited
      requires IsFailure()
    {
      this
    }
  }

  /** The code around a run: its listeners, given everything emitted so far, the newest event
      last; and its other calls (context transforms, key lookup, the model stream and its
      result, the after hook), numbered as they are made. */
  datatype Host = Host(listeners: seq<Event> -> Awaited, calls: nat -> Awaited)

  /** How the listeners of event i - 1 of a trace end. */
  function HeardAt(host: Host, trace: seq<Event>, i: nat): Awaited
    requires 0 < i <= |trace|
  {
    host.listeners(trace[..i])
  }

  /** Nothing outside threw in a run that emitted trace and made n other calls. */
  ghost predicate NothingThrew(host: Host, trace: seq<Event>, n: nat) {
    && (forall i :: 0 < i <= |trace| ==> HeardAt(host, trace, i).Normal?)
    && (forall k: nat :: k < n ==> host.calls(k).Normal?)
  }

  /** Something outside threw this error. */
  ghost predicate ThrownBy(host: Host, trace: seq<Event>, n: nat, error: string) {
    || (exists i :: 0 < i <= |trace| && HeardAt(host, trace, i) == Thrown(error))
    || (exists k: nat :: k < n && host.calls(k) == Thrown(error))
  }

  /** Nothing outside ever throws. */
  ghost predicate NeverThrows(host: Host) {
    && (forall trace :: host.listeners(trace).Normal?)
    && (forall k :: host.calls(k).Normal?)
  }

  /** The errors thrown outside so far. */
  ghost predicate Recorded(host: Host, trace: seq<Event>, n: nat, errors: seq<string>) {
    && (forall i :: 0 < i <= |trace| && HeardAt(host, trace, i).Thrown? ==> HeardAt(host, trace, i).error in errors)
    && (forall k: nat :: k < n && host.calls(k).Thrown? ==> host.calls(k).error in errors)
    && (forall error :: error in errors ==> ThrownBy(host, trace, n, error))
  }

  function Raised(errors: seq<string>, r: Awaited): seq<string> {
    if r.Thrown? then errors + [r.error] else errors
  }

  lemma NothingRecorded(host: Host)
    ensures Recorded(host, [], 0, [])
  {
  }

  lemma HeardBefore(host: Host, trace: seq<Event>, longer: seq<Event>, i: nat)
    requires trace <= longer && 0 < i <= |trace|
    ensures HeardAt(host, longer, i) == HeardAt(host, trace, i)
  {
    assert longer[..i] == trace[..i];
  }

  lemma HeardLast(host: Host, trace: seq<Event>)
    requires trace != []
    ensures HeardAt(host, trace, |trace|) == host.listeners(trace)
  {
    assert trace[..|trace|] == trace;
  }

  lemma ThrewStays(host: Host, trace: seq<Event>, n: nat, longer: seq<Event>, m: nat, error: string)
    requires ThrownBy(host, trace, n, error) && trace <= longer && n <= m
    ensures ThrownBy(host, longer, m, error)
  {
    hide HeardAt;
    if i :| 0 < i <= |trace| && HeardAt(host, trace, i) == Thrown(error) {
      HeardBefore(host, trace, longer, i);
    }
  }

  lemma RecordedEvent(host: Host, trace: seq<Event>, n: nat, errors: seq<string>, e: Event)
    requires Recorded(host, trace, n, errors)
    ensures Recorded(host, trace + [e], n, Raised(errors, host.listeners(trace + [e])))
  {
    hide ThrownBy, HeardAt;
    var longer, all := trace + [e], Raised(errors, host.listeners(trace + [e]));
    HeardLast(host, longer);
    forall i | 0 < i <= |longer| && HeardAt(host, longer, i).Thrown? ensures HeardAt(host, longer, i).error in all {
      if i <= |trace| {
        HeardBefore(host, trace, longer, i);
      }
    }
    forall error | error in all ensures ThrownBy(host, longer, n, error) {
      if error in errors {
        ThrewStays(host, trace, n, longer, n, error);
      } else {
        EventThrew(host, longer, n, error);
      }
    }
  }

  lemma EventThrew(host: Host, trace: seq<Event>, n: nat, error: string)
    requires trace != [] && host.listeners(trace) == Thrown(error)
    ensures ThrownBy(host, trace, n, error)
  {
    HeardLast(host, trace);
  }

  lemma RecordedCall(host: Host, trace: seq<Event>, n: nat, errors: seq<string>)
    requires Recorded(host, trace, n, errors)
    ensures Recorded(host, trace, n + 1, Raised(errors, host.calls(n)))
  {
    hide ThrownBy;
    var all := Raised(errors, host.calls(n));
    forall error | error in all ensures ThrownBy(host, trace, n + 1, error) {
      if error in errors {
        ThrewStays(host, trace, n, trace, n + 1, error);
      } else {
        CallThrew(host, trace, n, error);
      }
    }
  }

  lemma CallThrew(host: Host, trace: seq<Event>, n: nat, error: string)
    requires host.calls(n) == Thrown(error)
    ensures ThrownBy(host, trace, n + 1, error)
  {
  }

  /** No error is recorded exactly when nothing threw. */
  lemma NothingThrewIff(host: Host, trace: seq<Event>, n: nat, errors: seq<string>)
    requires Recorded(host, trace, n, errors)
    ensures errors == [] <==> NothingThrew(host, trace, n)
  {
    hide HeardAt;
    if errors != [] {
      ThrewSomething(host, trace, n, errors[0]);
    }
  }

  lemma ThrewSomething(host: Host, trace: seq<Event>, n: nat, error: string)
    requires ThrownBy(host, trace, n, error)
    ensures !NothingThrew(host, trace, n)
  {
    hide HeardAt;
  }
}
