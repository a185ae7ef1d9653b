/**
 * CheckUpdateTask: fetches the feed, decides whether a newer build exists,
 * OR-accumulates the mandatory flag and truncates the feed it hands on.
 *
 * The installed version code and VersionHelper.isNewerThanLastUpdateTime
 * (a comparison with a watermark stored by the host application) are
 * parameters: `current` and `newer`.
 */
module CheckUpdate {
  import opened Basics
  import opened Feed
  import opened Platform

  /** MAX_NUMBER_OF_VERSIONS. */
  const MaxNumberOfVersions: nat := 25

  /** The qualification rule: a larger version code, or the same one with a newer APK timestamp. */
  function IsNewer(version: int, timestamp: Field<int>, current: int, newer: int -> bool): (qualifies: bool)
    ensures version > current ==> qualifies
    ensures version < current ==> !qualifies
    ensures version == current ==> (qualifies <==> timestamp.Valid? && newer(timestamp.value))
  {
    version > current || (version == current && timestamp.Valid? && newer(timestamp.value))
  }

  /** What one iteration of findNewVersion's loop does with one entry. */
  datatype EntryResult =
    | Throws                      // a JSONException ends the loop
    | Skipped                     // the entry does not qualify
    | Qualified(mandatory: bool)  // the entry qualifies; `mandatory` is what it ORs into the flag

  /**
   * One loop iteration, in the order the getters are called: getJSONObject,
   * getInt("version"), getLong("timestamp") only when the version codes are
   * equal, and getBoolean("mandatory") only for a qualifying entry that has the key.
   */
  function Evaluate(e: JsonValue, current: int, newer: int -> bool): (r: EntryResult)
    ensures r.Qualified? <==>
      e.VersionObject? && e.version.Valid? && IsNewer(e.version.value, e.timestamp, current, newer)
      && !e.mandatory.Invalid?
    ensures r.Qualified? ==> (r.mandatory <==> e.mandatory == Valid(true))
    ensures r.Throws? <==>
      || e.NotAnObject?
      || !e.version.Valid?
      || (e.version.value == current && !e.timestamp.Valid?)
      || (IsNewer(e.version.value, e.timestamp, current, newer) && e.mandatory.Invalid?)
  {
    match e
    case NotAnObject => Throws
    case VersionObject(version, timestamp, mandatory, _) =>
      if !version.Valid? then Throws
      else if version.value == current && !timestamp.Valid? then Throws
      else
        var largerVersionCode := version.value > current;
        var newerApkFile := version.value == current && newer(timestamp.value);
        if !(largerVersionCode || newerApkFile) then Skipped
        else
          match mandatory
          case Missing => Qualified(false)
          case Valid(b) => Qualified(b)
          case Invalid => Throws
  }

  /** The loop's state: newerVersionFound, the mandatory bits ORed in so far, and whether it threw. */
  datatype ScanState = ScanState(found: bool, mandatory: bool, threw: bool)

  function Step(s: ScanState, r: EntryResult): ScanState
  {
    if s.threw then s
    else
      match r
      case Throws => s.(threw := true)
      case Skipped => s
      case Qualified(m) => ScanState(true, s.mandatory || m, false)
  }

  /** The loop of findNewVersion over the whole feed, starting from a clear flag. */
  function Scan(feed: seq<JsonValue>, current: int, newer: int -> bool): (s: ScanState)
    ensures s.mandatory ==> s.found
    ensures s.found ==> |feed| > 0
  {
    if feed == [] then ScanState(false, false, false)
    else Step(Scan(feed[..|feed| - 1], current, newer), Evaluate(feed[|feed| - 1], current, newer))
  }

  /** findNewVersion's result: false once an entry threw. */
  function NewVersionFound(feed: seq<JsonValue>, current: int, newer: int -> bool): (found: bool)
    ensures found ==> exists i :: 0 <= i < |feed| && Evaluate(feed[i], current, newer).Qualified?
    ensures found ==> forall i :: 0 <= i < |feed| ==> !Evaluate(feed[i], current, newer).Throws?
  {
    ScanCharacterized(feed, current, newer);
    var s := Scan(feed, current, newer);
    s.found && !s.threw
  }

  /** No entry before index k makes the loop throw. */
  predicate NoThrowBefore(feed: seq<JsonValue>, k: int, current: int, newer: int -> bool)
    requires 0 <= k <= |feed|
  {
    forall j :: 0 <= j < k ==> !Evaluate(feed[j], current, newer).Throws?
  }

  /** An entry that qualifies and carries "mandatory": true. */
  predicate DeclaresMandatoryUpdate(e: JsonValue, current: int, newer: int -> bool)
  {
    e.VersionObject? && e.version.Valid? && IsNewer(e.version.value, e.timestamp, current, newer)
    && e.mandatory == Valid(true)
  }

  /** The scan, entry by entry: what it threw on, found, and accumulated. */
  lemma {:induction false} ScanCharacterized(feed: seq<JsonValue>, current: int, newer: int -> bool)
    ensures Scan(feed, current, newer).threw <==>
      exists i :: 0 <= i < |feed| && Evaluate(feed[i], current, newer).Throws?
    ensures Scan(feed, current, newer).found <==>
      exists i :: 0 <= i < |feed| && Evaluate(feed[i], current, newer).Qualified? && NoThrowBefore(feed, i, current, newer)
    ensures Scan(feed, current, newer).mandatory <==>
      exists i :: 0 <= i < |feed| && Evaluate(feed[i], current, newer) == Qualified(true) && NoThrowBefore(feed, i, current, newer)
  {
    if feed != [] {
      var n := |feed|;
      var prefix := feed[..n - 1];
      ScanCharacterized(prefix, current, newer);
      var s := Scan(prefix, current, newer);
      var r := Evaluate(feed[n - 1], current, newer);
      assert Scan(feed, current, newer) == Step(s, r);
      forall i | 0 <= i <= n - 1
        ensures NoThrowBefore(feed, i, current, newer) == NoThrowBefore(prefix, i, current, newer)
      {
        assert forall j :: 0 <= j < i ==> feed[j] == prefix[j];
      }
      assert NoThrowBefore(feed, n - 1, current, newer) <==> !s.threw;
    }
  }

  /** Once an entry has thrown, the rest of the feed changes nothing. */
  lemma {:induction false} ThrowIsFinal(feed: seq<JsonValue>, k: nat, current: int, newer: int -> bool)
    requires k <= |feed|
    requires Scan(feed[..k], current, newer).threw
    ensures Scan(feed, current, newer) == Scan(feed[..k], current, newer)
    decreases |feed| - k
  {
    if k < |feed| {
      var prefix := feed[..|feed| - 1];
      assert prefix[..k] == feed[..k];
      ThrowIsFinal(prefix, k, current, newer);
    } else {
      assert feed[..k] == feed;
    }
  }

  /** findNewVersion answers true iff no entry is malformed and at least one entry qualifies. */
  lemma NewVersionFoundIff(feed: seq<JsonValue>, current: int, newer: int -> bool)
    ensures NewVersionFound(feed, current, newer) <==>
      (forall i :: 0 <= i < |feed| ==> !Evaluate(feed[i], current, newer).Throws?)
      && (exists i :: 0 <= i < |feed| && Evaluate(feed[i], current, newer).Qualified?)
  {
    ScanCharacterized(feed, current, newer);
  }

  /**
   * The flag is set exactly by a qualifying entry with "mandatory": true that
   * comes before the first malformed entry; non-qualifying entries never set it.
   */
  lemma MandatorySource(feed: seq<JsonValue>, current: int, newer: int -> bool)
    ensures Scan(feed, current, newer).mandatory <==>
      exists i :: 0 <= i < |feed| && DeclaresMandatoryUpdate(feed[i], current, newer) && NoThrowBefore(feed, i, current, newer)
  {
    ScanCharacterized(feed, current, newer);
    forall i | 0 <= i < |feed|
      ensures Evaluate(feed[i], current, newer) == Qualified(true) <==> DeclaresMandatoryUpdate(feed[i], current, newer)
    {
    }
  }

  /** Reading more of the feed never turns the flag back from true to false. */
  lemma MandatoryMonotone(feed: seq<JsonValue>, k: nat, current: int, newer: int -> bool)
    requires k <= |feed|
    ensures Scan(feed[..k], current, newer).mandatory ==> Scan(feed, current, newer).mandatory
  {
    var prefix := feed[..k];
    ScanCharacterized(prefix, current, newer);
    ScanCharacterized(feed, current, newer);
    if Scan(prefix, current, newer).mandatory {
      var i :| 0 <= i < |prefix| && Evaluate(prefix[i], current, newer) == Qualified(true) && NoThrowBefore(prefix, i, current, newer);
      assert prefix[i] == feed[i];
      assert forall j :: 0 <= j < i ==> prefix[j] == feed[j];
      assert NoThrowBefore(feed, i, current, newer);
    }
  }

  /** A well-formed feed with an entry whose version code is larger than the installed one reports an update. */
  lemma LargerVersionMeansUpdate(feed: seq<JsonValue>, k: nat, current: int, newer: int -> bool)
    requires forall i :: 0 <= i < |feed| ==> !Evaluate(feed[i], current, newer).Throws?
    requires k < |feed| && feed[k].VersionObject? && feed[k].version.Valid? && feed[k].version.value > current
    ensures NewVersionFound(feed, current, newer)
  {
    NewVersionFoundIff(feed, current, newer);
    assert Evaluate(feed[k], current, newer).Qualified?;
  }

  /** A malformed entry anywhere in the feed hides every update. */
  lemma MalformedEntryHidesUpdate(feed: seq<JsonValue>, k: nat, current: int, newer: int -> bool)
    requires k < |feed| && Evaluate(feed[k], current, newer).Throws?
    ensures !NewVersionFound(feed, current, newer)
  {
    NewVersionFoundIff(feed, current, newer);
  }

  /** A non-qualifying entry with "mandatory": true is ignored: the update is found, but not mandatory. */
  lemma NonQualifyingMandatoryIgnored(current: int, newer: int -> bool)
    ensures var feed := [VersionObject(Valid(current - 1), Missing, Valid(true), None),
                         VersionObject(Valid(current + 1), Missing, Missing, None)];
      NewVersionFound(feed, current, newer) && !Scan(feed, current, newer).mandatory
  {
    var feed := [VersionObject(Valid(current - 1), Missing, Valid(true), None),
                 VersionObject(Valid(current + 1), Missing, Missing, None)];
    assert feed[..|feed| - 1] == [feed[0]];
    assert [feed[0]][..0] == [];
    assert Evaluate(feed[0], current, newer) == Skipped;
    assert Scan([feed[0]], current, newer) == ScanState(false, false, false);
    assert Evaluate(feed[1], current, newer) == Qualified(false);
  }

  /** The feed limitResponseSize hands on: its first min(n, 25) entries in their order. */
  function Truncated(feed: seq<JsonValue>): (r: seq<JsonValue>)
    ensures |r| == Min(|feed|, MaxNumberOfVersions)
    ensures r <= feed
  {
    feed[..Min(|feed|, MaxNumberOfVersions)]
  }

  /** limitResponseSize: copies entries into a new array up to the cap. */
  method LimitResponseSize(json: seq<JsonValue>) returns (result: seq<JsonValue>)
    ensures result == Truncated(json)
  {
    result := [];
    var index := 0;
    while index < Min(|json|, MaxNumberOfVersions)
      invariant 0 <= index <= Min(|json|, MaxNumberOfVersions)
      invariant result == json[..index]
    {
      result := result + [json[index]];
      index := index + 1;
    }
  }

  /**
   * doInBackground's result: null (None) without a live context, on a fetch or
   * parse error, or when no entry qualifies; otherwise the truncated feed.
   */
  function CheckResult(contextAlive: bool, fetch: FetchOutcome, current: int, newer: int -> bool): (r: Option<seq<JsonValue>>)
    ensures r.Some? <==> contextAlive && fetch.Fetched? && NewVersionFound(fetch.feed, current, newer)
    ensures r.Some? ==> 0 < |r.value| <= MaxNumberOfVersions && r.value <= fetch.feed
    ensures r.Some? ==> r.value == Truncated(fetch.feed)
  {
    if !contextAlive then None
    else
      match fetch
      case Fetched(feed) =>
        if NewVersionFound(feed, current, newer) then Some(Truncated(feed)) else None
      case _ => None
  }

  /** onPostExecute: exactly one listener callback when there is a listener, none otherwise. */
  function ListenerCalls(hasListener: bool, updateInfo: Option<seq<JsonValue>>): (r: seq<Action>)
    ensures |r| == if hasListener then 1 else 0
    ensures hasListener && updateInfo.Some? ==> r[0] == OnUpdateAvailable(updateInfo.value)
    ensures hasListener && updateInfo.None? ==> r[0] == OnNoUpdateAvailable
  {
    if !hasListener then []
    else if updateInfo.Some? then [OnUpdateAvailable(updateInfo.value)]
    else [OnNoUpdateAvailable]
  }

  /** AsyncTask.Status. */
  datatype Status = Pending | Running | Finished

  class CheckUpdateTask {
    var updateFeed: Option<string>
    var weakContext: Ref<Context>
    var mandatory: bool
    const listener: Option<Listener>
    /** The AsyncTask lifecycle: its status, and whether cancel(true) was called. */
    var status: Status
    var cancelled: bool

    /** Keeps a weak reference to the application context, and only if the given context is alive. */
    constructor (weakContext: Ref<Context>, updateFeed: string, listener: Option<Listener>)
      ensures this.weakContext == if weakContext.Get().Some? then Weak(Some(ApplicationContext)) else Null
      ensures this.updateFeed == Some(updateFeed) && this.listener == listener
      ensures !mandatory && status == Pending && !cancelled
    {
      this.updateFeed := Some(updateFeed);
      this.listener := listener;
      this.weakContext := Null;
      mandatory := false;
      status := Pending;
      cancelled := false;
      new;
      if weakContext.Get().Some? {
        this.weakContext := Weak(Some(ApplicationContext));
      }
    }

    /** A null or collected reference leaves the stored context as it was. */
    method Attach(weakContext: Ref<Context>)
      modifies this`weakContext
      ensures weakContext.Get().Some? ==> this.weakContext == Weak(Some(ApplicationContext))
      ensures weakContext.Get().None? ==> this.weakContext == old(this.weakContext)
    {
      if weakContext.Get().Some? {
        this.weakContext := Weak(Some(ApplicationContext));
      }
    }

    method Detach()
      modifies this`weakContext
      ensures weakContext == Null
    {
      weakContext := Null;
    }

    method CleanUp()
      modifies this`updateFeed
      ensures updateFeed == None
    {
      updateFeed := None;
    }

    /** AsyncTaskUtils.execute: only a task that has not run yet may be executed. */
    method Execute()
      requires status == Pending
      modifies this`status
      ensures status == Running
    {
      status := Running;
    }

    /** cancel(true): the result is then delivered to onCancelled, not onPostExecute. */
    method Cancel()
      modifies this`cancelled
      ensures cancelled
    {
      cancelled := true;
    }

    /** findNewVersion: visits every entry, ORing the mandatory bits of the qualifying ones into the field. */
    method FindNewVersion(feed: seq<JsonValue>, current: int, newer: int -> bool) returns (found: bool)
      modifies this`mandatory
      ensures found == NewVersionFound(feed, current, newer)
      ensures mandatory == (old(mandatory) || Scan(feed, current, newer).mandatory)
    {
      var newerVersionFound := false;
      var index := 0;
      while index < |feed|
        invariant 0 <= index <= |feed|
        invariant !Scan(feed[..index], current, newer).threw
        invariant newerVersionFound == Scan(feed[..index], current, newer).found
        invariant mandatory == (old(mandatory) || Scan(feed[..index], current, newer).mandatory)
      {
        var entry := feed[index];
        assert feed[..index + 1][..index] == feed[..index];
        if entry.NotAnObject? || !entry.version.Valid? {
          ThrowIsFinal(feed, index + 1, current, newer);
          return false;
        }
        var largerVersionCode := entry.version.value > current;
        if entry.version.value == current && !entry.timestamp.Valid? {
          ThrowIsFinal(feed, index + 1, current, newer);
          return false;
        }
        var newerApkFile := entry.version.value == current && newer(entry.timestamp.value);
        if largerVersionCode || newerApkFile {
          if !entry.mandatory.Missing? {
            if entry.mandatory.Invalid? {
              ThrowIsFinal(feed, index + 1, current, newer);
              return false;
            }
            mandatory := mandatory || entry.mandatory.value;
          }
          newerVersionFound := true;
        }
        index := index + 1;
      }
      assert feed[..index] == feed;
      found := newerVersionFound;
    }

    /**
     * doInBackground. `fetch` is what the connection would deliver; it is not
     * consulted without a live context. A failed fetch or parse is reported to
     * the log only when the device is connected.
     */
    method DoInBackground(fetch: FetchOutcome, current: int, newer: int -> bool, connected: bool)
      returns (result: Option<seq<JsonValue>>, fetchAttempted: bool, errorReported: bool)
      modifies this`mandatory
      ensures result == CheckResult(weakContext.Get().Some?, fetch, current, newer)
      ensures fetchAttempted <==> weakContext.Get().Some?
      ensures errorReported <==> fetchAttempted && !fetch.Fetched? && connected
      ensures mandatory == (old(mandatory) || (fetchAttempted && fetch.Fetched? && Scan(fetch.feed, current, newer).mandatory))
    {
      result, fetchAttempted, errorReported := None, false, false;
      var context := weakContext.Get();
      if context.None? {
        return;
      }
      fetchAttempted := true;
      match fetch
      case Fetched(feed) =>
        var found := FindNewVersion(feed, current, newer);
        if found {
          var limited := LimitResponseSize(feed);
          result := Some(limited);
        }
      case _ =>
        errorReported := connected;
    }

    /** onPostExecute: hands the result to the listener. */
    method OnPostExecute(updateInfo: Option<seq<JsonValue>>) returns (calls: seq<Action>)
      ensures calls == ListenerCalls(listener.Some?, updateInfo)
    {
      calls := [];
      if updateInfo.Some? {
        if listener.Some? {
          calls := [OnUpdateAvailable(updateInfo.value)];
        }
      } else {
        if listener.Some? {
          calls := [OnNoUpdateAvailable];
        }
      }
    }

    /** The rest of an executed task's life: the background phase, then onPostExecute unless cancelled. */
    method Complete(fetch: FetchOutcome, current: int, newer: int -> bool, connected: bool) returns (calls: seq<Action>)
      requires status == Running
      modifies this`mandatory, this`status
      ensures status == Finished
      ensures calls == if cancelled then [] else ListenerCalls(listener.Some?, CheckResult(weakContext.Get().Some?, fetch, current, newer))
      ensures mandatory == (old(mandatory) || (weakContext.Get().Some? && fetch.Fetched? && Scan(fetch.feed, current, newer).mandatory))
    {
      var result, _, _ := DoInBackground(fetch, current, newer, connected);
      calls := [];
      if !cancelled {
        calls := OnPostExecute(result);
      }
      status := Finished;
    }
  }
}
