/**
 * The browser-side workshop analytics tracker: a configuration with
 * defaults, a queue of events that `track` fills and `flush` drains in
 * batches, the asynchronous re-queue of a batch whose `fetch` was rejected,
 * the privacy switches `optOut`/`optIn`, and the module name read out of a
 * URL.  The clock, `window.location`, the stored user and session ids and
 * the browser's choice between `sendBeacon` and `fetch` are parameters.
 */
module Analytics {
  import opened Options
  import opened Strings
  import opened JsValues

  /** The own properties of a plain object, in insertion order. */
  type Props = seq<(string, Value)>

  /** `{ eventName, eventData }` as queued by `track`. */
  datatype Event = Event(eventName: string, eventData: Props)

  /** What `window.location` and `Date.now()` give while one call runs. */
  datatype Env = Env(now: int, href: string, pathname: string)

  /*
   * Configuration
   */

  /**
   * The constructor's `config` argument; `None` is an absent property.
   * `enabled` is kept as a JavaScript value because it is tested with `!==`.
   */
  datatype ConfigInput = ConfigInput(endpoint: Option<string>, userId: Option<string>,
                                     batchSize: Option<int>, enabled: Value)

  datatype Config = Config(endpoint: string, userId: string, sessionId: string,
                           batchSize: int, enabled: bool)

  const DefaultEndpoint: string := "/api/analytics"
  const DefaultBatchSize: int := 10

  /** `x || fallback` for a string that may be absent. */
  function OrElse(x: Option<string>, fallback: string): string {
    if x.Some? && x.value != "" then x.value else fallback
  }

  /**
   * The constructor's defaults: a missing or empty endpoint and user id are
   * replaced, a missing or zero batch size becomes 10, and tracking is on
   * unless `enabled` is exactly `false` (undefined, null, 0 and "" leave it on).
   */
  function ResolveConfig(input: ConfigInput, generatedUserId: string, sessionId: string): (c: Config)
    ensures c.batchSize == DefaultBatchSize <==> input.batchSize.None? || input.batchSize.value in {0, DefaultBatchSize}
    ensures input.batchSize.Some? && input.batchSize.value != 0 ==> c.batchSize == input.batchSize.value
    ensures input.batchSize.None? || input.batchSize.value >= 0 ==> c.batchSize >= 1
    ensures c.enabled <==> input.enabled != Bool(false)
    ensures !Truthy(input.enabled) && input.enabled != Bool(false) ==> c.enabled
    ensures c.sessionId == sessionId
    ensures input.userId.None? ==> c.userId == generatedUserId
    ensures input.endpoint.None? ==> c.endpoint == DefaultEndpoint
  {
    Config(OrElse(input.endpoint, DefaultEndpoint),
           OrElse(input.userId, generatedUserId),
           sessionId,
           if input.batchSize.None? || input.batchSize.value == 0 then DefaultBatchSize else input.batchSize.value,
           input.enabled != Bool(false))
  }

  /*
   * Building an event
   */

  /**
   * `{ ...props, [key]: value }`: an existing property keeps its place and
   * takes the new value, a new one goes last; nothing else changes.
   */
  function Assign(props: Props, key: string, value: Value): (r: Props)
    ensures Lookup(r, key) == value
    ensures forall k :: k != key ==> Lookup(r, k) == Lookup(props, k)
    ensures |props| <= |r| <= |props| + 1
    ensures forall i | 0 <= i < |props| :: r[i].0 == props[i].0
  {
    if props == [] then [(key, value)]
    else if props[0].0 == key then [(key, value)] + props[1..]
    else [props[0]] + Assign(props[1..], key, value)
  }

  const UserIdKey: string := "userId"
  const SessionIdKey: string := "sessionId"
  const TimestampKey: string := "timestamp"
  const UrlKey: string := "url"
  const ModuleKey: string := "module"

  /** The properties `track` writes over whatever the caller passed. */
  predicate IsStamped(key: string) {
    key == UserIdKey || key == SessionIdKey || key == TimestampKey || key == UrlKey || key == ModuleKey
  }

  /**
   * The event `track(name, data)` queues.  The caller's `timestamp` and
   * `module` survive when truthy; the ids always come from the
   * configuration.  (`data.timestamp` and `data.module` are own-property
   * reads: neither name is inherited from Object.prototype.)
   */
  function MakeEvent(c: Config, name: string, data: Props, env: Env): (e: Event)
    ensures e.eventName == name
    ensures Lookup(e.eventData, UserIdKey) == Str(c.userId)
    ensures Lookup(e.eventData, SessionIdKey) == Str(c.sessionId)
    ensures Lookup(e.eventData, UrlKey) == Str(env.href)
    ensures Truthy(Lookup(data, TimestampKey)) ==> Lookup(e.eventData, TimestampKey) == Lookup(data, TimestampKey)
    ensures !Truthy(Lookup(data, TimestampKey)) ==> Lookup(e.eventData, TimestampKey) == Num(env.now)
    ensures Truthy(Lookup(data, ModuleKey)) ==> Lookup(e.eventData, ModuleKey) == Lookup(data, ModuleKey)
    ensures !Truthy(Lookup(data, ModuleKey)) ==> Lookup(e.eventData, ModuleKey) == Str(ModuleOf(env.pathname))
    ensures forall k :: !IsStamped(k) ==> Lookup(e.eventData, k) == Lookup(data, k)
  {
    // The five stamped keys differ, so each `Assign` leaves the others alone.
    assert UserIdKey != SessionIdKey && UserIdKey != TimestampKey && UserIdKey != UrlKey && UserIdKey != ModuleKey
      && SessionIdKey != TimestampKey && SessionIdKey != UrlKey && SessionIdKey != ModuleKey
      && TimestampKey != UrlKey && TimestampKey != ModuleKey && UrlKey != ModuleKey by {
      assert UserIdKey[0] == 'u' && SessionIdKey[0] == 's' && TimestampKey[0] == 't' && ModuleKey[0] == 'm';
      assert |UserIdKey| != |UrlKey|;
    }
    var ts := if Truthy(Lookup(data, TimestampKey)) then Lookup(data, TimestampKey) else Num(env.now);
    var m := if Truthy(Lookup(data, ModuleKey)) then Lookup(data, ModuleKey) else Str(ModuleOf(env.pathname));
    var withIds := Assign(Assign(data, UserIdKey, Str(c.userId)), SessionIdKey, Str(c.sessionId));
    var withTime := Assign(withIds, TimestampKey, ts);
    Event(name, Assign(Assign(withTime, UrlKey, Str(env.href)), ModuleKey, m))
  }

  /** `localStorage.getItem('learning_path') || 'unknown'` */
  function LearningPath(stored: Option<string>): string {
    OrElse(stored, "unknown")
  }

  /** The data of the `session_start` event: the session data plus the current module and learning path. */
  function SessionStartData(sessionData: Props, stored: Option<string>, env: Env): Props {
    Assign(Assign(sessionData, ModuleKey, Str(ModuleOf(env.pathname))), "learningPath", Str(LearningPath(stored)))
  }

  /*
   * The queue as a value
   */

  /**
   * The tracker's state: its configuration, the queue, the batches handed to
   * the network for good (`sendBeacon`, or a `fetch` that resolved) and the
   * batches whose `fetch` has not settled yet.
   */
  datatype Tracker = Tracker(config: Config, queue: seq<Event>, sent: seq<seq<Event>>, inFlight: seq<seq<Event>>)

  function Flatten(batches: seq<seq<Event>>): seq<Event> {
    if batches == [] then [] else batches[0] + Flatten(batches[1..])
  }

  /** Every event the tracker holds, wherever it is. */
  function Content(t: Tracker): multiset<Event> {
    multiset(t.queue) + multiset(Flatten(t.sent)) + multiset(Flatten(t.inFlight))
  }

  function Remove(batches: seq<seq<Event>>, k: nat): (r: seq<seq<Event>>)
    requires k < |batches|
    ensures |r| == |batches| - 1
  {
    batches[..k] + batches[k + 1..]
  }

  /** `flush()`: an empty queue is left alone; otherwise the whole queue goes out as one batch. */
  function AfterFlush(t: Tracker, beacon: bool): (r: Tracker)
    ensures r.config == t.config
    ensures t.queue == [] ==> r == t
    ensures t.queue != [] ==> r.queue == []
  {
    if t.queue == [] then t
    else if beacon then t.(queue := [], sent := t.sent + [t.queue])
    else t.(queue := [], inFlight := t.inFlight + [t.queue])
  }

  /** `track(name, data)`: nothing when disabled; otherwise queue the event and flush at the batch size. */
  function AfterTrack(t: Tracker, beacon: bool, name: string, data: Props, env: Env): (r: Tracker)
    ensures r.config == t.config
    ensures !t.config.enabled ==> r == t
  {
    if !t.config.enabled then t
    else
      var q := t.queue + [MakeEvent(t.config, name, data, env)];
      if |q| >= t.config.batchSize then AfterFlush(t.(queue := q), beacon) else t.(queue := q)
  }

  /** The `catch` handler of a rejected `fetch`: the batch goes back to the head of the queue. */
  function AfterRejection(t: Tracker, k: nat): (r: Tracker)
    requires k < |t.inFlight|
    ensures r.config == t.config && r.sent == t.sent
  {
    t.(queue := t.inFlight[k] + t.queue, inFlight := Remove(t.inFlight, k))
  }

  /** A `fetch` that resolved (with any status): its batch is gone for good. */
  function AfterResolution(t: Tracker, k: nat): (r: Tracker)
    requires k < |t.inFlight|
    ensures r.config == t.config && r.queue == t.queue
  {
    t.(sent := t.sent + [t.inFlight[k]], inFlight := Remove(t.inFlight, k))
  }

  /** `optOut()`: disable, try to track the opt-out (a no-op by then), flush. */
  function AfterOptOut(t: Tracker, beacon: bool, env: Env): Tracker {
    var off := t.(config := t.config.(enabled := false));
    AfterFlush(AfterTrack(off, beacon, "analytics_opt_out", [], env), beacon)
  }

  /** `optIn()`: enable, then track the opt-in. */
  function AfterOptIn(t: Tracker, beacon: bool, env: Env): Tracker {
    AfterTrack(t.(config := t.config.(enabled := true)), beacon, "analytics_opt_in", [], env)
  }

  /*
   * What the queue operations promise
   */

  lemma {:induction false} FlattenAppend(a: seq<seq<Event>>, b: seq<seq<Event>>)
    ensures Flatten(a + b) == Flatten(a) + Flatten(b)
  {
    if a == [] {
      assert a + b == b;
    } else {
      assert (a + b)[1..] == a[1..] + b;
      FlattenAppend(a[1..], b);
    }
  }

  lemma FlattenSnoc(a: seq<seq<Event>>, batch: seq<Event>)
    ensures Flatten(a + [batch]) == Flatten(a) + batch
  {
    FlattenAppend(a, [batch]);
    assert Flatten([batch]) == batch + Flatten([]);
  }

  /** The events of a list of batches, around its `k`-th batch. */
  lemma FlattenAround(batches: seq<seq<Event>>, k: nat)
    requires k < |batches|
    ensures Flatten(batches) == Flatten(batches[..k]) + batches[k] + Flatten(batches[k + 1..])
  {
    var front, rest := batches[..k], batches[k..];
    assert batches == front + rest;
    assert rest[0] == batches[k] && rest[1..] == batches[k + 1..];
    FlattenAppend(front, rest);
  }

  /** Taking a batch out of a list of batches removes exactly its events. */
  lemma FlattenRemove(batches: seq<seq<Event>>, k: nat)
    requires k < |batches|
    ensures multiset(Flatten(batches)) == multiset(Flatten(Remove(batches, k))) + multiset(batches[k])
  {
    var front, x, back := batches[..k], batches[k], batches[k + 1..];
    FlattenAround(batches, k);
    FlattenAppend(front, back);
    var f, b := Flatten(front), Flatten(back);
    assert Flatten(batches) == (f + x) + b;
    assert Flatten(Remove(batches, k)) == f + b;
    assert multiset((f + x) + b) == multiset(f) + multiset(x) + multiset(b);
    assert multiset(f + b) == multiset(f) + multiset(b);
  }

  /**
   * A flush loses and invents nothing: a non-empty queue becomes exactly one
   * new batch, in queue order, and the queue is empty afterwards.
   */
  lemma FlushKeepsEvents(t: Tracker, beacon: bool)
    ensures Content(AfterFlush(t, beacon)) == Content(t)
    ensures t.queue != [] && beacon ==> AfterFlush(t, beacon).sent == t.sent + [t.queue]
    ensures t.queue != [] && !beacon ==> AfterFlush(t, beacon).inFlight == t.inFlight + [t.queue]
    ensures AfterFlush(t, beacon).queue == []
  {
    if t.queue != [] {
      if beacon {
        FlattenSnoc(t.sent, t.queue);
      } else {
        FlattenSnoc(t.inFlight, t.queue);
      }
    }
  }

  /**
   * An enabled `track` adds exactly its one event to what the tracker holds;
   * the queue grows by that event at the tail unless it reached the batch
   * size, in which case the queue, event included, went out as one batch.
   */
  lemma TrackAddsOneEvent(t: Tracker, beacon: bool, name: string, data: Props, env: Env)
    requires t.config.enabled
    ensures Content(AfterTrack(t, beacon, name, data, env)) == Content(t) + multiset{MakeEvent(t.config, name, data, env)}
    ensures |t.queue| + 1 < t.config.batchSize ==>
              AfterTrack(t, beacon, name, data, env).queue == t.queue + [MakeEvent(t.config, name, data, env)]
    ensures |t.queue| + 1 >= t.config.batchSize ==>
              AfterTrack(t, beacon, name, data, env) == AfterFlush(t.(queue := t.queue + [MakeEvent(t.config, name, data, env)]), beacon)
  {
    var u := t.(queue := t.queue + [MakeEvent(t.config, name, data, env)]);
    FlushKeepsEvents(u, beacon);
  }

  /** With a batch size of at least one, the queue is shorter than the batch size whenever an enabled `track` returns. */
  lemma TrackKeepsQueueShort(t: Tracker, beacon: bool, name: string, data: Props, env: Env)
    requires t.config.enabled && t.config.batchSize >= 1
    ensures |AfterTrack(t, beacon, name, data, env).queue| < t.config.batchSize
  {
    var u := t.(queue := t.queue + [MakeEvent(t.config, name, data, env)]);
    FlushKeepsEvents(u, beacon);
  }

  /**
   * With `sendBeacon` and nothing in flight, what was sent followed by what is
   * queued is the tracked events in the order `track` saw them.
   */
  lemma BeaconKeepsOrder(t: Tracker, name: string, data: Props, env: Env)
    requires t.config.enabled
    ensures AfterTrack(t, true, name, data, env).inFlight == t.inFlight
    ensures Flatten(AfterTrack(t, true, name, data, env).sent) + AfterTrack(t, true, name, data, env).queue
            == Flatten(t.sent) + t.queue + [MakeEvent(t.config, name, data, env)]
  {
    var q := t.queue + [MakeEvent(t.config, name, data, env)];
    if |q| >= t.config.batchSize {
      FlattenSnoc(t.sent, q);
    }
  }

  /** A rejected `fetch` puts its batch back ahead of the events queued since, and loses nothing. */
  lemma RejectionRequeues(t: Tracker, k: nat)
    requires k < |t.inFlight|
    ensures AfterRejection(t, k).queue == t.inFlight[k] + t.queue
    ensures AfterRejection(t, k).queue[|t.inFlight[k]|..] == t.queue
    ensures Content(AfterRejection(t, k)) == Content(t)
  {
    FlattenRemove(t.inFlight, k);
  }

  /** A resolved `fetch` moves its batch to the sent batches, and loses nothing. */
  lemma ResolutionKeepsEvents(t: Tracker, k: nat)
    requires k < |t.inFlight|
    ensures Flatten(AfterResolution(t, k).sent) == Flatten(t.sent) + t.inFlight[k]
    ensures Content(AfterResolution(t, k)) == Content(t)
  {
    FlattenRemove(t.inFlight, k);
    FlattenSnoc(t.sent, t.inFlight[k]);
  }

  /**
   * After `optOut` tracking is off and the queue is empty; the opt-out event
   * itself is never queued, so the tracker holds the same events as before.
   */
  lemma OptOutStopsTracking(t: Tracker, beacon: bool, env: Env)
    ensures !AfterOptOut(t, beacon, env).config.enabled
    ensures AfterOptOut(t, beacon, env).queue == []
    ensures Content(AfterOptOut(t, beacon, env)) == Content(t)
  {
    var off := t.(config := t.config.(enabled := false));
    FlushKeepsEvents(off, beacon);
  }

  /** After `optIn` tracking is on and exactly one `analytics_opt_in` event was added. */
  lemma OptInRecordsOneEvent(t: Tracker, beacon: bool, env: Env)
    ensures AfterOptIn(t, beacon, env).config.enabled
    ensures Content(AfterOptIn(t, beacon, env))
            == Content(t) + multiset{MakeEvent(t.config.(enabled := true), "analytics_opt_in", [], env)}
    ensures MakeEvent(t.config.(enabled := true), "analytics_opt_in", [], env).eventName == "analytics_opt_in"
  {
    var on := t.(config := t.config.(enabled := true));
    TrackAddsOneEvent(on, beacon, "analytics_opt_in", [], env);
  }

  /*
   * `/modules\/(\d+)-([^\/]+)/`
   */

  const ModulesPrefix: string := "modules/"

  /**
   * A match of the module pattern: `modules/` at `start`, a run of digits up
   * to the `-` at `dash`, then a non-empty run of characters other than `/`
   * up to `end`.  Both runs are as long as they can be (the quantifiers are
   * greedy, and no shorter digit run can be followed by `-`).
   */
  datatype ModuleMatch = ModuleMatch(start: nat, dash: nat, end: nat)

  predicate IsMatch(s: string, m: ModuleMatch) {
    OccursAt(s, ModulesPrefix, m.start) && m.start + |ModulesPrefix| < m.dash && m.dash + 1 < m.end <= |s|
    && (forall k | m.start + |ModulesPrefix| <= k < m.dash :: IsDigit(s[k]))
    && s[m.dash] == '-'
    && (forall k | m.dash < k < m.end :: s[k] != '/')
    && (m.end == |s| || s[m.end] == '/')
  }

  /** `${match[1]}-${match[2]}` */
  function MatchName(s: string, m: ModuleMatch): string
    requires IsMatch(s, m)
  {
    s[m.start + |ModulesPrefix|..m.dash] + "-" + s[m.dash + 1..m.end]
  }

  function DigitsEnd(s: string, j: nat): (e: nat)
    requires j <= |s|
    ensures j <= e <= |s|
    ensures forall k | j <= k < e :: IsDigit(s[k])
    ensures e < |s| ==> !IsDigit(s[e])
    decreases |s| - j
  {
    if j == |s| || !IsDigit(s[j]) then j else DigitsEnd(s, j + 1)
  }

  function SegmentEnd(s: string, j: nat): (e: nat)
    requires j <= |s|
    ensures j <= e <= |s|
    ensures forall k | j <= k < e :: s[k] != '/'
    ensures e < |s| ==> s[e] == '/'
    decreases |s| - j
  {
    if j == |s| || s[j] == '/' then j else SegmentEnd(s, j + 1)
  }

  /** The regular expression tried at index `i` alone. */
  function MatchAt(s: string, i: nat): (m: Option<ModuleMatch>)
    requires i <= |s|
    ensures m.Some? ==> m.value.start == i && IsMatch(s, m.value)
    ensures m.None? ==> forall d: nat, e: nat :: !IsMatch(s, ModuleMatch(i, d, e))
  {
    if !OccursAt(s, ModulesPrefix, i) then None
    else
      MatchesAreGreedy(s, i);
      var d := DigitsEnd(s, i + |ModulesPrefix|);
      if d == i + |ModulesPrefix| || d == |s| || s[d] != '-' then None
      else
        var e := SegmentEnd(s, d + 1);
        if e == d + 1 then None else Some(ModuleMatch(i, d, e))
  }

  /** The leftmost match starting at or after `p`. */
  function FirstMatch(s: string, p: nat): (m: Option<ModuleMatch>)
    requires p <= |s|
    ensures m.Some? ==> p <= m.value.start && IsMatch(s, m.value)
    ensures m.Some? ==> forall j: nat, d: nat, e: nat | p <= j < m.value.start :: !IsMatch(s, ModuleMatch(j, d, e))
    ensures m.None? ==> forall j: nat, d: nat, e: nat | p <= j :: !IsMatch(s, ModuleMatch(j, d, e))
    decreases |s| - p
  {
    if MatchAt(s, p).Some? then MatchAt(s, p)
    else if p == |s| then None
    else FirstMatch(s, p + 1)
  }

  /**
   * `extractModuleFromUrl(url)` and, applied to `window.location.pathname`,
   * `getCurrentModule()`: the name of the leftmost match, or `'unknown'`
   * when there is none.
   */
  function ModuleOf(path: string): (r: string)
    ensures r == "unknown" <==> forall j: nat, d: nat, e: nat :: !IsMatch(path, ModuleMatch(j, d, e))
    ensures r != "unknown" ==> exists m :: IsMatch(path, m) && r == MatchName(path, m)
                                           && forall j: nat, d: nat, e: nat | j < m.start :: !IsMatch(path, ModuleMatch(j, d, e))
  {
    var m := FirstMatch(path, 0);
    if m.None? then "unknown"
    else
      var name := MatchName(path, m.value);
      assert name[m.value.dash - m.value.start - |ModulesPrefix|] == '-';
      assert "unknown"[0] == 'u' && "unknown"[1] == 'n' && "unknown"[2] == 'k' && "unknown"[3] == 'n';
      assert "unknown"[4] == 'o' && "unknown"[5] == 'w' && "unknown"[6] == 'n';
      name
  }

  /**
   * A path that reaches `modules/<digits>-<segment>` before any `m` names
   * that module, whatever follows the segment's closing `/`.
   */
  lemma {:induction false} ModuleOfRoundTrip(prefix: string, digits: string, segment: string, rest: string)
    requires 'm' !in prefix
    requires digits != [] && forall k | 0 <= k < |digits| :: IsDigit(digits[k])
    requires segment != [] && '/' !in segment
    requires rest == [] || rest[0] == '/'
    ensures ModuleOf(prefix + ModulesPrefix + digits + "-" + segment + rest) == digits + "-" + segment
  {
    var s := prefix + ModulesPrefix + digits + "-" + segment + rest;
    var i := |prefix|;
    var m := ModuleMatch(i, i + |ModulesPrefix| + |digits|, i + |ModulesPrefix| + |digits| + 1 + |segment|);
    PathMatchesAt(prefix, digits, segment, rest);
    assert s[..i] == prefix;
    NoMatchWithout(s, prefix);
    var f := FirstMatch(s, 0);
    assert f.Some? && f.value.start == i;
    MatchesAreGreedy(s, i);
    assert f.value == m;
    assert ModuleOf(s) == MatchName(s, f.value);
  }

  /** `prefix modules/<digits>-<segment> rest` matches right after the prefix, naming `<digits>-<segment>`. */
  lemma PathMatchesAt(prefix: string, digits: string, segment: string, rest: string)
    requires digits != [] && forall k | 0 <= k < |digits| :: IsDigit(digits[k])
    requires segment != [] && '/' !in segment
    requires rest == [] || rest[0] == '/'
    ensures IsMatch(prefix + ModulesPrefix + digits + "-" + segment + rest,
                    ModuleMatch(|prefix|, |prefix| + |ModulesPrefix| + |digits|, |prefix| + |ModulesPrefix| + |digits| + 1 + |segment|))
    ensures MatchName(prefix + ModulesPrefix + digits + "-" + segment + rest,
                      ModuleMatch(|prefix|, |prefix| + |ModulesPrefix| + |digits|, |prefix| + |ModulesPrefix| + |digits| + 1 + |segment|))
            == digits + "-" + segment
  {
    var s := prefix + ModulesPrefix + digits + "-" + segment + rest;
    var i, d, e := |prefix|, |prefix| + |ModulesPrefix| + |digits|, |prefix| + |ModulesPrefix| + |digits| + 1 + |segment|;
    assert IsMatch(s, ModuleMatch(i, d, e)) && MatchName(s, ModuleMatch(i, d, e)) == digits + "-" + segment by {
      PathPieces(prefix, digits, segment, rest);
      MatchFromPieces(s, i, d, e, digits, segment, rest);
    }
  }

  /** A string laid out as `modules/<digits>-<segment> rest` from `i` on matches there. */
  lemma MatchFromPieces(s: string, i: nat, d: nat, e: nat, digits: string, segment: string, rest: string)
    requires digits != [] && forall k | 0 <= k < |digits| :: IsDigit(digits[k])
    requires segment != [] && '/' !in segment
    requires rest == [] || rest[0] == '/'
    requires d == i + |ModulesPrefix| + |digits| && e == d + 1 + |segment| && e <= |s|
    requires s[i..i + |ModulesPrefix|] == ModulesPrefix && s[i + |ModulesPrefix|..d] == digits
    requires s[d] == '-' && s[d + 1..e] == segment && s[e..] == rest
    ensures IsMatch(s, ModuleMatch(i, d, e))
    ensures MatchName(s, ModuleMatch(i, d, e)) == digits + "-" + segment
  {
    assert OccursAt(s, ModulesPrefix, i);
    assert forall k | i + |ModulesPrefix| <= k < d :: IsDigit(s[k]) by {
      forall k | i + |ModulesPrefix| <= k < d
        ensures IsDigit(s[k])
      {
        assert s[k] == s[i + |ModulesPrefix|..d][k - i - |ModulesPrefix|];
      }
    }
    assert forall k | d < k < e :: s[k] != '/' by {
      forall k | d < k < e
        ensures s[k] != '/'
      {
        assert s[k] == s[d + 1..e][k - d - 1];
        assert segment[k - d - 1] in segment;
      }
    }
    assert e == |s| || s[e] == '/' by {
      if e < |s| {
        assert s[e] == s[e..][0];
      }
    }
  }

  /** Where the pieces of `prefix modules/<digits>-<segment> rest` sit. */
  lemma PathPieces(prefix: string, digits: string, segment: string, rest: string)
    ensures var s := prefix + ModulesPrefix + digits + "-" + segment + rest;
      var i := |prefix|;
      var d := i + |ModulesPrefix| + |digits|;
      var e := d + 1 + |segment|;
      s[i..i + |ModulesPrefix|] == ModulesPrefix && s[i + |ModulesPrefix|..d] == digits
      && s[d] == '-' && s[d + 1..e] == segment && s[e..] == rest
  {
    var u := prefix + ModulesPrefix;
    var s1 := u + digits;
    var s2 := s1 + "-";
    var s3 := s2 + segment;
    var s := s3 + rest;
    var i := |prefix|;
    assert (s3 + rest)[|u|..|s1|] == s3[|u|..|s1|];
    assert (s2 + segment)[|u|..|s1|] == s2[|u|..|s1|];
    assert (s1 + "-")[|u|..|s1|] == s1[|u|..|s1|];
    assert s1[|u|..|s1|] == digits;
    assert (s3 + rest)[|s2|..|s3|] == s3[|s2|..|s3|];
    assert s3[|s2|..|s3|] == segment;
    assert (s3 + rest)[i..|u|] == s3[i..|u|];
    assert (s2 + segment)[i..|u|] == s2[i..|u|];
    assert (s1 + "-")[i..|u|] == s1[i..|u|];
    assert (u + digits)[i..|u|] == u[i..|u|];
    assert u[i..|u|] == ModulesPrefix;
    assert s[|s1|] == s2[|s1|] == '-';
  }

  /** No match starts inside a prefix without the letter `m`. */
  lemma NoMatchWithout(s: string, prefix: string)
    requires 'm' !in prefix && |prefix| <= |s| && s[..|prefix|] == prefix
    ensures forall j: nat, d: nat, e: nat | j < |prefix| :: !IsMatch(s, ModuleMatch(j, d, e))
  {
    assert ModulesPrefix[0] == 'm';
    forall j: nat, d: nat, e: nat | j < |prefix|
      ensures !IsMatch(s, ModuleMatch(j, d, e))
    {
      assert s[j] == prefix[j] != 'm';
      assert j + |ModulesPrefix| <= |s| ==> s[j..j + |ModulesPrefix|][0] == s[j];
    }
  }

  /** Both runs of a match are as long as they can be, so a start index has at most one match. */
  lemma MatchesAreGreedy(s: string, i: nat)
    requires i + |ModulesPrefix| <= |s|
    ensures forall d: nat, e: nat :: IsMatch(s, ModuleMatch(i, d, e)) ==>
              d == DigitsEnd(s, i + |ModulesPrefix|) && e == SegmentEnd(s, d + 1)
  {
  }

  /**
   * The tracker holds exactly the events `track` accepted: none lost, none
   * duplicated; with `sendBeacon` nothing is ever in flight, and the sent
   * batches followed by the queue are those events in order.
   */
  ghost predicate Accounts(t: Tracker, beacon: bool, tracked: seq<Event>) {
    Content(t) == multiset(tracked)
    && (beacon ==> t.inFlight == [] && Flatten(t.sent) + t.queue == tracked)
  }

  lemma FlushAccounts(t: Tracker, beacon: bool, tracked: seq<Event>)
    requires Accounts(t, beacon, tracked)
    ensures Accounts(AfterFlush(t, beacon), beacon, tracked)
  {
    FlushKeepsEvents(t, beacon);
    if beacon && t.queue != [] {
      FlattenSnoc(t.sent, t.queue);
    }
  }

  lemma PushAccounts(t: Tracker, beacon: bool, tracked: seq<Event>, e: Event)
    requires Accounts(t, beacon, tracked)
    ensures Accounts(t.(queue := t.queue + [e]), beacon, tracked + [e])
  {
    var pushed := t.(queue := t.queue + [e]);
    assert multiset(pushed.queue) == multiset(t.queue) + multiset{e};
    assert Content(pushed) == Content(t) + multiset{e};
    assert multiset(tracked + [e]) == multiset(tracked) + multiset{e};
    if beacon {
      assert Flatten(t.sent) + (t.queue + [e]) == (Flatten(t.sent) + t.queue) + [e];
    }
  }

  lemma RejectionAccounts(t: Tracker, beacon: bool, tracked: seq<Event>, k: nat)
    requires Accounts(t, beacon, tracked) && k < |t.inFlight|
    ensures Accounts(AfterRejection(t, k), beacon, tracked)
  {
    RejectionRequeues(t, k);
  }

  lemma ResolutionAccounts(t: Tracker, beacon: bool, tracked: seq<Event>, k: nat)
    requires Accounts(t, beacon, tracked) && k < |t.inFlight|
    ensures Accounts(AfterResolution(t, k), beacon, tracked)
  {
    ResolutionKeepsEvents(t, k);
  }

  /*
   * The tracker object
   */

  class WorkshopAnalytics {
    var config: Config
    var eventQueue: seq<Event>
    /** Batches handed to the network for good. */
    var sent: seq<seq<Event>>
    /** Batches of `fetch` calls that have not settled yet. */
    var inFlight: seq<seq<Event>>
    /** `navigator.sendBeacon` exists in this browser. */
    const beacon: bool
    /** Every event `track` accepted, in order. */
    ghost var tracked: seq<Event>

    ghost function State(): Tracker
      reads this
    {
      Tracker(config, eventQueue, sent, inFlight)
    }

    ghost predicate Valid()
      reads this
    {
      Accounts(State(), beacon, tracked)
    }

    /** The constructor, with `init()`'s `session_start` event when enabled. */
    constructor(input: ConfigInput, generatedUserId: string, sessionId: string, hasBeacon: bool,
                sessionData: Props, storedPath: Option<string>, env: Env)
      ensures Valid()
      ensures config == ResolveConfig(input, generatedUserId, sessionId) && beacon == hasBeacon
      ensures State() == AfterTrack(Tracker(config, [], [], []), beacon, "session_start",
                                    SessionStartData(sessionData, storedPath, env), env)
    {
      config := ResolveConfig(input, generatedUserId, sessionId);
      eventQueue := [];
      sent := [];
      inFlight := [];
      beacon := hasBeacon;
      tracked := [];
      new;
      Track("session_start", SessionStartData(sessionData, storedPath, env), env);
    }

    method Flush()
      requires Valid()
      modifies this
      ensures Valid() && tracked == old(tracked)
      ensures State() == AfterFlush(old(State()), beacon)
    {
      if eventQueue == [] {
        return;
      }
      ghost var before := State();
      FlushAccounts(before, beacon, tracked);
      var events := eventQueue;
      eventQueue := [];
      if beacon {
        sent := sent + [events];
      } else {
        inFlight := inFlight + [events];
      }
      assert State() == AfterFlush(before, beacon);
    }

    method Track(name: string, data: Props, env: Env)
      requires Valid()
      modifies this
      ensures Valid()
      ensures State() == AfterTrack(old(State()), beacon, name, data, env)
      ensures tracked == old(tracked) + (if old(config.enabled) then [MakeEvent(old(config), name, data, env)] else [])
    {
      if !config.enabled {
        return;
      }
      ghost var before := State();
      var event := MakeEvent(config, name, data, env);
      ghost var pushed := before.(queue := before.queue + [event]);
      assert AfterTrack(before, beacon, name, data, env)
          == if |pushed.queue| >= before.config.batchSize then AfterFlush(pushed, beacon) else pushed;
      PushAccounts(before, beacon, tracked, event);
      eventQueue := eventQueue + [event];
      tracked := tracked + [event];
      assert State() == pushed;
      if |eventQueue| >= config.batchSize {
        Flush();
        assert State() == AfterFlush(pushed, beacon);
      }
    }

    /** The `catch` callback of the `k`-th pending `fetch`. */
    method FetchRejected(k: nat)
      requires Valid() && k < |inFlight|
      modifies this
      ensures Valid() && tracked == old(tracked)
      ensures State() == AfterRejection(old(State()), k)
    {
      RejectionAccounts(State(), beacon, tracked, k);
      eventQueue := inFlight[k] + eventQueue;
      inFlight := Remove(inFlight, k);
    }

    /** The `k`-th pending `fetch` resolved. */
    method FetchResolved(k: nat)
      requires Valid() && k < |inFlight|
      modifies this
      ensures Valid() && tracked == old(tracked)
      ensures State() == AfterResolution(old(State()), k)
    {
      ResolutionAccounts(State(), beacon, tracked, k);
      sent := sent + [inFlight[k]];
      inFlight := Remove(inFlight, k);
    }

    method OptOut(env: Env)
      requires Valid()
      modifies this
      ensures Valid() && tracked == old(tracked)
      ensures State() == AfterOptOut(old(State()), beacon, env)
    {
      config := config.(enabled := false);
      Track("analytics_opt_out", [], env);
      Flush();
    }

    method OptIn(env: Env)
      requires Valid()
      modifies this
      ensures Valid()
      ensures State() == AfterOptIn(old(State()), beacon, env)
      ensures tracked == old(tracked) + [MakeEvent(old(config).(enabled := true), "analytics_opt_in", [], env)]
    {
      config := config.(enabled := true);
      Track("analytics_opt_in", [], env);
    }
  }
}
