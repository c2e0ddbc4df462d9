/**
 * FlinkTimerInternals: Beam timers kept on top of Flink's keyed timer
 * service. Everything here is scoped to the current key. The pending-timer
 * index maps a context id (built from family, id and namespace) to the timer;
 * the Flink timer service is a set of (queue, timer, adjusted time)
 * registrations; the keyed state internals count one watermark-hold usage per
 * registered timer at its output timestamp.
 */
module TimerInternals {
  import opened Timestamps

  datatype TimeDomain = EventTime | ProcessingTime | SynchronizedProcessingTime

  /** A state namespace, identified by its string key. */
  datatype Namespace = Namespace(stringKey: string)

  datatype TimerData = TimerData(
    timerId: string,
    timerFamilyId: string,
    namespace: Namespace,
    timestamp: Long,
    outputTimestamp: Long,
    domain: TimeDomain)

  datatype Option<T> = None | Some(value: T)

  /** The Flink timer queue a registration lives in. */
  datatype Queue = EventTimeQueue | ProcessingTimeQueue

  /** A timer registered with Flink's timer service at a Flink time. */
  datatype Registration = Registration(queue: Queue, timer: TimerData, time: Long)

  /** The index, the timer service's registrations and the hold usages, for one key. */
  datatype TimerState = TimerState(
    pending: map<string, TimerData>,
    registered: set<Registration>,
    holds: multiset<Long>)

  /** Failure of an operation the source rejects by throwing. */
  datatype Unsupported = Unsupported(message: string)

  function ConstructTimerId(timerFamilyId: string, timerId: string): (r: string)
    ensures |r| == |timerFamilyId| + 1 + |timerId|
    ensures r[..|timerFamilyId|] == timerFamilyId && r[|timerFamilyId|] == '+'
    ensures r[|timerFamilyId| + 1..] == timerId
  {
    timerFamilyId + "+" + timerId
  }

  function ContextTimerId(timerId: string, namespace: Namespace): (r: string)
    ensures |r| == |timerId| + |namespace.stringKey|
    ensures r[..|timerId|] == timerId && r[|timerId|..] == namespace.stringKey
  {
    timerId + namespace.stringKey
  }

  /** The context id under which `setTimer` indexes a timer. */
  function TimerContextId(t: TimerData): string {
    ContextTimerId(ConstructTimerId(t.timerFamilyId, t.timerId), t.namespace)
  }

  /** Flink fires a timer once time reaches its registered time, so the time is adjusted. */
  function RegistrationOf(t: TimerData): (r: Registration)
    ensures r.timer == t && r.time == AdjustTimestampForFlink(t.timestamp)
    ensures r.queue == EventTimeQueue <==> t.domain == EventTime
  {
    Registration(
      if t.domain == EventTime then EventTimeQueue else ProcessingTimeQueue,
      t,
      AdjustTimestampForFlink(t.timestamp))
  }

  function Lookup(s: TimerState, contextTimerId: string): Option<TimerData> {
    if contextTimerId in s.pending then Some(s.pending[contextTimerId]) else None
  }

  /**
   * Every indexed timer sits under its own context id and is registered; every
   * registration is that of the timer indexed under its context id.
   */
  ghost predicate WellFormed(s: TimerState) {
    && (forall cid :: cid in s.pending ==>
          TimerContextId(s.pending[cid]) == cid && RegistrationOf(s.pending[cid]) in s.registered)
    && (forall r :: r in s.registered ==>
          r == RegistrationOf(r.timer)
          && TimerContextId(r.timer) in s.pending && s.pending[TimerContextId(r.timer)] == r.timer)
  }

  // ---- specification of the index operations ----

  /** onFiredOrDeletedTimer: drop the index entry and one hold usage. */
  function OnFiredOrDeletedSpec(s: TimerState, t: TimerData): TimerState {
    s.(pending := s.pending - {TimerContextId(t)}, holds := s.holds - multiset{t.outputTimestamp})
  }

  /** deleteTimerInternal: delete the Flink registration, then clean up. */
  function DeleteTimerInternalSpec(s: TimerState, t: TimerData): TimerState {
    OnFiredOrDeletedSpec(s.(registered := s.registered - {RegistrationOf(t)}), t)
  }

  function CancelPendingTimerSpec(s: TimerState, oldTimer: Option<TimerData>): TimerState {
    match oldTimer
    case None => s
    case Some(t) => DeleteTimerInternalSpec(s, t)
  }

  function RegisterTimerSpec(s: TimerState, t: TimerData, contextTimerId: string): TimerState {
    TimerState(
      s.pending[contextTimerId := t],
      s.registered + {RegistrationOf(t)},
      s.holds + multiset{t.outputTimestamp})
  }

  function SetTimerSpec(s: TimerState, t: TimerData): TimerState {
    var cid := TimerContextId(t);
    var oldTimer := Lookup(s, cid);
    if oldTimer == Some(t) then s
    else RegisterTimerSpec(CancelPendingTimerSpec(s, oldTimer), t, cid)
  }

  /** The four-argument deleteTimer as written: it looks up `timerId + namespace`. */
  function DeleteTimerSpec(s: TimerState, namespace: Namespace, timerId: string): TimerState {
    CancelPendingTimerSpec(s, Lookup(s, ContextTimerId(timerId, namespace)))
  }

  /** deleteTimer(TimerData): cancel the timer under its family-qualified context id. */
  function DeleteTimerByDataSpec(s: TimerState, t: TimerData): TimerState {
    DeleteTimerIntendedSpec(s, t.namespace, t.timerId, t.timerFamilyId)
  }

  /** The timer service hands a due registration to the operator, which cleans up the index. */
  function FireSpec(s: TimerState, r: Registration): TimerState {
    OnFiredOrDeletedSpec(s.(registered := s.registered - {r}), r.timer)
  }

  /** The four-argument deleteTimer with the family prefix that `setTimer` uses. */
  function DeleteTimerIntendedSpec(s: TimerState, namespace: Namespace, timerId: string, timerFamilyId: string): TimerState {
    CancelPendingTimerSpec(s, Lookup(s, ContextTimerId(ConstructTimerId(timerFamilyId, timerId), namespace)))
  }

  // ---- properties of the index ----

  /** Family-qualified ids are unambiguous as long as families contain no '+'. */
  lemma ConstructTimerIdInjective(f1: string, i1: string, f2: string, i2: string)
    requires '+' !in f1 && '+' !in f2
    ensures ConstructTimerId(f1, i1) == ConstructTimerId(f2, i2) <==> f1 == f2 && i1 == i2
  {
    var a, b := ConstructTimerId(f1, i1), ConstructTimerId(f2, i2);
    if a == b {
      if |f1| != |f2| {
        assert false;
      }
      assert f1 == a[..|f1|] == b[..|f2|] == f2;
    }
  }

  /** With '+' in a family, two different timers share a context id, so setting one replaces the other. */
  lemma ContextIdCollision(ns: Namespace, ts: Long)
    ensures
      var t1 := TimerData("b+c", "a", ns, ts, ts, EventTime);
      var t2 := TimerData("c", "a+b", ns, ts, ts, EventTime);
      && t1 != t2
      && TimerContextId(t1) == TimerContextId(t2)
      && SetTimerSpec(SetTimerSpec(TimerState(map[], {}, multiset{}), t1), t2).pending
         == map[TimerContextId(t2) := t2]
  {
    var t1 := TimerData("b+c", "a", ns, ts, ts, EventTime);
    var t2 := TimerData("c", "a+b", ns, ts, ts, EventTime);
    assert ConstructTimerId("a", "b+c") == "a+b+c" == ConstructTimerId("a+b", "c");
    assert t1.timerId != t2.timerId;
  }

  /** There is at most one registration per context id. */
  lemma OneRegistrationPerContext(s: TimerState, r1: Registration, r2: Registration)
    requires WellFormed(s) && r1 in s.registered && r2 in s.registered
    requires TimerContextId(r1.timer) == TimerContextId(r2.timer)
    ensures r1 == r2
  {
  }

  lemma CancelPreservesWellFormed(s: TimerState, cid: string)
    requires WellFormed(s)
    ensures WellFormed(CancelPendingTimerSpec(s, Lookup(s, cid)))
    ensures CancelPendingTimerSpec(s, Lookup(s, cid)).pending == s.pending - {cid}
  {
    if cid in s.pending {
      var t := s.pending[cid];
      var r := DeleteTimerInternalSpec(s, t);
      assert r.pending == s.pending - {cid};
      forall x | x in r.registered
        ensures x == RegistrationOf(x.timer) && TimerContextId(x.timer) in r.pending
        ensures r.pending[TimerContextId(x.timer)] == x.timer
      {
        assert x in s.registered && x != RegistrationOf(t);
        assert TimerContextId(x.timer) != cid;
      }
    }
  }

  /** Registering a timer under a free context id keeps the index and the registrations in step. */
  lemma RegisterPreservesWellFormed(c: TimerState, t: TimerData)
    requires WellFormed(c) && TimerContextId(t) !in c.pending
    ensures WellFormed(RegisterTimerSpec(c, t, TimerContextId(t)))
  {
    var r := RegisterTimerSpec(c, t, TimerContextId(t));
    forall x | x in r.registered
      ensures x == RegistrationOf(x.timer) && TimerContextId(x.timer) in r.pending
      ensures r.pending[TimerContextId(x.timer)] == x.timer
    {
      if x != RegistrationOf(t) {
        assert x in c.registered;
        assert TimerContextId(x.timer) in c.pending;
      }
    }
  }

  /** setTimer keeps the index and the registrations in step. */
  lemma SetTimerPreservesWellFormed(s: TimerState, t: TimerData)
    requires WellFormed(s)
    ensures WellFormed(SetTimerSpec(s, t))
  {
    var cid := TimerContextId(t);
    if Lookup(s, cid) != Some(t) {
      CancelPreservesWellFormed(s, cid);
      RegisterPreservesWellFormed(CancelPendingTimerSpec(s, Lookup(s, cid)), t);
    }
  }

  /**
   * After setTimer the timer is the one pending under its context id and is
   * registered at its adjusted time; an unchanged timer changes nothing, a
   * replaced one gives up its hold usage and the new one adds its own.
   */
  lemma SetTimerEffect(s: TimerState, t: TimerData)
    requires WellFormed(s)
    ensures var r := SetTimerSpec(s, t);
      && r.pending == s.pending[TimerContextId(t) := t]
      && RegistrationOf(t) in r.registered
      && (TimerContextId(t) in s.pending && s.pending[TimerContextId(t)] == t ==> r == s)
      && (TimerContextId(t) !in s.pending ==>
            r.registered == s.registered + {RegistrationOf(t)}
            && r.holds == s.holds + multiset{t.outputTimestamp})
      && (TimerContextId(t) in s.pending && s.pending[TimerContextId(t)] != t ==>
            var o := s.pending[TimerContextId(t)];
            && RegistrationOf(o) !in r.registered
            && r.holds == s.holds - multiset{o.outputTimestamp} + multiset{t.outputTimestamp})
  {
    var cid := TimerContextId(t);
    if cid in s.pending && s.pending[cid] != t {
      var o := s.pending[cid];
      assert RegistrationOf(o) != RegistrationOf(t);
    } else if cid in s.pending {
      assert s.pending[cid := t] == s.pending;
    }
  }

  /** Setting an equal timer a second time is a no-op. */
  lemma SetTimerIdempotent(s: TimerState, t: TimerData)
    requires WellFormed(s)
    ensures SetTimerSpec(SetTimerSpec(s, t), t) == SetTimerSpec(s, t)
  {
    SetTimerEffect(s, t);
  }

  /** Firing a registration removes its timer's index entry and one hold usage at its output timestamp. */
  lemma FireRemovesEntryAndHold(s: TimerState, r: Registration)
    requires WellFormed(s) && r in s.registered
    ensures var f := FireSpec(s, r);
      && WellFormed(f)
      && f.pending == s.pending - {TimerContextId(r.timer)}
      && f.registered == s.registered - {r}
      && f.holds == s.holds - multiset{r.timer.outputTimestamp}
  {
    CancelPreservesWellFormed(s, TimerContextId(r.timer));
    assert FireSpec(s, r) == CancelPendingTimerSpec(s, Lookup(s, TimerContextId(r.timer)));
  }

  /** Setting a fresh timer and firing it restores the state it was set in. */
  lemma SetThenFire(s: TimerState, t: TimerData)
    requires WellFormed(s) && TimerContextId(t) !in s.pending
    ensures FireSpec(SetTimerSpec(s, t), RegistrationOf(t)) == s
  {
    assert RegistrationOf(t) !in s.registered;
    assert (s.holds + multiset{t.outputTimestamp}) - multiset{t.outputTimestamp} == s.holds;
    assert s.pending[TimerContextId(t) := t] - {TimerContextId(t)} == s.pending;
  }

  /** deleteTimer(TimerData) removes the timer's entry, registration and hold; it keeps the state well formed. */
  lemma DeleteTimerByDataEffect(s: TimerState, t: TimerData)
    requires WellFormed(s)
    ensures var d := DeleteTimerByDataSpec(s, t);
      && WellFormed(d)
      && d.pending == s.pending - {TimerContextId(t)}
      && (TimerContextId(t) !in s.pending ==> d == s)
      && (TimerContextId(t) in s.pending ==>
            d.registered == s.registered - {RegistrationOf(s.pending[TimerContextId(t)])}
            && d.holds == s.holds - multiset{s.pending[TimerContextId(t)].outputTimestamp})
  {
    CancelPreservesWellFormed(s, TimerContextId(t));
  }

  /** Setting a fresh timer and deleting it by its data restores the state it was set in. */
  lemma SetThenDeleteByData(s: TimerState, t: TimerData)
    requires WellFormed(s) && TimerContextId(t) !in s.pending
    ensures DeleteTimerByDataSpec(SetTimerSpec(s, t), t) == s
  {
    SetThenFire(s, t);
    assert DeleteTimerByDataSpec(SetTimerSpec(s, t), t) == FireSpec(SetTimerSpec(s, t), RegistrationOf(t));
  }

  /**
   * The four-argument deleteTimer as written misses a timer set under a
   * family: the family-qualified id is not what it looks up.
   */
  lemma DeleteTimerMissesFamilyTimer()
    ensures
      var ns := Namespace("/w/");
      var t := TimerData("t", "fam", ns, 5, 5, EventTime);
      var s := SetTimerSpec(TimerState(map[], {}, multiset{}), t);
      && TimerContextId(t) in s.pending
      && DeleteTimerSpec(s, ns, "t") == s
  {
    var ns := Namespace("/w/");
    var t := TimerData("t", "fam", ns, 5, 5, EventTime);
    assert TimerContextId(t) == "fam+t/w/";
    assert ContextTimerId("t", ns) == "t/w/";
    assert "t/w/" != "fam+t/w/";
  }

  /** The intended four-argument deleteTimer removes the timer set under the same family, id and namespace. */
  lemma DeleteTimerIntendedRemovesTimer(s: TimerState, t: TimerData)
    requires WellFormed(s)
    ensures var d := DeleteTimerIntendedSpec(SetTimerSpec(s, t), t.namespace, t.timerId, t.timerFamilyId);
      && WellFormed(d)
      && TimerContextId(t) !in d.pending
      && RegistrationOf(t) !in d.registered
      && (TimerContextId(t) !in s.pending ==> d == s)
  {
    SetTimerPreservesWellFormed(s, t);
    SetTimerEffect(s, t);
    CancelPreservesWellFormed(SetTimerSpec(s, t), TimerContextId(t));
    if TimerContextId(t) !in s.pending {
      SetThenFire(s, t);
    }
  }

  /** With the correction, deleteTimer(TimerData) passes the plain id and cancels what it cancelled as written. */
  lemma DeleteByDataKeepsWrittenBehaviour(s: TimerState, t: TimerData)
    ensures DeleteTimerByDataSpec(s, t) == DeleteTimerSpec(s, t.namespace, ConstructTimerId(t.timerFamilyId, t.timerId))
  {
  }

  // ---- the timer service advancing its watermark ----

  /** An event-time registration the timer service fires once its watermark reaches `watermark`. */
  predicate IsDue(r: Registration, watermark: Long) {
    r.queue == EventTimeQueue && r.time <= watermark
  }

  function DueEventTimers(rs: set<Registration>, watermark: Long): (due: set<Registration>)
    ensures forall r :: r in due <==> r in rs && IsDue(r, watermark)
  {
    set r | r in rs && IsDue(r, watermark)
  }

  /**
   * What advanceWatermark fires: every due registration exactly once, the
   * earliest first (registrations with equal times in any order).
   */
  ghost predicate FiringOrder(registered: set<Registration>, watermark: Long, fired: seq<Registration>) {
    && (forall r :: r in fired <==> r in registered && IsDue(r, watermark))
    && (forall i, j :: 0 <= i < j < |fired| ==> fired[i] != fired[j] && fired[i].time <= fired[j].time)
  }

  /** An advance fires something exactly when some registration is due. */
  lemma FiringNonEmpty(registered: set<Registration>, watermark: Long, fired: seq<Registration>)
    requires FiringOrder(registered, watermark, fired)
    ensures fired != [] <==> DueEventTimers(registered, watermark) != {}
  {
    if fired != [] {
      assert fired[0] in DueEventTimers(registered, watermark);
    }
  }

  /**
   * Part way through an advance: `current` is what is still registered,
   * `fired` what was taken so far, each due, each once, earliest first, and
   * none later than a due registration still waiting.
   */
  ghost predicate FiredSoFar(registered: set<Registration>, watermark: Long, fired: seq<Registration>,
                             current: set<Registration>) {
    && current == registered - (set r | r in fired)
    && (forall i :: 0 <= i < |fired| ==> fired[i] in registered && IsDue(fired[i], watermark))
    && (forall i, j :: 0 <= i < j < |fired| ==> fired[i] != fired[j] && fired[i].time <= fired[j].time)
    && (forall i, q :: 0 <= i < |fired| && q in current && IsDue(q, watermark) ==> fired[i].time <= q.time)
  }

  /** Taking the earliest due registration keeps the advance in order. */
  lemma FiringStep(registered: set<Registration>, watermark: Long, fired: seq<Registration>,
                   current: set<Registration>, r: Registration)
    requires FiredSoFar(registered, watermark, fired, current)
    requires r in current && IsDue(r, watermark)
    requires forall q :: q in current && IsDue(q, watermark) ==> r.time <= q.time
    ensures FiredSoFar(registered, watermark, fired + [r], current - {r})
  {
    var next := fired + [r];
    assert (set x | x in next) == (set x | x in fired) + {r};
    assert current - {r} == registered - (set x | x in next);
    forall i | 0 <= i < |next|
      ensures next[i] in registered && IsDue(next[i], watermark)
    {
      if i < |fired| {
        assert next[i] == fired[i];
      }
    }
    forall i, j | 0 <= i < j < |next|
      ensures next[i] != next[j] && next[i].time <= next[j].time
    {
      assert next[i] == fired[i];
      if j == |fired| {
        assert fired[i] in (set x | x in fired);
        assert fired[i].time <= r.time;
      } else {
        assert next[j] == fired[j];
      }
    }
    forall i, q | 0 <= i < |next| && q in current - {r} && IsDue(q, watermark)
      ensures next[i].time <= q.time
    {
      if i < |fired| {
        assert next[i] == fired[i];
      }
    }
  }

  /** An advance starts with nothing fired and everything still registered. */
  lemma AdvanceStart(s0: TimerState, watermark: Long)
    ensures FireAllSpec(s0, []) == s0
    ensures FiredSoFar(s0.registered, watermark, [], s0.registered)
  {
    assert (set r: Registration | r in []) == {};
  }

  /** Taking a registration off the queue shrinks it. */
  lemma TakeShrinks(current: set<Registration>, r: Registration)
    requires r in current
    ensures |current - {r}| < |current|
  {
  }

  /** The head of the timer service's event-time queue among the due registrations: an earliest one. */
  method EarliestDue(rs: set<Registration>, watermark: Long) returns (r: Registration)
    requires DueEventTimers(rs, watermark) != {}
    ensures r in rs && IsDue(r, watermark)
    ensures forall q :: q in rs && IsDue(q, watermark) ==> r.time <= q.time
  {
    var due := DueEventTimers(rs, watermark);
    EarliestExists(due);
    r :| r in due && forall q :: q in due ==> r.time <= q.time;
  }

  /** Once nothing due is left, the advance fired exactly the due registrations, in order. */
  lemma FiringComplete(registered: set<Registration>, watermark: Long, fired: seq<Registration>,
                       current: set<Registration>)
    requires FiredSoFar(registered, watermark, fired, current)
    requires forall q :: q in current ==> !IsDue(q, watermark)
    ensures FiringOrder(registered, watermark, fired)
  {
    forall r | r in fired
      ensures r in registered && IsDue(r, watermark)
    {
      var i :| 0 <= i < |fired| && fired[i] == r;
    }
  }

  /** Firing registrations one after the other. */
  function FireAllSpec(s: TimerState, rs: seq<Registration>): TimerState
    decreases |rs|
  {
    if rs == [] then s else FireSpec(FireAllSpec(s, rs[..|rs| - 1]), rs[|rs| - 1])
  }

  /** The timer contexts of registrations. */
  function ContextIds(rs: seq<Registration>): (ids: set<string>)
    ensures forall i :: 0 <= i < |rs| ==> TimerContextId(rs[i].timer) in ids
    ensures forall cid :: cid in ids ==> exists i :: 0 <= i < |rs| && cid == TimerContextId(rs[i].timer)
  {
    set i | 0 <= i < |rs| :: TimerContextId(rs[i].timer)
  }

  /** A non-empty set of registrations has an earliest one, which the timer service takes next. */
  lemma {:induction false} EarliestExists(rs: set<Registration>)
    requires rs != {}
    ensures exists r :: r in rs && forall q :: q in rs ==> r.time <= q.time
    decreases |rs|
  {
    var x :| x in rs;
    if rs - {x} != {} {
      EarliestExists(rs - {x});
      var m :| m in rs - {x} && forall q :: q in rs - {x} ==> m.time <= q.time;
      if x.time < m.time {
        assert forall q :: q in rs ==> x.time <= q.time;
      } else {
        assert forall q :: q in rs ==> m.time <= q.time;
      }
    } else {
      assert rs == {x};
    }
  }

  lemma FireAllSnoc(s: TimerState, rs: seq<Registration>, r: Registration)
    ensures FireAllSpec(s, rs + [r]) == FireSpec(FireAllSpec(s, rs), r)
  {
    assert (rs + [r])[..|rs|] == rs;
  }

  lemma ContextIdsSnoc(rs: seq<Registration>, r: Registration)
    ensures ContextIds(rs + [r]) == ContextIds(rs) + {TimerContextId(r.timer)}
  {
    var all := rs + [r];
    forall cid | cid in ContextIds(all)
      ensures cid in ContextIds(rs) + {TimerContextId(r.timer)}
    {
      var i :| 0 <= i < |all| && cid == TimerContextId(all[i].timer);
      if i < |rs| {
        assert all[i] == rs[i];
      }
    }
    forall cid | cid in ContextIds(rs)
      ensures cid in ContextIds(all)
    {
      var i :| 0 <= i < |rs| && cid == TimerContextId(rs[i].timer);
      assert all[i] == rs[i];
    }
    assert all[|rs|] == r;
  }

  lemma OutputTimestampsSnoc(rs: seq<Registration>, r: Registration)
    ensures OutputTimestamps(rs + [r]) == OutputTimestamps(rs) + multiset{r.timer.outputTimestamp}
  {
    assert (rs + [r])[..|rs|] == rs;
  }

  lemma MultisetMinusMinus(m: multiset<Long>, a: multiset<Long>, b: multiset<Long>)
    ensures m - a - b == m - (a + b)
  {
    assert forall y :: (m - a - b)[y] == (m - (a + b))[y];
  }

  /** Firing distinct registered timers one after the other unregisters exactly those and keeps the state well formed. */
  lemma {:induction false} FireAllWellFormed(s: TimerState, rs: seq<Registration>)
    requires WellFormed(s)
    requires forall i :: 0 <= i < |rs| ==> rs[i] in s.registered
    requires forall i, j :: 0 <= i < j < |rs| ==> rs[i] != rs[j]
    ensures WellFormed(FireAllSpec(s, rs))
    ensures FireAllSpec(s, rs).registered == s.registered - (set r | r in rs)
    decreases |rs|
  {
    if rs != [] {
      var prefix, last := rs[..|rs| - 1], rs[|rs| - 1];
      assert rs == prefix + [last];
      FireAllWellFormed(s, prefix);
      assert last !in prefix;
      FireRemovesEntryAndHold(FireAllSpec(s, prefix), last);
      FireAllSnoc(s, prefix, last);
      ElemsSnoc(prefix, last);
    }
  }

  lemma ElemsSnoc(rs: seq<Registration>, r: Registration)
    ensures (set x | x in rs + [r]) == (set x | x in rs) + {r}
  {
  }

  /** Firing registrations one after the other drops the index entries of their timers. */
  lemma {:induction false} FireAllPending(s: TimerState, rs: seq<Registration>)
    ensures FireAllSpec(s, rs).pending == s.pending - ContextIds(rs)
    decreases |rs|
  {
    if rs == [] {
      assert ContextIds(rs) == {};
    } else {
      var prefix, last := rs[..|rs| - 1], rs[|rs| - 1];
      assert rs == prefix + [last];
      FireAllPending(s, prefix);
      FireAllSnoc(s, prefix, last);
      ContextIdsSnoc(prefix, last);
      MapMinusMinus(s.pending, ContextIds(prefix), {TimerContextId(last.timer)});
    }
  }

  lemma MapMinusMinus(m: map<string, TimerData>, a: set<string>, b: set<string>)
    ensures m - a - b == m - (a + b)
  {
  }

  /** Firing registrations one after the other gives up one hold usage per timer. */
  lemma {:induction false} FireAllHolds(s: TimerState, rs: seq<Registration>)
    ensures FireAllSpec(s, rs).holds == s.holds - OutputTimestamps(rs)
    decreases |rs|
  {
    if rs == [] {
      assert s.holds - multiset{} == s.holds;
    } else {
      var prefix, last := rs[..|rs| - 1], rs[|rs| - 1];
      assert rs == prefix + [last];
      FireAllHolds(s, prefix);
      FireAllSnoc(s, prefix, last);
      OutputTimestampsSnoc(prefix, last);
      MultisetMinusMinus(s.holds, OutputTimestamps(prefix), multiset{last.timer.outputTimestamp});
    }
  }

  /**
   * Firing distinct registered timers one after the other unregisters exactly
   * those, drops their index entries and one hold usage each, and keeps the
   * state well formed.
   */
  lemma FireAllEffect(s: TimerState, rs: seq<Registration>)
    requires WellFormed(s)
    requires forall i :: 0 <= i < |rs| ==> rs[i] in s.registered
    requires forall i, j :: 0 <= i < j < |rs| ==> rs[i] != rs[j]
    ensures var f := FireAllSpec(s, rs);
      && WellFormed(f)
      && f.registered == s.registered - (set r | r in rs)
      && f.pending == s.pending - ContextIds(rs)
      && f.holds == s.holds - OutputTimestamps(rs)
  {
    FireAllWellFormed(s, rs);
    FireAllPending(s, rs);
    FireAllHolds(s, rs);
  }

  // ---- the index as Flink keeps it ----

  class FlinkTimerInternals {
    /** pendingTimersById, scoped by the current key. */
    var pendingTimersById: map<string, TimerData>
    /** The Flink timer service's registrations for the current key. */
    var registered: set<Registration>
    /** The keyed state internals' watermark-hold usages. */
    var holdUsages: multiset<Long>

    function State(): TimerState
      reads this
    {
      TimerState(pendingTimersById, registered, holdUsages)
    }

    ghost predicate Valid()
      reads this
    {
      WellFormed(State())
    }

    /**
     * Opens the index over restored state. populateOutputTimestampQueue adds
     * one hold usage per restored timer, event-time timers first, and only
     * when the timer service is Flink's own `InternalTimerServiceImpl`.
     */
    constructor (pending: map<string, TimerData>, eventTimers: seq<Registration>,
                 processingTimers: seq<Registration>, isInternalTimerServiceImpl: bool)
      requires WellFormed(TimerState(pending, RegistrationSet(eventTimers + processingTimers), multiset{}))
      ensures Valid()
      ensures pendingTimersById == pending
      ensures registered == RegistrationSet(eventTimers + processingTimers)
      ensures isInternalTimerServiceImpl ==> holdUsages == OutputTimestamps(eventTimers + processingTimers)
      ensures !isInternalTimerServiceImpl ==> holdUsages == multiset{}
    {
      var holds: multiset<Long> := multiset{};
      if isInternalTimerServiceImpl {
        holds := PopulateOutputTimestampQueue(eventTimers + processingTimers);
      }
      pendingTimersById := pending;
      registered := RegistrationSet(eventTimers + processingTimers);
      holdUsages := holds;
    }

    method RegisterTimer(t: TimerData, contextTimerId: string)
      modifies this
      ensures State() == RegisterTimerSpec(old(State()), t, contextTimerId)
    {
      pendingTimersById := pendingTimersById[contextTimerId := t];
      registered := registered + {RegistrationOf(t)};
      holdUsages := holdUsages + multiset{t.outputTimestamp};
    }

    method OnFiredOrDeletedTimer(t: TimerData)
      modifies this
      ensures State() == OnFiredOrDeletedSpec(old(State()), t)
    {
      pendingTimersById := pendingTimersById - {TimerContextId(t)};
      holdUsages := holdUsages - multiset{t.outputTimestamp};
    }

    method DeleteTimerInternal(t: TimerData)
      modifies this
      ensures State() == DeleteTimerInternalSpec(old(State()), t)
    {
      registered := registered - {RegistrationOf(t)};
      OnFiredOrDeletedTimer(t);
    }

    method CancelPendingTimer(oldTimer: Option<TimerData>)
      modifies this
      ensures State() == CancelPendingTimerSpec(old(State()), oldTimer)
    {
      if oldTimer.Some? {
        DeleteTimerInternal(oldTimer.value);
      }
    }

    /** Only one timer exists per context id: a different one replaces it. */
    method SetTimer(t: TimerData)
      requires Valid()
      modifies this
      ensures Valid()
      ensures State() == SetTimerSpec(old(State()), t)
    {
      SetTimerPreservesWellFormed(State(), t);
      var contextTimerId := TimerContextId(t);
      var oldTimer := Lookup(State(), contextTimerId);
      if oldTimer != Some(t) {
        CancelPendingTimer(oldTimer);
        RegisterTimer(t, contextTimerId);
      }
    }

    /**
     * The four-argument deleteTimer, with the family prefix that setTimer
     * uses in its lookup (DeleteTimerSpec is the lookup as written); the
     * domain is not consulted.
     */
    method DeleteTimer(namespace: Namespace, timerId: string, timerFamilyId: string, timeDomain: TimeDomain)
      requires Valid()
      modifies this
      ensures Valid()
      ensures State() == DeleteTimerIntendedSpec(old(State()), namespace, timerId, timerFamilyId)
    {
      var contextTimerId := ContextTimerId(ConstructTimerId(timerFamilyId, timerId), namespace);
      CancelPreservesWellFormed(State(), contextTimerId);
      CancelPendingTimer(Lookup(State(), contextTimerId));
    }

    method DeleteTimerByData(t: TimerData)
      requires Valid()
      modifies this
      ensures Valid()
      ensures State() == DeleteTimerByDataSpec(old(State()), t)
    {
      DeleteTimer(t.namespace, t.timerId, t.timerFamilyId, t.domain);
    }

    /** Deleting by namespace, id and family without a domain is rejected. */
    method DeleteTimerWithoutDomain(namespace: Namespace, timerId: string, timerFamilyId: string)
      returns (r: Unsupported)
      ensures r.message == "Canceling of a timer by ID is not yet supported."
    {
      r := Unsupported("Canceling of a timer by ID is not yet supported.");
    }

    /** The timer service takes a due registration off its queue to fire it. */
    method Poll(r: Registration)
      requires r in registered
      modifies this
      ensures pendingTimersById == old(pendingTimersById) && holdUsages == old(holdUsages)
      ensures registered == old(registered) - {r}
    {
      registered := registered - {r};
    }

    /** Whether an event-time timer at or before `maxTimestamp` is pending for the current key. */
    method HasPendingEventTimeTimers(maxTimestamp: Long) returns (b: bool)
      ensures b <==> exists cid :: cid in pendingTimersById && IsDueEventTimer(pendingTimersById[cid], maxTimestamp)
    {
      var rest := pendingTimersById.Keys;
      while rest != {}
        invariant rest <= pendingTimersById.Keys
        invariant forall cid :: cid in pendingTimersById && cid !in rest ==>
          !IsDueEventTimer(pendingTimersById[cid], maxTimestamp)
        decreases rest
      {
        var cid :| cid in rest;
        var timer := pendingTimersById[cid];
        if IsDueEventTimer(timer, maxTimestamp) {
          return true;
        }
        rest := rest - {cid};
      }
      return false;
    }
  }

  predicate IsDueEventTimer(t: TimerData, maxTimestamp: Long) {
    t.domain == EventTime && t.timestamp <= maxTimestamp
  }

  function RegistrationSet(rs: seq<Registration>): set<Registration> {
    set r | r in rs
  }

  /** populateOutputTimestampQueue: one hold usage per restored timer, in iteration order. */
  method PopulateOutputTimestampQueue(all: seq<Registration>) returns (holds: multiset<Long>)
    ensures holds == OutputTimestamps(all)
  {
    holds := multiset{};
    var i := 0;
    while i < |all|
      invariant 0 <= i <= |all|
      invariant holds == OutputTimestamps(all[..i])
    {
      assert all[..i + 1][..i] == all[..i];
      holds := holds + multiset{all[i].timer.outputTimestamp};
      i := i + 1;
    }
    assert all[..i] == all;
  }

  /** The output timestamps of registrations, one hold usage each. */
  function OutputTimestamps(rs: seq<Registration>): (m: multiset<Long>)
    ensures |m| == |rs|
    ensures forall r :: r in rs ==> r.timer.outputTimestamp in m
  {
    if rs == [] then multiset{}
    else OutputTimestamps(rs[..|rs| - 1]) + multiset{rs[|rs| - 1].timer.outputTimestamp}
  }
}
