/** The callback table `cbs` (message id -> handler) and what calling a handler does.
    Caller-supplied handlers are opaque; the handlers the driver itself installs
    (stop's drain, the sensor query and sensor arming wrappers, the connection handshake)
    are named so that their effect on the driver can be stated. */
module Callbacks {
  import opened Protocol

  /** The first argument a handler receives: 'started' or 'complete'. */
  datatype Phase = Started | Completed

  datatype Sensor = Collide | Follow {
    /** The key of this sensor in `sensorState`, and the id of its notifications. */
    function Name(): string {
      if Collide? then "collide" else "follow"
    }
    function QueryCmd(): string {
      if Collide? then "collideState" else "followState"
    }
    function NotifyCmd(): string {
      if Collide? then "collideNotify" else "followNotify"
    }
  }

  /** A registered handler.
      - Caller: a handler the caller supplied; calling it has no effect on the driver.
      - StopDrain: the wrapper `stop` installs.
      - SensorQuery: the wrapper `collideState`/`followState` installs when it polls.
      - SensorArm: the wrapper `collideSensorNotify`/`followSensorNotify` installs.
      - Handshake: the `version` handler the socket's open event installs. */
  datatype Handler = Caller | StopDrain | SensorQuery(sensor: Sensor) | SensorArm(sensor: Sensor) | Handshake

  type Table = map<string, Handler>

  /** One call `cbs[id](phase, msg, recursion)`. */
  datatype Invocation = Invocation(id: string, phase: Phase, recursion: bool)

  /** A sensor value handed to the caller of `collideState`/`followState`. */
  datatype Reading = Reading(sensor: Sensor, value: Payload)

  // ---------------------------------------------------------------------------
  // Enumerating the table (`for (var i in self.cbs)`)
  // ---------------------------------------------------------------------------

  function Elems(s: seq<string>): set<string> {
    set i | 0 <= i < |s| :: s[i]
  }

  predicate Distinct(s: seq<string>) {
    forall i, j :: 0 <= i < j < |s| ==> s[i] != s[j]
  }

  /** `order` lists every key of `keys` exactly once. */
  predicate IsEnumeration(order: seq<string>, keys: set<string>) {
    Distinct(order) && Elems(order) == keys
  }

  lemma {:induction false} EnumerationSize(order: seq<string>, keys: set<string>)
    requires IsEnumeration(order, keys)
    ensures |order| == |keys|
  {
    if order != [] {
      var last := order[|order| - 1];
      var init := order[..|order| - 1];
      assert Elems(init) == keys - {last} by {
        assert forall i :: 0 <= i < |init| ==> init[i] == order[i];
        assert forall i :: 0 <= i < |init| ==> init[i] != last;
      }
      EnumerationSize(init, keys - {last});
    }
  }

  /** `a` is `b` with some keys left out, the rest in the same order. */
  predicate Subsequence(a: seq<string>, b: seq<string>)
    decreases |b|
  {
    if a == [] then true
    else if b == [] then false
    else if a[|a| - 1] == b[|b| - 1] then Subsequence(a[..|a| - 1], b[..|b| - 1])
    else Subsequence(a, b[..|b| - 1])
  }

  lemma {:induction false} SubsequenceSnoc(a: seq<string>, b: seq<string>, x: string)
    requires Subsequence(a, b)
    ensures Subsequence(a, b + [x])
    decreases |b|, 1
  {
    assert (b + [x])[..|b|] == b;
    if a != [] && a[|a| - 1] == x {
      SubsequenceDropLast(a, b);
    }
  }

  lemma {:induction false} SubsequenceDropLast(a: seq<string>, b: seq<string>)
    requires a != [] && Subsequence(a, b)
    ensures Subsequence(a[..|a| - 1], b)
    decreases |b|, 0
  {
    var b' := b[..|b| - 1];
    if a[|a| - 1] == b[|b| - 1] {
      SubsequenceSnoc(a[..|a| - 1], b', b[|b| - 1]);
      assert b' + [b[|b| - 1]] == b;
    } else {
      SubsequenceDropLast(a, b');
      SubsequenceSnoc(a[..|a| - 1], b', b[|b| - 1]);
      assert b' + [b[|b| - 1]] == b;
    }
  }

  lemma SubsequenceBoth(a: seq<string>, b: seq<string>, x: string)
    requires Subsequence(a, b)
    ensures Subsequence(a + [x], b + [x])
  {
    assert (a + [x])[..|a|] == a && (b + [x])[..|b|] == b;
  }

  /** `delete cbs[k]` seen from the enumeration order: every occurrence of `k` leaves it,
      every other key stays, and the keys that stay keep their relative order. */
  function Without(order: seq<string>, k: string): (r: seq<string>)
    ensures Subsequence(r, order)
    ensures multiset(r) == multiset(order)[k := 0]
    ensures Elems(r) == Elems(order) - {k}
    ensures Distinct(order) ==> Distinct(r)
    ensures |r| <= |order|
  {
    if order == [] then []
    else
      var rest := Without(order[..|order| - 1], k);
      KeptSubsequence(order, k, rest);
      KeptCount(order, k, rest);
      KeptElems(order, k, rest);
      KeptDistinct(order, k, rest);
      Kept(order, k, rest)
  }

  /** `rest` followed by the last key of `order`, unless that key is `k`. */
  function Kept(order: seq<string>, k: string, rest: seq<string>): seq<string>
    requires order != []
  {
    var last := order[|order| - 1];
    if last == k then rest else rest + [last]
  }

  lemma KeptSubsequence(order: seq<string>, k: string, rest: seq<string>)
    requires order != [] && Subsequence(rest, order[..|order| - 1])
    ensures Subsequence(Kept(order, k, rest), order)
  {
    var init := order[..|order| - 1];
    assert order == init + [order[|order| - 1]];
    SubsequenceStep(init, order[|order| - 1], k, rest);
  }

  lemma KeptCount(order: seq<string>, k: string, rest: seq<string>)
    requires order != [] && multiset(rest) == multiset(order[..|order| - 1])[k := 0]
    ensures multiset(Kept(order, k, rest)) == multiset(order)[k := 0]
  {
    var init := order[..|order| - 1];
    assert order == init + [order[|order| - 1]];
    DropSnoc(init, order[|order| - 1], k, rest);
  }

  lemma KeptElems(order: seq<string>, k: string, rest: seq<string>)
    requires order != [] && Elems(rest) == Elems(order[..|order| - 1]) - {k}
    ensures Elems(Kept(order, k, rest)) == Elems(order) - {k}
  {
    var init := order[..|order| - 1];
    var last := order[|order| - 1];
    assert order == init + [last];
    ElemsSnoc(init, last);
    ElemsSnoc(rest, last);
  }

  lemma KeptDistinct(order: seq<string>, k: string, rest: seq<string>)
    requires order != [] && (Distinct(order[..|order| - 1]) ==> Distinct(rest))
    requires Elems(rest) == Elems(order[..|order| - 1]) - {k}
    ensures Distinct(order) ==> Distinct(Kept(order, k, rest))
  {
    var init := order[..|order| - 1];
    var last := order[|order| - 1];
    assert order == init + [last];
    DistinctSnoc(init, last);
    DistinctSnoc(rest, last);
  }

  /** One more key, `x`, at the end: what is kept is still a subsequence. */
  lemma SubsequenceStep(s: seq<string>, x: string, k: string, rest: seq<string>)
    requires Subsequence(rest, s)
    ensures Subsequence(if x == k then rest else rest + [x], s + [x])
  {
    if x == k {
      SubsequenceSnoc(rest, s, x);
    } else {
      SubsequenceBoth(rest, s, x);
    }
  }

  /** One more key, `x`, at the end: it is dropped if it is `k` and kept otherwise. */
  lemma DropSnoc(s: seq<string>, x: string, k: string, rest: seq<string>)
    requires multiset(rest) == multiset(s)[k := 0]
    ensures multiset(if x == k then rest else rest + [x]) == multiset(s + [x])[k := 0]
  {
    var a := multiset(s + [x])[k := 0];
    var b := multiset(if x == k then rest else rest + [x]);
    assert multiset(s + [x]) == multiset(s) + multiset{x};
    assert x != k ==> b == multiset(rest) + multiset{x};
    assert forall y :: a[y] == b[y];
  }

  lemma ElemsSnoc(s: seq<string>, x: string)
    ensures Elems(s + [x]) == Elems(s) + {x}
  {
    assert forall i :: 0 <= i < |s| ==> (s + [x])[i] == s[i];
    assert (s + [x])[|s|] == x;
  }

  lemma DistinctSnoc(s: seq<string>, x: string)
    ensures Distinct(s + [x]) <==> Distinct(s) && x !in Elems(s)
  {
    var t := s + [x];
    assert forall i :: 0 <= i < |s| ==> t[i] == s[i];
    assert t[|s|] == x;
    if x in Elems(s) {
      var i :| 0 <= i < |s| && s[i] == x;
      assert t[i] == t[|s|];
    }
  }

  function IdsOf(log: seq<Invocation>): (r: seq<string>)
    ensures |r| == |log|
    ensures forall i :: 0 <= i < |log| ==> r[i] == log[i].id
  {
    seq(|log|, i requires 0 <= i < |log| => log[i].id)
  }

  /** The calls stop's drain makes when it visits `keys`: each with 'complete' and the
      recursion marker. */
  function DrainCalls(keys: seq<string>): seq<Invocation> {
    seq(|keys|, i requires 0 <= i < |keys| => Invocation(keys[i], Completed, true))
  }

  /** `log` calls every key of `keys` exactly once, with 'complete' and the recursion marker. */
  predicate DrainedLog(log: seq<Invocation>, keys: set<string>) {
    (forall i :: 0 <= i < |log| ==> log[i].phase == Completed && log[i].recursion) &&
    IsEnumeration(IdsOf(log), keys)
  }

  /** A log that calls the keys of an enumeration in its order, each with 'complete' and
      the recursion marker, is a drained log. */
  lemma DrainedLogOf(log: seq<Invocation>, order: seq<string>, keys: set<string>)
    requires IsEnumeration(order, keys) && |log| == |order|
    requires forall j :: 0 <= j < |log| ==> log[j] == Invocation(order[j], Completed, true)
    ensures DrainedLog(log, keys)
  {
    assert IdsOf(log) == order;
  }

  /** In a drained log every key appears, and appears once. */
  lemma DrainedLogCovers(log: seq<Invocation>, keys: set<string>, k: string)
    requires DrainedLog(log, keys)
    ensures |log| == |keys|
    ensures k in keys <==> exists i :: 0 <= i < |log| && log[i] == Invocation(k, Completed, true)
  {
    EnumerationSize(IdsOf(log), keys);
    if k in keys {
      assert k in Elems(IdsOf(log));
      var i :| 0 <= i < |log| && IdsOf(log)[i] == k;
      assert log[i] == Invocation(k, Completed, true);
    }
  }

  // ---------------------------------------------------------------------------
  // Stop's drain as the source writes it
  // ---------------------------------------------------------------------------

  /** Which handlers the drain calls before it stops, and whether it stopped by an exception.
      It stops at the first sensor query handler in the order, if there is one. */
  datatype DrainRun = DrainRun(called: seq<string>, threw: bool)

  /** The drain loop at stop's completion as written: each handler is called with
      ('complete', undefined, true) in `order`; a sensor query handler reads `msg.msg`
      from the `undefined` it receives, throws a TypeError, and the exception leaves the
      loop, so the rest of stop's completion (programComplete, the reset of the state,
      the queue and the table) never runs. */
  function DrainAsWritten(order: seq<string>, table: Table): (r: DrainRun)
    ensures |r.called| <= |order| && r.called == order[..|r.called|]
    ensures !r.threw ==> r.called == order
    ensures r.threw ==> r.called != [] && r.called[|r.called| - 1] in table &&
                        table[r.called[|r.called| - 1]].SensorQuery?
    ensures forall i :: 0 <= i < |r.called| - (if r.threw then 1 else 0) ==>
                        !(r.called[i] in table && table[r.called[i]].SensorQuery?)
  {
    if order == [] then DrainRun([], false)
    else if order[0] in table && table[order[0]].SensorQuery? then DrainRun([order[0]], true)
    else
      var rest := DrainAsWritten(order[1..], table);
      var called := [order[0]] + rest.called;
      assert forall i :: 0 < i < |called| ==> called[i] == rest.called[i - 1];
      DrainRun(called, rest.threw)
  }

  /** As written, the drain completes exactly when no sensor query is pending; with one
      pending, stop's completion is abandoned. */
  lemma {:induction false} DrainAsWrittenThrows(order: seq<string>, table: Table)
    requires Elems(order) <= table.Keys
    ensures DrainAsWritten(order, table).threw <==>
            exists i :: 0 <= i < |order| && table[order[i]].SensorQuery?
  {
    if order != [] {
      assert Elems(order[1..]) <= table.Keys by {
        assert forall i :: 0 <= i < |order[1..]| ==> order[1..][i] == order[i + 1];
      }
      DrainAsWrittenThrows(order[1..], table);
      if !table[order[0]].SensorQuery? {
        assert (exists i :: 0 <= i < |order| && table[order[i]].SensorQuery?) ==
               (exists i :: 0 <= i < |order[1..]| && table[order[1..][i]].SensorQuery?) by {
          forall i | 0 < i < |order| ensures order[i] == order[1..][i - 1] { }
        }
      }
    }
  }
}
