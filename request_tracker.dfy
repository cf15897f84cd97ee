/**
 * lib/requestTracker.ts: the request fingerprint `createRequestKey` and a registry of
 * abort controllers, at most one per fingerprint, that aborts whatever it displaces.
 */
module RequestTracker {
  import opened Wrappers

  // ---------------------------------------------------------------------------
  // Request keys
  // ---------------------------------------------------------------------------

  /**
   * The params part of a key. `params` is the JSON serialisation of the request's
   * query parameters when the request has any (a truthy `params` object), and none
   * otherwise; serialisation itself is not modelled.
   */
  function ParamsString(params: Option<string>): (s: string)
  {
    match params
    case None => ""
    case Some(serialized) => serialized
  }

  /** `createRequestKey(verb, url, params)`: the fingerprint `method:url:params`. */
  function CreateRequestKey(verb: string, url: string, params: Option<string>): (key: string)
    ensures |key| == |verb| + |url| + |ParamsString(params)| + 2
    ensures key[..|verb| + 1] == verb + ":"
    ensures key[|verb| + 1..|verb| + 1 + |url|] == url
    ensures key[|verb| + 1 + |url|..] == ":" + ParamsString(params)
  {
    verb + ":" + url + ":" + ParamsString(params)
  }

  /** Index of the first ':' in `s`, or `|s|` when there is none. */
  function FirstColon(s: string): (i: nat)
    ensures i <= |s|
    ensures i < |s| ==> s[i] == ':'
    ensures ':' !in s[..i]
  {
    if |s| == 0 then 0
    else if s[0] == ':' then 0
    else
      var j := FirstColon(s[1..]);
      assert s[..j + 1] == [s[0]] + s[1..][..j];
      j + 1
  }

  /** The inverse of CreateRequestKey: split a key at its first two colons. */
  function ParseRequestKey(key: string): (parts: Option<(string, string, string)>)
  {
    var i := FirstColon(key);
    if i == |key| then None
    else
      var rest := key[i + 1..];
      var j := FirstColon(rest);
      if j == |rest| then None
      else Some((key[..i], rest[..j], rest[j + 1..]))
  }

  /** In `a + ":" + b` with a colon-free `a`, the first colon is the one after `a`. */
  lemma FirstColonAfter(a: string, b: string)
    requires ':' !in a
    ensures FirstColon(a + ":" + b) == |a|
  {
    var s := a + ":" + b;
    assert s[|a|] == ':';
    assert s[..|a|] == a;
  }

  /**
   * For a colon-free verb and url (the client's methods and relative API paths),
   * a key can be split back into the method, the url and the params string.
   */
  lemma ParseCreateRoundTrip(verb: string, url: string, params: Option<string>)
    requires ':' !in verb && ':' !in url
    ensures ParseRequestKey(CreateRequestKey(verb, url, params)) == Some((verb, url, ParamsString(params)))
  {
    var p := ParamsString(params);
    var key := CreateRequestKey(verb, url, params);
    assert key == verb + ":" + (url + ":" + p);
    FirstColonAfter(verb, url + ":" + p);
    var rest := key[|verb| + 1..];
    assert rest == url + ":" + p;
    FirstColonAfter(url, p);
    assert key[..|verb|] == verb;
    assert rest[..|url|] == url;
    assert rest[|url| + 1..] == p;
  }

  /**
   * Two requests with colon-free methods and urls share a key exactly when they
   * agree on method, url and serialised params: identical reads collide, and
   * changing any part (in particular any serialised query value) changes the key.
   */
  lemma KeyInjective(m1: string, u1: string, p1: Option<string>, m2: string, u2: string, p2: Option<string>)
    requires ':' !in m1 && ':' !in u1 && ':' !in m2 && ':' !in u2
    ensures CreateRequestKey(m1, u1, p1) == CreateRequestKey(m2, u2, p2)
            <==> m1 == m2 && u1 == u2 && ParamsString(p1) == ParamsString(p2)
  {
    ParseCreateRoundTrip(m1, u1, p1);
    ParseCreateRoundTrip(m2, u2, p2);
  }

  /**
   * Without the colon-free condition keys are not injective: a colon in the url can
   * stand where the params begin.
   */
  lemma KeyCollidesAcrossColon()
    ensures CreateRequestKey("GET", "/a:b", None) == CreateRequestKey("GET", "/a", Some("b:"))
  {
  }

  // ---------------------------------------------------------------------------
  // The pending-request registry
  // ---------------------------------------------------------------------------

  /** An `AbortController`, by identity. */
  type Controller = nat

  /** The registry `pendingRequests` together with the set of controllers that have been aborted. */
  datatype TrackerState = TrackerState(pending: map<string, Controller>, aborted: set<Controller>)

  /** The controller `key` would displace: the one stored there, if any. */
  function Displaced(s: TrackerState, key: string): (d: set<Controller>)
    ensures key in s.pending ==> d == {s.pending[key]}
    ensures key !in s.pending ==> d == {}
  {
    if key in s.pending then {s.pending[key]} else {}
  }

  /** `getAbortController(key)`: the stored controller, or none; reads only. */
  function GetAbortController(s: TrackerState, key: string): (c: Option<Controller>)
    ensures c.Some? <==> key in s.pending
    ensures c.Some? ==> c.value == s.pending[key]
  {
    if key in s.pending then Some(s.pending[key]) else None
  }

  /** `setAbortController(key, c)`: abort what is at `key`, then store `c` there. */
  function SetAbortController(s: TrackerState, key: string, c: Controller): (r: TrackerState)
    ensures key in r.pending && r.pending[key] == c
    ensures r.pending - {key} == s.pending - {key}
    ensures key in s.pending ==> s.pending[key] in r.aborted
    ensures r.aborted == s.aborted + Displaced(s, key)
  {
    TrackerState(s.pending[key := c], s.aborted + Displaced(s, key))
  }

  /** `removeAbortController(key)`: forget `key` without aborting anything. */
  function RemoveAbortController(s: TrackerState, key: string): (r: TrackerState)
    ensures key !in r.pending
    ensures r.pending - {key} == s.pending - {key}
    ensures r.aborted == s.aborted
  {
    TrackerState(s.pending - {key}, s.aborted)
  }

  /** `cancelRequest(key)`: abort and forget the controller at `key`; nothing when absent. */
  function CancelRequest(s: TrackerState, key: string): (r: TrackerState)
    ensures key !in r.pending
    ensures r.pending - {key} == s.pending - {key}
    ensures key in s.pending ==> s.pending[key] in r.aborted
    ensures r.aborted == s.aborted + Displaced(s, key)
    ensures key !in s.pending ==> r == s
  {
    if key in s.pending then TrackerState(s.pending - {key}, s.aborted + {s.pending[key]}) else s
  }

  lemma RemoveIdempotent(s: TrackerState, key: string)
    ensures RemoveAbortController(RemoveAbortController(s, key), key) == RemoveAbortController(s, key)
  {
  }

  lemma CancelIdempotent(s: TrackerState, key: string)
    ensures CancelRequest(CancelRequest(s, key), key) == CancelRequest(s, key)
  {
  }

  /** One call into the registry's mutating interface. */
  datatype TrackerOp = Set(key: string, controller: Controller) | Remove(key: string) | Cancel(key: string)

  function Apply(s: TrackerState, op: TrackerOp): (r: TrackerState)
  {
    match op
    case Set(key, c) => SetAbortController(s, key, c)
    case Remove(key) => RemoveAbortController(s, key)
    case Cancel(key) => CancelRequest(s, key)
  }

  /** The controllers that `op` displaces from the registry (set and cancel do; remove does not). */
  function DisplacedBy(s: TrackerState, op: TrackerOp): (d: set<Controller>)
  {
    match op
    case Set(key, _) => Displaced(s, key)
    case Remove(_) => {}
    case Cancel(key) => Displaced(s, key)
  }

  function Run(s: TrackerState, ops: seq<TrackerOp>): (r: TrackerState)
    decreases |ops|
  {
    if ops == [] then s else Run(Apply(s, ops[0]), ops[1..])
  }

  /** Every controller displaced along `ops`, in any step. */
  function AllDisplaced(s: TrackerState, ops: seq<TrackerOp>): (d: set<Controller>)
    decreases |ops|
  {
    if ops == [] then {} else DisplacedBy(s, ops[0]) + AllDisplaced(Apply(s, ops[0]), ops[1..])
  }

  /**
   * After any sequence of calls, the aborted controllers are exactly those aborted
   * before plus those displaced by a set or a cancel: every displaced controller has
   * been aborted, and nothing else has (removal never aborts).
   */
  lemma {:induction false} RunAbortsExactlyDisplaced(s: TrackerState, ops: seq<TrackerOp>)
    ensures Run(s, ops).aborted == s.aborted + AllDisplaced(s, ops)
    decreases |ops|
  {
    if ops != [] {
      RunAbortsExactlyDisplaced(Apply(s, ops[0]), ops[1..]);
    }
  }

  /** A key not touched by `ops` keeps its controller (or its absence). */
  lemma {:induction false} RunLeavesOtherKeys(s: TrackerState, ops: seq<TrackerOp>, key: string)
    requires forall i :: 0 <= i < |ops| ==> ops[i].key != key
    ensures key in Run(s, ops).pending <==> key in s.pending
    ensures key in s.pending ==> Run(s, ops).pending[key] == s.pending[key]
    decreases |ops|
  {
    if ops != [] {
      var s' := Apply(s, ops[0]);
      assert s'.pending - {ops[0].key} == s.pending - {ops[0].key};
      assert key in s'.pending <==> key in s.pending;
      RunLeavesOtherKeys(s', ops[1..], key);
    }
  }

  /** The module-level registry, updated in place. */
  class Tracker {
    var pendingRequests: map<string, Controller>
    var aborted: set<Controller>

    function State(): (s: TrackerState)
      reads this
    {
      TrackerState(pendingRequests, aborted)
    }

    constructor()
      ensures State() == TrackerState(map[], {})
    {
      pendingRequests := map[];
      aborted := {};
    }

    method Get(key: string) returns (c: Option<Controller>)
      ensures c.Some? <==> key in pendingRequests
      ensures c.Some? ==> c.value == pendingRequests[key]
    {
      c := if key in pendingRequests then Some(pendingRequests[key]) else None;
    }

    method Set(key: string, c: Controller)
      modifies this
      ensures State() == SetAbortController(old(State()), key, c)
    {
      var existing := Get(key);
      if existing.Some? {
        aborted := aborted + {existing.value};
      }
      pendingRequests := pendingRequests[key := c];
    }

    method Remove(key: string)
      modifies this
      ensures State() == RemoveAbortController(old(State()), key)
    {
      pendingRequests := pendingRequests - {key};
    }

    method Cancel(key: string)
      modifies this
      ensures State() == CancelRequest(old(State()), key)
    {
      var controller := Get(key);
      if controller.Some? {
        aborted := aborted + {controller.value};
        pendingRequests := pendingRequests - {key};
      }
    }
  }
}
