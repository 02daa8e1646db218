/** SNMP walks: how many variables a walk may return, and the callback that cuts it off. */
module SnmpWalk {
  import opened Wrappers

  const DEFAULT_WALK_MAX: int := 1000

  /** The device's own limit, the file's default, or the built-in one. */
  function DeviceLimit(fileDefault: int, device: Option<int>): (limit: int)
    ensures limit >= 1
    ensures device.Some? && device.value > 0 ==> limit == device.value
    ensures !(device.Some? && device.value > 0) ==> limit == if fileDefault > 0 then fileDefault else 1000
  {
    var chosen := if device.Some? && device.value > 0 then device.value else fileDefault;
    if chosen <= 0 then DEFAULT_WALK_MAX else chosen
  }

  /** A request can lower the limit and not raise it. */
  function WalkCap(fileDefault: int, device: Option<int>, requested: int): (cap: int)
    ensures 1 <= cap <= DeviceLimit(fileDefault, device)
    ensures requested > 0 ==> cap <= requested
    ensures requested <= 0 ==> cap == DeviceLimit(fileDefault, device)
  {
    var limit := DeviceLimit(fileDefault, device);
    if requested > 0 && requested < limit then requested else limit
  }

  /** What the client's walk returns: nothing, or an error whose text may speak of a truncated walk. */
  datatype ClientError = NoError | Error(saysTruncated: bool)

  /**
   * A client that delivers its PDUs in order and stops when the callback fails. `onStop` is what it then
   * returns, `own` what it returns when it has delivered all.
   */
  datatype Client<Pdu> = Client(pdus: seq<Pdu>, onStop: ClientError, own: ClientError)

  /** The context ends before the n-th callback, counted from 0, or not at all. */
  type Deadline = Option<nat>

  predicate HasEnded(d: Deadline, n: nat)
  {
    d.Some? && d.value <= n
  }

  datatype Outcome<Pdu> = Walked(vars: seq<Pdu>, truncated: bool) | Cancelled | ClientFailed

  /** The variables doWalk's callback captures. */
  class Walker<Pdu> {
    var vars: seq<Pdu>
    var truncated: bool
    const maxOIDs: nat

    constructor (maxOIDs: nat)
      ensures vars == [] && !truncated && this.maxOIDs == maxOIDs
    {
      this.maxOIDs := maxOIDs;
      vars, truncated := [], false;
    }

    /** walkFn: refuses when the context has ended or the cap is reached. */
    method Visit(pdu: Pdu, ended: bool) returns (ok: bool)
      modifies this
      ensures ok <==> !ended && |old(vars)| < maxOIDs
      ensures vars == if ok then old(vars) + [pdu] else old(vars)
      ensures truncated == (old(truncated) || (!ended && |old(vars)| >= maxOIDs))
    {
      if ended {
        return false;
      }
      if |vars| >= maxOIDs {
        truncated := true;
        return false;
      }
      vars := vars + [pdu];
      return true;
    }
  }

  /** How many PDUs are kept: up to the end of the PDUs, the cap, or the end of the context. */
  function KeptCount<Pdu>(c: Client<Pdu>, cap: nat, d: Deadline): nat
  {
    var most := if |c.pdus| <= cap then |c.pdus| else cap;
    if d.Some? && d.value < most then d.value else most
  }

  /** What doWalk answers. */
  function WalkOutcome<Pdu>(c: Client<Pdu>, cap: nat, d: Deadline): Outcome<Pdu>
  {
    var k := KeptCount(c, cap, d);
    var vars := c.pdus[..k];
    if k < |c.pdus| && !HasEnded(d, k) then Walked(vars, true)
    else
      var error := if k < |c.pdus| then c.onStop else c.own;
      if error.NoError? then Walked(vars, false)
      else if HasEnded(d, k) then Cancelled
      else if error.saysTruncated then Walked(vars, true)
      else ClientFailed
  }

  method DoWalk<Pdu>(c: Client<Pdu>, cap: nat, d: Deadline) returns (r: Outcome<Pdu>)
    requires cap >= 1
    ensures r == WalkOutcome(c, cap, d)
  {
    var w := new Walker<Pdu>(cap);
    var error := c.own;
    var calls := 0;
    while calls < |c.pdus|
      invariant calls <= |c.pdus| && error == c.own
      invariant w.vars == c.pdus[..calls] && calls <= cap && !w.truncated
      invariant d.Some? ==> calls <= d.value
      invariant fresh(w) && w.maxOIDs == cap
    {
      var ok := w.Visit(c.pdus[calls], HasEnded(d, calls));
      if !ok {
        error := c.onStop;
        break;
      }
      calls := calls + 1;
    }
    assert |w.vars| == KeptCount(c, cap, d);
    if error != NoError && !w.truncated {
      if HasEnded(d, calls) {
        return Cancelled;
      }
      if !error.saysTruncated {
        return ClientFailed;
      }
      w.truncated := true;
    }
    return Walked(w.vars, w.truncated);
  }

  /** The exact answer: the first PDUs up to the cap, truncated when there are more. */
  function Exact<Pdu>(pdus: seq<Pdu>, cap: nat): Outcome<Pdu>
  {
    Walked(if |pdus| <= cap then pdus else pdus[..cap], |pdus| > cap)
  }

  /**
   * Truncation is exact precisely when the context outlives the callbacks that count and, for a walk
   * within the cap, the client reports no error of its own. Then it does not matter how the client
   * reports that it was stopped.
   */
  lemma TruncationIsExact<Pdu>(c: Client<Pdu>, cap: nat, d: Deadline)
    requires cap >= 1
    ensures WalkOutcome(c, cap, d) == Exact(c.pdus, cap)
       <==> if |c.pdus| > cap then !HasEnded(d, cap)
            else c.own.NoError? && (|c.pdus| > 0 ==> !HasEnded(d, |c.pdus| - 1))
  {
    var k := KeptCount(c, cap, d);
    assert |c.pdus[..k]| == k;
    assert k == |c.pdus| ==> c.pdus[..k] == c.pdus;
  }

  /** The context ends a walk: it stops the callback before the end and no later than the cap would. */
  predicate IsCutShort<Pdu>(c: Client<Pdu>, cap: nat, d: Deadline)
  {
    d.Some? && d.value < |c.pdus| && d.value <= cap
  }

  /** All PDUs are delivered and kept. */
  predicate IsComplete<Pdu>(c: Client<Pdu>, cap: nat, d: Deadline)
  {
    |c.pdus| <= cap && (d.None? || d.value >= |c.pdus|)
  }

  /** The cap stops a walk exactly when neither of these holds; every walk ends in one of the three ways. */
  lemma WalksEnd<Pdu>(c: Client<Pdu>, cap: nat, d: Deadline)
    requires cap >= 1
    ensures !(IsCutShort(c, cap, d) && IsComplete(c, cap, d))
    ensures !IsCutShort(c, cap, d) && !IsComplete(c, cap, d) ==> WalkOutcome(c, cap, d) == Walked(c.pdus[..cap], true)
    ensures IsCutShort(c, cap, d) ==>
              WalkOutcome(c, cap, d) == if c.onStop.NoError? then Walked(c.pdus[..d.value], false) else Cancelled
    ensures IsComplete(c, cap, d) && c.own.NoError? ==> WalkOutcome(c, cap, d) == Walked(c.pdus, false)
  {
    assert |c.pdus| <= cap ==> c.pdus[..|c.pdus|] == c.pdus;
  }

  /** A walk is cancelled exactly when the context cuts it short, or ends with it, and the client reports an error. */
  lemma CancelledExactly<Pdu>(c: Client<Pdu>, cap: nat, d: Deadline)
    requires cap >= 1
    ensures WalkOutcome(c, cap, d).Cancelled? <==>
              || (IsCutShort(c, cap, d) && !c.onStop.NoError?)
              || (IsComplete(c, cap, d) && d == Some(|c.pdus|) && !c.own.NoError?)
  {
  }

  /** It fails exactly when all is delivered in time and the client then reports an error about something else. */
  lemma ClientFailsExactly<Pdu>(c: Client<Pdu>, cap: nat, d: Deadline)
    requires cap >= 1
    ensures WalkOutcome(c, cap, d).ClientFailed? <==>
              IsComplete(c, cap, d) && d != Some(|c.pdus|) && c.own == Error(false)
  {
  }

  /** Without cancellation and without an error of its own, any such client is cut off exactly. */
  lemma QuietWalksAreExact<Pdu>(c: Client<Pdu>, cap: nat)
    requires cap >= 1 && c.own.NoError?
    ensures WalkOutcome(c, cap, None) == Exact(c.pdus, cap)
  {
    TruncationIsExact(c, cap, None);
  }

  /** An error of the client that happens to speak of truncation is reported as one, short of the cap. */
  lemma ClientErrorCanLookTruncated()
    ensures WalkOutcome(Client([1, 2], NoError, Error(true)), 5, None) == Walked([1, 2], true)
  {
    var c := Client([1, 2], NoError, Error(true));
    assert c.pdus[..KeptCount(c, 5, None)] == [1, 2];
  }
}
