/**
 * The semaphore of the SNMP connector: a buffered channel that every Get, Walk and Bulk request sends a
 * token into before it opens a client, and receives one from, deferred, on its way out.
 */
module SnmpSemaphore {

  const CAPACITY: nat := 32

  /** Where a request stands. A request holds a token from Opening to Releasing. */
  datatype Stage = Start | Waiting | Opening | Working | Closing | Releasing | Done

  /** A request, with counts of what it has done so far. */
  datatype Request = Request(stage: Stage, acquired: nat, released: nat, dialed: nat, closed: nat)

  /** The channel's occupancy, and the requests that ever arrived. */
  datatype System = System(tokens: nat, requests: map<nat, Request>)

  datatype Action =
    | Arrive       // a request comes in
    | Reject       // its input is not valid
    | Accept       // its input is valid
    | Acquire      // the channel takes its token
    | Cancel       // its context ends while it waits
    | OpenFails    // credentials do not resolve or the dial fails
    | OpenSucceeds
    | Finish       // the operation ends, with or without an error
    | Close        // deferred close of the client
    | Release      // deferred release of the token

  predicate HoldsToken(r: Request)
  {
    r.stage in {Opening, Working, Closing, Releasing}
  }

  predicate HasClient(r: Request)
  {
    r.stage in {Working, Closing}
  }

  /** Request `t` can take the action now; sending blocks on a full channel, receiving on an empty one. */
  predicate IsEnabled(s: System, t: nat, a: Action)
  {
    match a
    case Arrive => t !in s.requests
    case Reject => t in s.requests && s.requests[t].stage == Start
    case Accept => t in s.requests && s.requests[t].stage == Start
    case Acquire => t in s.requests && s.requests[t].stage == Waiting && s.tokens < CAPACITY
    case Cancel => t in s.requests && s.requests[t].stage == Waiting
    case OpenFails => t in s.requests && s.requests[t].stage == Opening
    case OpenSucceeds => t in s.requests && s.requests[t].stage == Opening
    case Finish => t in s.requests && s.requests[t].stage == Working
    case Close => t in s.requests && s.requests[t].stage == Closing
    case Release => t in s.requests && s.requests[t].stage == Releasing && s.tokens > 0
  }

  function After(r: Request, a: Action): Request
  {
    match a
    case Arrive => r
    case Reject => r.(stage := Done)
    case Accept => r.(stage := Waiting)
    case Acquire => r.(stage := Opening, acquired := r.acquired + 1)
    case Cancel => r.(stage := Done)
    case OpenFails => r.(stage := Releasing)
    case OpenSucceeds => r.(stage := Working, dialed := r.dialed + 1)
    case Finish => r.(stage := Closing)
    case Close => r.(stage := Releasing, closed := r.closed + 1)
    case Release => r.(stage := Done, released := r.released + 1)
  }

  function Step(s: System, t: nat, a: Action): System
    requires IsEnabled(s, t, a)
  {
    var r := if a == Arrive then Request(Start, 0, 0, 0, 0) else After(s.requests[t], a);
    System(if a == Acquire then s.tokens + 1 else if a == Release then s.tokens - 1 else s.tokens,
           s.requests[t := r])
  }

  // ---------- Safety ----------

  ghost function Holders(s: System): set<nat>
  {
    set t | t in s.requests && HoldsToken(s.requests[t])
  }

  /** Tokens and clients are taken once and given back once, and only by those that took them. */
  predicate IsBalanced(r: Request)
  {
    && r.acquired <= 1
    && (r.stage in {Start, Waiting} ==> r.acquired == 0)
    && (r.stage == Opening ==> r.dialed == 0)
    && r.released == r.acquired - (if HoldsToken(r) then 1 else 0)
    && r.dialed <= r.acquired
    && r.closed == r.dialed - (if HasClient(r) then 1 else 0)
  }

  ghost predicate IsSafe(s: System)
  {
    && s.tokens == |Holders(s)|
    && s.tokens <= CAPACITY
    && forall t | t in s.requests :: IsBalanced(s.requests[t])
  }

  lemma StepKeepsSafe(s: System, t: nat, a: Action)
    requires IsSafe(s) && IsEnabled(s, t, a)
    ensures IsSafe(Step(s, t, a))
  {
    StepKeepsBalance(s, t, a);
    StepMovesToken(s, t, a);
    if a == Acquire {
      assert Holders(s) * {t} == {};
    }
  }

  lemma StepKeepsBalance(s: System, t: nat, a: Action)
    requires IsEnabled(s, t, a) && forall u | u in s.requests :: IsBalanced(s.requests[u])
    ensures forall u | u in Step(s, t, a).requests :: IsBalanced(Step(s, t, a).requests[u])
  {
    assert t in s.requests ==> IsBalanced(s.requests[t]);
    assert IsBalanced(Step(s, t, a).requests[t]);
  }

  lemma StepMovesToken(s: System, t: nat, a: Action)
    requires IsEnabled(s, t, a)
    ensures t in Holders(s) <==> t in s.requests && HoldsToken(s.requests[t])
    ensures Holders(Step(s, t, a)) == if a == Acquire then Holders(s) + {t}
                                      else if a == Release then Holders(s) - {t}
                                      else Holders(s)
  {
    var s' := Step(s, t, a);
    assert forall u | u != t :: u in s'.requests <==> u in s.requests;
    assert forall u | u != t && u in s.requests :: s'.requests[u] == s.requests[u];
  }

  /** A run: who did what, one action after another, from an idle connector. */
  ghost predicate IsRun(states: seq<System>, steps: seq<(nat, Action)>)
  {
    && |states| == |steps| + 1
    && states[0] == System(0, map[])
    && forall i {:trigger steps[i]} | 0 <= i < |steps| ::
         IsEnabled(states[i], steps[i].0, steps[i].1) && states[i + 1] == Step(states[i], steps[i].0, steps[i].1)
  }

  /**
   * In every state of every interleaving of any number of requests, the channel holds one token for each
   * request between acquire and release, and never more than its capacity.
   */
  lemma {:induction false} RunsStaySafe(states: seq<System>, steps: seq<(nat, Action)>, k: nat)
    requires IsRun(states, steps) && k < |states|
    ensures IsSafe(states[k])
  {
    if k > 0 {
      RunsStaySafe(states, steps, k - 1);
      StepKeepsSafe(states[k - 1], steps[k - 1].0, steps[k - 1].1);
    } else {
      assert Holders(states[0]) == {};
    }
  }

  /** A request that is done has released every token it acquired and closed every client it dialed. */
  lemma DoneMeansBalanced(states: seq<System>, steps: seq<(nat, Action)>, k: nat, t: nat)
    requires IsRun(states, steps) && k < |states| && t in states[k].requests
    requires states[k].requests[t].stage == Done
    ensures states[k].requests[t].released == states[k].requests[t].acquired <= 1
    ensures states[k].requests[t].closed == states[k].requests[t].dialed
  {
    RunsStaySafe(states, steps, k);
  }

  /** Releasing never blocks: a request that is about to release finds a token in the channel. */
  lemma ReleaseNeverBlocks(states: seq<System>, steps: seq<(nat, Action)>, k: nat, t: nat)
    requires IsRun(states, steps) && k < |states| && t in states[k].requests
    requires states[k].requests[t].stage == Releasing
    ensures IsEnabled(states[k], t, Release)
  {
    RunsStaySafe(states, steps, k);
    assert t in Holders(states[k]);
  }

  /** A cancelled request never took a token: the select chooses between the token and the cancellation. */
  lemma CancelTakesNoToken(states: seq<System>, steps: seq<(nat, Action)>, k: nat)
    requires IsRun(states, steps) && k < |steps| && steps[k].1 == Cancel
    ensures states[k + 1].requests[steps[k].0].acquired == 0
    ensures states[k + 1].tokens == states[k].tokens
  {
    assert IsEnabled(states[k], steps[k].0, steps[k].1);
    RunsStaySafe(states, steps, k);
  }

  /**
   * No deadlock: while a request is unfinished some request can move without being cancelled. A full
   * channel is held by requests that can all move on towards their release.
   */
  lemma SomeRequestCanMove(states: seq<System>, steps: seq<(nat, Action)>, k: nat, t: nat)
    requires IsRun(states, steps) && k < |states| && t in states[k].requests
    requires states[k].requests[t].stage != Done
    ensures exists u, a :: u in states[k].requests && a != Cancel && a != Arrive && IsEnabled(states[k], u, a)
  {
    var s := states[k];
    RunsStaySafe(states, steps, k);
    var u := t;
    if s.requests[t].stage == Waiting && s.tokens == CAPACITY {
      u :| u in Holders(s);
    }
    assert u in Holders(s) || s.requests[u].stage == Start || s.tokens < CAPACITY;
    var a := match s.requests[u].stage
      case Start => Accept
      case Waiting => Acquire
      case Opening => OpenFails
      case Working => Finish
      case Closing => Close
      case Releasing => Release
      case Done => Cancel;
    assert IsEnabled(s, u, a);
  }
}
