/** The connection state machine of connection/state_manager.go. */
module ConnectionStates {

  datatype ConnState = Idle | Connecting | Acquired | Executing | Checking | Closing | Closed

  const ALL_STATES: seq<ConnState> := [Idle, Connecting, Acquired, Executing, Checking, Closing, Closed]

  predicate CanTransition(from: ConnState, to: ConnState) {
    match from
    case Idle => to in {Connecting, Acquired, Checking, Closing, Closed}
    case Connecting => to in {Acquired, Closing, Closed}
    case Acquired => to in {Executing, Idle, Checking, Closing, Closed}
    case Executing => to in {Acquired, Closing, Closed}
    case Checking => to in {Idle, Acquired, Closing, Closed}
    case Closing => to == Closed
    case Closed => false
  }

  predicate IsOperational(s: ConnState) {
    s in {Idle, Connecting, Acquired, Executing, Checking}
  }

  /** A walk through the state machine: every hop is an allowed transition. */
  ghost predicate Walk(p: seq<ConnState>) {
    forall i :: 0 <= i < |p| - 1 ==> CanTransition(p[i], p[i + 1])
  }

  /** The allowed targets, each once. State by state: only an owner or a checker gives back,
      only a borrower executes, nothing executes or connects out of Checking, whatever is
      operational can begin to close, and everything but Closed can be closed. */
  method GetValidTransitions(from: ConnState) returns (valid: seq<ConnState>)
    ensures forall t :: t in valid <==> CanTransition(from, t)
    ensures forall i, j :: 0 <= i < j < |valid| ==> valid[i] != valid[j]
    ensures Idle in valid <==> from == Acquired || from == Checking
    ensures Connecting in valid <==> from == Idle
    ensures Acquired in valid <==> from == Idle || from == Connecting || from == Executing || from == Checking
    ensures Executing in valid <==> from == Acquired
    ensures Checking in valid <==> from == Idle || from == Acquired
    ensures Closing in valid <==> from != Closing && from != Closed
    ensures Closed in valid <==> from != Closed
  {
    valid := [];
    for k := 0 to |ALL_STATES|
      invariant forall t :: t in valid <==> t in ALL_STATES[..k] && CanTransition(from, t)
      invariant forall i, j :: 0 <= i < j < |valid| ==> valid[i] != valid[j]
    {
      assert ALL_STATES[..k + 1] == ALL_STATES[..k] + [ALL_STATES[k]];
      if CanTransition(from, ALL_STATES[k]) {
        valid := valid + [ALL_STATES[k]];
      }
    }
    assert forall t: ConnState :: t in ALL_STATES by {
      forall t: ConnState ensures t in ALL_STATES {
        match t {
          case Idle => assert t == ALL_STATES[0];
          case Connecting => assert t == ALL_STATES[1];
          case Acquired => assert t == ALL_STATES[2];
          case Executing => assert t == ALL_STATES[3];
          case Checking => assert t == ALL_STATES[4];
          case Closing => assert t == ALL_STATES[5];
          case Closed => assert t == ALL_STATES[6];
        }
      }
    }
    assert ALL_STATES[..|ALL_STATES|] == ALL_STATES;
  }

  /** Closing is a point of no return on every walk: from there on a
      connection is Closing or Closed, and it is Closed for good after at most one hop. */
  lemma {:induction false} ClosingIsForever(p: seq<ConnState>, i: nat, j: nat)
    requires Walk(p) && i <= j < |p| && p[i] in {Closing, Closed}
    ensures p[j] in {Closing, Closed}
    ensures i < j ==> j == i + 1 && p[i] == Closing && p[j] == Closed
    decreases j - i
  {
    if i < j {
      assert CanTransition(p[i], p[i + 1]);
      ClosingIsForever(p, i + 1, j);
    }
  }

  /** Every walk that has not closed can still close in one hop, so teardown is never blocked. */
  lemma OperationalCanClose(s: ConnState)
    ensures IsOperational(s) <==> CanTransition(s, Closing)
    ensures s != Closed <==> CanTransition(s, Closed)
  {
  }
}
