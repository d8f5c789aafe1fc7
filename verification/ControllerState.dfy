/**
 * IngestControllerState (fog/ingest/server/src/controller_state.rs): what an ingest server is
 * currently trying to do. `StateValue` is the value of the object; the class updates it in place.
 */
module ControllerState {
  import opened Prelude
  import opened RecoveryTables

  type ServerId = nat
  datatype IngestMode = Idle | Active

  datatype StateValue = StateValue(
    mode: IngestMode, nextBlockIndex: nat, pubkeyExpiryWindow: nat,
    iid: Option<InvocationId>, peers: set<ServerId>)

  datatype StateChangeError = CannotSetNextBlockIndex | CannotReducePubkeyExpiry

  /** set_pubkey_expiry_window is refused exactly when it would shrink the window of an active server. */
  predicate WindowAllowed(s: StateValue, window: nat) {
    s.mode.Idle? || s.pubkeyExpiryWindow <= window
  }

  /** The expiry a server would publish now. */
  function PublishedExpiry(s: StateValue): nat {
    s.nextBlockIndex + s.pubkeyExpiryWindow
  }

  class IngestControllerState {
    var mode: IngestMode
    var nextBlockIndex: nat
    var pubkeyExpiryWindow: nat
    var ingestInvocationId: Option<InvocationId>
    var peers: set<ServerId>

    function Value(): StateValue
      reads this
    {
      StateValue(mode, nextBlockIndex, pubkeyExpiryWindow, ingestInvocationId, peers)
    }

    constructor (configPeers: set<ServerId>, configWindow: nat)
      ensures Value() == StateValue(Idle, 0, configWindow, None, configPeers)
    {
      mode, nextBlockIndex, pubkeyExpiryWindow := Idle, 0, configWindow;
      ingestInvocationId, peers := None, configPeers;
    }

    method SetActive()
      modifies this
      ensures Value() == old(Value()).(mode := Active)
    {
      mode := Active;
    }

    method SetIdle()
      modifies this
      ensures Value() == old(Value()).(mode := Idle)
    {
      mode := Idle;
    }

    /** The source asserts that the server is not idle. */
    method IncrementNextBlockIndex()
      requires mode.Active?
      modifies this
      ensures Value() == old(Value()).(nextBlockIndex := old(nextBlockIndex) + 1)
      ensures PublishedExpiry(old(Value())) < PublishedExpiry(Value())
    {
      nextBlockIndex := nextBlockIndex + 1;
    }

    /** Only an idle server may jump to another block. */
    method SetNextBlockIndex(newVal: nat) returns (r: Result<(), StateChangeError>)
      modifies this
      ensures r.Ok? <==> old(mode).Idle?
      ensures r.Err? ==> r.error == CannotSetNextBlockIndex
      ensures r.Ok? ==> Value() == old(Value()).(nextBlockIndex := newVal)
      ensures r.Err? ==> Value() == old(Value())
    {
      if mode == Idle {
        nextBlockIndex := newVal;
        r := Ok(());
      } else {
        r := Err(CannotSetNextBlockIndex);
      }
    }

    /** While active, the window only grows, so the published expiry never falls. */
    method SetPubkeyExpiryWindow(val: nat) returns (r: Result<(), StateChangeError>)
      modifies this
      ensures r.Ok? <==> old(mode).Idle? || old(pubkeyExpiryWindow) <= val
      ensures r.Err? ==> r.error == CannotReducePubkeyExpiry
      ensures r.Ok? ==> Value() == old(Value()).(pubkeyExpiryWindow := val)
      ensures r.Err? ==> Value() == old(Value())
      ensures mode.Active? ==> PublishedExpiry(old(Value())) <= PublishedExpiry(Value())
    {
      if mode == Idle {
        pubkeyExpiryWindow := val;
        r := Ok(());
      } else {
        var oldVal := pubkeyExpiryWindow;
        if oldVal > val {
          r := Err(CannotReducePubkeyExpiry);
        } else {
          pubkeyExpiryWindow := val;
          r := Ok(());
        }
      }
    }

    method SetIngestInvocationId(val: Option<InvocationId>)
      modifies this
      ensures Value() == old(Value()).(iid := val)
    {
      ingestInvocationId := val;
    }

    method SetPeers(newPeers: set<ServerId>)
      modifies this
      ensures Value() == old(Value()).(peers := newPeers)
    {
      var added, removed := newPeers - peers, peers - newPeers;
      if added != {} || removed != {} {
        peers := newPeers;
      }
    }
  }
}
