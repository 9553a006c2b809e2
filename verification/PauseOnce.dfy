/** `cw-pause-once`: whoever is nominated may pause once, and only a new nomination unpauses. */
module PauseOnce {
  import opened Types

  function SetPauser(valid: Addr -> bool, pauser: Option<Addr>): Result<PauseState> {
    if pauser.Some? && !valid(pauser.value) then Failure(InvalidAddress) else Success(PauseState(pauser, false))
  }

  function TryPause(po: PauseState, sender: Addr): Result<PauseState> {
    if po.paused then Failure(Paused)
    else if po.pauser != Some(sender) then Failure(Unauthorized)
    else Success(PauseState(None, true))
  }

  class PauseOrchestrator {
    var pauser: Option<Addr>
    var paused: bool

    ghost function State(): PauseState
      reads this
    {
      PauseState(pauser, paused)
    }

    constructor ()
      ensures State() == PauseState(None, false)
    {
      pauser, paused := None, false;
    }

    method Nominate(valid: Addr -> bool, pauser: Option<Addr>) returns (r: Result<()>)
      modifies this
      ensures r.Success? <==> pauser.None? || valid(pauser.value)
      ensures r.Success? ==> this.pauser == pauser && !paused
      ensures r.Failure? ==> r.error == InvalidAddress && unchanged(this)
    {
      if pauser.Some? && !valid(pauser.value) {
        return Failure(InvalidAddress);
      }
      this.pauser := pauser;
      paused := false;
      return Success(());
    }

    method ErrorIfPaused() returns (r: Result<()>)
      ensures r == if State().paused then Failure(Paused) else Success(())
    {
      return if paused then Failure(Paused) else Success(());
    }

    method PauseBy(sender: Addr) returns (r: Result<()>)
      modifies this
      ensures r.Success? <==> !old(paused) && old(pauser) == Some(sender)
      ensures r.Success? ==> paused && pauser == None
      ensures r.Failure? ==> r.error == (if old(paused) then Paused else Unauthorized) && unchanged(this)
    {
      r := ErrorIfPaused();
      if r.Success? {
        if pauser.None? || pauser.value != sender {
          r := Failure(Unauthorized);
        } else {
          pauser := None;
          paused := true;
        }
      }
    }
  }
}
