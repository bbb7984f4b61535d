/** The lifecycle record every generation hook carries (`useApiState` in
    src/hooks/useApi.js): `loading`, `error` and `status`, with their
    setters.  The setters check no transition; they keep the record coherent
    on their own. */
module Lifecycle {
  import opened Js

  /** `'idle' | 'running' | 'streaming' | 'polling' | 'success' | 'error'` */
  datatype Status = Idle | Running | Streaming | Polling | Success | Failed

  class ApiState {
    var loading: bool
    var error: Option<JsError>
    var status: Status

    /** What every setter preserves: a task is loading only while it is
        running, streaming or polling; idle and success carry no error; error
        always does. */
    predicate Coherent()
      reads this
    {
      && (loading ==> status in {Running, Streaming, Polling})
      && (status == Idle || status == Success ==> !loading && error.None?)
      && (status == Failed ==> !loading && error.Some?)
    }

    constructor ()
      ensures loading == false && error == None && status == Idle
      ensures Coherent()
    {
      loading := false;
      error := None;
      status := Idle;
    }

    method Reset()
      modifies this
      ensures loading == false && error == None && status == Idle
      ensures Coherent()
    {
      loading := false;
      error := None;
      status := Idle;
    }

    /** `setLoading(false)` leaves `status` as it was. */
    method SetLoading(isLoading: bool)
      modifies this
      ensures loading == isLoading && error == old(error)
      ensures status == if isLoading then Running else old(status)
      ensures old(Coherent()) ==> Coherent()
    {
      loading := isLoading;
      status := if isLoading then Running else status;
    }

    method SetError(e: JsError)
      modifies this
      ensures error == Some(e) && status == Failed && !loading
      ensures Coherent()
    {
      error := Some(e);
      status := Failed;
      loading := false;
    }

    method SetSuccess()
      modifies this
      ensures status == Success && !loading && error == None
      ensures Coherent()
    {
      status := Success;
      loading := false;
      error := None;
    }

    /** A hook moving a loading task to a more specific running state
        (`status.value = 'streaming'` or `'polling'`). */
    method Enter(s: Status)
      requires s == Streaming || s == Polling
      modifies this`status
      ensures status == s
      ensures old(Coherent()) && loading ==> Coherent()
    {
      status := s;
    }
  }
}
