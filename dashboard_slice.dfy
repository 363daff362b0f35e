/** The dashboard store: the overview the server last sent, the loading flag
    and the last error. The overview's shape is a type parameter. */
module DashboardSlice {
  import opened Common

  class DashboardStore<Overview> {
    var overview: Option<Overview>
    var loading: bool
    var error: Option<string>

    /** `initialState` */
    constructor ()
      ensures overview.None? && !loading && error.None?
    {
      overview := None;
      loading := false;
      error := None;
    }

    /** `fetchDashboardDataThunk.pending`: a stale overview stays on show. */
    method FetchPending()
      modifies this`loading, this`error
      ensures loading && error.None?
    {
      loading := true;
      error := None;
    }

    /** `fetchDashboardDataThunk.fulfilled`: the error of an earlier failure
        is left in place. */
    method FetchFulfilled(o: Overview)
      modifies this`overview, this`loading
      ensures overview == Some(o) && !loading
    {
      overview := Some(o);
      loading := false;
    }

    /** `fetchDashboardDataThunk.rejected`: the stale overview is kept. */
    method FetchRejected(payload: Option<string>)
      modifies this`error, this`loading
      ensures error == payload && !loading
    {
      error := payload;
      loading := false;
    }
  }
}
