/** The "Close Gig" button on a gig page: only the gig's creator sees it, and
    it deletes the gig after a confirmation. */
module CloseGig {
  import opened Types
  import opened Backend

  const DeleteFailedAlert: string := "Failed to delete gig. Please try again."

  /** The button is rendered only for the signed-in creator of the gig. */
  predicate ShowCloseButton(user: Option<User>, creatorId: Id) {
    user.Some? && user.value.id == creatorId
  }

  class DeleteGigButton {
    const gigId: Id
    const creatorId: Id
    /** The signed-in user, from the session context. */
    const user: Option<User>
    var loading: bool
    var routes: seq<string>
    var refreshes: nat
    var alerts: seq<string>

    constructor (gigId: Id, creatorId: Id, user: Option<User>)
      ensures this.gigId == gigId && this.creatorId == creatorId && this.user == user
      ensures !loading && routes == [] && refreshes == 0 && alerts == []
    {
      this.gigId := gigId;
      this.creatorId := creatorId;
      this.user := user;
      loading := false;
      routes := [];
      refreshes := 0;
      alerts := [];
    }

    /** The click handler, reachable only while the button is shown; `confirmed`
        is the answer to the confirmation dialog. A declined dialog changes
        nothing. Otherwise exactly one delete of this gig is sent; the page
        goes home and refreshes exactly when it succeeded, and alerts exactly
        when it failed. Loading is off afterwards either way. */
    method HandleDelete(confirmed: bool, store: Store)
      requires ShowCloseButton(user, creatorId)
      modifies this`loading, this`routes, this`refreshes, this`alerts, store`log
      ensures !confirmed ==>
        store.log == old(store.log) && loading == old(loading) && routes == old(routes)
        && refreshes == old(refreshes) && alerts == old(alerts)
      ensures confirmed ==>
        && |store.log| == |old(store.log)| + 1
        && store.log[..|old(store.log)|] == old(store.log)
        && var call := store.log[|old(store.log)|];
        && call.request == DeleteGig(gigId)
        && !loading
        && (call.outcome.Success? ==>
              routes == old(routes) + ["/"] && refreshes == old(refreshes) + 1 && alerts == old(alerts))
        && (call.outcome.Failure? ==>
              routes == old(routes) && refreshes == old(refreshes) && alerts == old(alerts) + [DeleteFailedAlert])
    {
      if !confirmed {
        return;
      }
      loading := true;
      var outcome := store.Send(DeleteGig(gigId));
      if outcome.Success? {
        routes := routes + ["/"];
        refreshes := refreshes + 1;
      } else {
        alerts := alerts + [DeleteFailedAlert];
      }
      loading := false;
    }
  }
}
