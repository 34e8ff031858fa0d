/** The "Contact Seller" button on a gig: find the requester's conversation
    with the gig's creator, or create one with a seed message, then open it. */
module ContactSeller {
  import opened Types
  import opened Backend

  /** The seed message of a new conversation. */
  function SeedMessage(gigTitle: string): string {
    "Hi, I'm interested in your gig: \"" + gigTitle + "\""
  }

  function ConversationRoute(id: Id): string {
    "/messages/" + id
  }

  const FailureAlert: string := "Failed to start conversation. Please try again."
  const SelfContactAlert: string := "You cannot contact yourself!"

  class ContactSellerButton {
    const gigId: Id
    const sellerId: Id
    const gigTitle: string
    /** The signed-in user, from the session context. */
    const user: Option<User>
    var loading: bool
    /** The routes pushed onto the router, oldest first. */
    var routes: seq<string>
    var alerts: seq<string>

    constructor (gigId: Id, sellerId: Id, gigTitle: string, user: Option<User>)
      ensures this.gigId == gigId && this.sellerId == sellerId && this.gigTitle == gigTitle && this.user == user
      ensures !loading && routes == [] && alerts == []
    {
      this.gigId := gigId;
      this.sellerId := sellerId;
      this.gigTitle := gigTitle;
      this.user := user;
      loading := false;
      routes := [];
      alerts := [];
    }

    /** The click handler. Without a user it goes to the login page; a seller
        contacting themselves is refused; otherwise an existing conversation is
        opened, or a new Active one is created and seeded before it is opened.
        A failed lookup, and one that matches several conversations, counts as
        "none found", so duplicates are never reused. A failed create sends no
        message; a failed seed message leaves the new conversation in place.
        Both alert and stay on the page. Loading is off again on every path
        that turned it on. */
    method HandleContact(store: Store) returns (ghost sent: seq<Call>)
      modifies this`loading, this`routes, this`alerts, store`log, store`conversations
      ensures store.log == old(store.log) + sent
      ensures user.None? ==>
        sent == [] && store.conversations == old(store.conversations)
        && routes == old(routes) + ["/login"] && alerts == old(alerts) && loading == old(loading)
      ensures user.Some? && user.value.id == sellerId ==>
        sent == [] && store.conversations == old(store.conversations)
        && routes == old(routes) && alerts == old(alerts) + [SelfContactAlert] && loading == old(loading)
      ensures user.Some? && user.value.id != sellerId ==>
        var me := user.value.id;
        && !loading
        && |sent| >= 1 && sent[0].request == FindConversation(gigId, me, sellerId)
        && var found := SingleMatch(sent[0].outcome, old(store.conversations), gigId, me, sellerId);
        && (found.Some? ==>
              |sent| == 1 && store.conversations == old(store.conversations)
              && routes == old(routes) + [ConversationRoute(found.value)] && alerts == old(alerts))
        && (found.None? ==>
              && |sent| >= 2 && sent[1].request == InsertConversation(gigId, me, sellerId, Active)
              && (sent[1].outcome.Failure? ==>
                    |sent| == 2 && store.conversations == old(store.conversations)
                    && routes == old(routes) && alerts == old(alerts) + [FailureAlert])
              && (sent[1].outcome.Success? ==>
                    && |store.conversations| == |old(store.conversations)| + 1
                    && store.conversations[..|old(store.conversations)|] == old(store.conversations)
                    && var created := store.conversations[|old(store.conversations)|];
                    && Matches(created, gigId, me, sellerId) && created.status == Active
                    && |sent| == 3
                    && sent[2].request == InsertMessage(MessageDraft(created.id, me, SeedMessage(gigTitle), Some(false), None))
                    && (sent[2].outcome.Success? ==> routes == old(routes) + [ConversationRoute(created.id)] && alerts == old(alerts))
                    && (sent[2].outcome.Failure? ==> routes == old(routes) && alerts == old(alerts) + [FailureAlert])))
    {
      if user.None? {
        routes := routes + ["/login"];
        sent := [];
        return;
      }
      var me := user.value.id;
      if me == sellerId {
        alerts := alerts + [SelfContactAlert];
        sent := [];
        return;
      }
      loading := true;
      var lookup, found := store.Lookup(gigId, me, sellerId);
      sent := [Call(FindConversation(gigId, me, sellerId), lookup)];
      if found.Some? {
        routes := routes + [ConversationRoute(found.value)];
        loading := false;
        return;
      }
      var created, row := store.CreateConversation(gigId, me, sellerId, Active);
      sent := sent + [Call(InsertConversation(gigId, me, sellerId, Active), created)];
      if created.Failure? {
        alerts := alerts + [FailureAlert];
        loading := false;
        return;
      }
      var seed := InsertMessage(MessageDraft(row.value.id, me, SeedMessage(gigTitle), Some(false), None));
      var seeded := store.Send(seed);
      sent := sent + [Call(seed, seeded)];
      if seeded.Failure? {
        alerts := alerts + [FailureAlert];
        loading := false;
        return;
      }
      routes := routes + [ConversationRoute(row.value.id)];
      loading := false;
    }
  }

  /** One contact by a signed-in buyer, seen from the number of matching
      conversations before it: with none, a fully successful create-and-seed
      adds exactly one matching conversation and opens it; with one, a
      successful lookup opens it and changes nothing. */
  method ContactOnce(button: ContactSellerButton, store: Store) returns (ghost sent: seq<Call>)
    requires button.user.Some? && button.user.value.id != button.sellerId
    modifies button`loading, button`routes, button`alerts, store`log, store`conversations
    ensures store.log == old(store.log) + sent && |sent| >= 1
    ensures
      var me := button.user.value.id;
      CountMatches(old(store.conversations), button.gigId, me, button.sellerId) == 0 && Succeeded(sent[1..]) ==>
      && |store.conversations| == |old(store.conversations)| + 1
      && var created := store.conversations[|old(store.conversations)|];
      && store.conversations == old(store.conversations) + [created]
      && Matches(created, button.gigId, me, button.sellerId)
      && button.routes == old(button.routes) + [ConversationRoute(created.id)]
    ensures
      var me := button.user.value.id;
      CountMatches(old(store.conversations), button.gigId, me, button.sellerId) == 1 && Succeeded(sent) ==>
      && store.conversations == old(store.conversations)
      && FirstMatch(old(store.conversations), button.gigId, me, button.sellerId).Some?
      && button.routes == old(button.routes) + [ConversationRoute(FirstMatch(old(store.conversations), button.gigId, me, button.sellerId).value)]
  {
    ghost var convs0 := store.conversations;
    sent := button.HandleContact(store);
    if CountMatches(convs0, button.gigId, button.user.value.id, button.sellerId) == 0 && Succeeded(sent[1..]) {
      assert sent[1] == sent[1..][0];
      assert store.conversations == convs0 + [store.conversations[|convs0|]];
    }
  }

  /** Contacting the same seller twice in a row opens the same conversation
      both times when there was at most one before: none becomes exactly one,
      and a single one is reused. With none before, the first lookup fails
      (a single-row read that matches nothing is an error), so only the calls
      after it need to succeed; with one before, every call must. */
  method ContactTwice(button: ContactSellerButton, store: Store) returns (ghost sent: seq<Call>)
    requires button.user.Some? && button.user.value.id != button.sellerId
    modifies button, store
    ensures store.log == old(store.log) + sent && |sent| >= 2
    ensures
      var me := button.user.value.id;
      var before := CountMatches(old(store.conversations), button.gigId, me, button.sellerId);
      (before == 0 && Succeeded(sent[1..])) || (before == 1 && Succeeded(sent)) ==>
      && |button.routes| == |old(button.routes)| + 2
      && button.routes[|button.routes| - 1] == button.routes[|button.routes| - 2]
      && (before == 0 ==> CountMatches(store.conversations, button.gigId, me, button.sellerId) == 1)
      && (before == 1 ==> store.conversations == old(store.conversations))
  {
    var me := button.user.value.id;
    ghost var convs0 := store.conversations;
    ghost var first := ContactOnce(button, store);
    ghost var convs1 := store.conversations;
    ghost var second := ContactOnce(button, store);
    sent := first + second;
    var before := CountMatches(convs0, button.gigId, me, button.sellerId);
    if before == 0 && Succeeded(sent[1..]) {
      assert sent[1..] == first[1..] + second;
      SucceededOfConcat(first[1..], second);
      var created := convs1[|convs0|];
      NoMatchIffCountZero(convs0, button.gigId, me, button.sellerId);
      AppendedMatchIsFound(convs0, created, button.gigId, me, button.sellerId);
      CountMatchesAppend(convs0, created, button.gigId, me, button.sellerId);
    } else if before == 1 && Succeeded(sent) {
      SucceededOfConcat(first, second);
    }
  }
}
