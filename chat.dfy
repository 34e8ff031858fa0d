/** The chat window of one conversation: the message log with realtime
    de-duplication, optimistic sends with rollback, and the three-step gig
    assignment. */
module Chat {
  import opened Types
  import opened Text
  import opened Backend

  predicate HasId(messages: seq<Message>, id: Id) {
    exists i :: 0 <= i < |messages| && messages[i].id == id
  }

  predicate UniqueIds(messages: seq<Message>) {
    forall i, j :: 0 <= i < j < |messages| ==> messages[i].id != messages[j].id
  }

  /** The realtime updater: a message whose id is already listed is dropped,
      any other is appended at the end. Nothing already listed moves. */
  function WithIncoming(prev: seq<Message>, m: Message): (r: seq<Message>)
    ensures prev <= r && |r| <= |prev| + 1
    ensures HasId(r, m.id)
    ensures !HasId(prev, m.id) ==> r == prev + [m]
    ensures r == prev <==> HasId(prev, m.id)
    ensures UniqueIds(prev) ==> UniqueIds(r)
  {
    if HasId(prev, m.id) then prev
    else
      var r := prev + [m];
      assert r[|prev|].id == m.id;
      r
  }

  /** At-least-once delivery is harmless: a repeated notification changes nothing. */
  lemma IncomingIsIdempotent(prev: seq<Message>, m: Message)
    ensures WithIncoming(WithIncoming(prev, m), m) == WithIncoming(prev, m)
  {
  }

  /** A notification that repeats the id of the optimistic entry is dropped. */
  lemma EchoWithSameIdIsDropped(prev: seq<Message>, optimistic: Message, echo: Message)
    requires echo.id == optimistic.id
    ensures WithIncoming(prev + [optimistic], echo) == prev + [optimistic]
  {
    assert (prev + [optimistic])[|prev|].id == echo.id;
  }

  /** The sender's own insert comes back with the id the backend issued, which is
      not the optimistic id: de-duplication by id keeps both, so the same text
      from the same sender is listed twice. */
  lemma OwnEchoIsAppended(prev: seq<Message>, optimistic: Message, echo: Message)
    requires echo.id != optimistic.id && !HasId(prev, echo.id)
    requires echo.senderId == optimistic.senderId && echo.content == optimistic.content
    ensures var r := WithIncoming(prev + [optimistic], echo);
      |r| == |prev| + 2 && r[|prev|] == optimistic && r[|prev| + 1] == echo
      && r[|prev|].content == r[|prev| + 1].content && r[|prev|].senderId == r[|prev| + 1].senderId
  {
    var front := prev + [optimistic];
    forall i | 0 <= i < |front| ensures front[i].id != echo.id {
      if i < |prev| { assert front[i] == prev[i]; }
    }
  }

  /** The rollback filter: every message with the given id removed, the others kept in order. */
  function WithoutId(messages: seq<Message>, id: Id): (r: seq<Message>)
    ensures |r| <= |messages|
    ensures !HasId(r, id)
    ensures forall x :: x in r ==> x in messages
  {
    if messages == [] then []
    else
      var rest := WithoutId(messages[1..], id);
      if messages[0].id == id then rest
      else
        var r := [messages[0]] + rest;
        assert forall i :: 1 <= i < |r| ==> r[i] == rest[i - 1];
        r
  }

  /** Every message with another id is kept, as often as it occurred. */
  lemma {:induction false} WithoutIdKeepsOthers(messages: seq<Message>, id: Id)
    ensures forall x :: multiset(WithoutId(messages, id))[x] == if x.id == id then 0 else multiset(messages)[x]
  {
    if messages != [] {
      WithoutIdKeepsOthers(messages[1..], id);
      assert messages == [messages[0]] + messages[1..];
    }
  }

  lemma {:induction false} WithoutIdOfConcat(a: seq<Message>, b: seq<Message>, id: Id)
    ensures WithoutId(a + b, id) == WithoutId(a, id) + WithoutId(b, id)
  {
    if a == [] {
      assert a + b == b;
    } else {
      assert (a + b)[0] == a[0];
      assert (a + b)[1..] == a[1..] + b;
      WithoutIdOfConcat(a[1..], b, id);
    }
  }

  lemma {:induction false} WithoutAbsentId(messages: seq<Message>, id: Id)
    requires !HasId(messages, id)
    ensures WithoutId(messages, id) == messages
  {
    if messages != [] {
      forall i | 0 <= i < |messages| - 1 ensures messages[1..][i].id != id {
        assert messages[1..][i] == messages[i + 1];
      }
      WithoutAbsentId(messages[1..], id);
    }
  }

  /** Rolling back an optimistic entry whose id is fresh removes exactly that
      entry: the messages before and after it stay, in order. */
  lemma RollbackRemovesOnlyOptimistic(before: seq<Message>, m: Message, after: seq<Message>)
    requires !HasId(before, m.id) && !HasId(after, m.id)
    ensures WithoutId(before + [m] + after, m.id) == before + after
  {
    WithoutIdOfConcat(before + [m], after, m.id);
    WithoutIdOfConcat(before, [m], m.id);
    WithoutAbsentId(before, m.id);
    WithoutAbsentId(after, m.id);
    assert WithoutId([m], m.id) == [];
    assert WithoutId(before + [m], m.id) == before;
  }

  lemma AppendFreshKeepsIdsUnique(prev: seq<Message>, m: Message)
    requires UniqueIds(prev) && !HasId(prev, m.id)
    ensures UniqueIds(prev + [m])
  {
    assert WithIncoming(prev, m) == prev + [m];
  }

  /** A message counts as the viewer's own when its sender is the signed-in user. */
  predicate IsOwn(m: Message, viewer: Option<User>) {
    viewer.Some? && m.senderId == viewer.value.id
  }

  /** The "Assign Gig" header: only the gig's creator, only while the gig is open. */
  predicate ShowAssignHeader(viewer: Option<User>, gigCreatorId: Id, status: GigStatus) {
    viewer.Some? && viewer.value.id == gigCreatorId && status == Open
  }

  /** The "Accept Offer & Assign" button on one message. */
  function ShowAcceptButton(m: Message, viewer: Option<User>, gigCreatorId: Id, status: GigStatus): (r: bool)
    ensures r <==> ShowAssignHeader(viewer, gigCreatorId, status) && m.isOffer && m.senderId != gigCreatorId
  {
    m.isOffer && !IsOwn(m, viewer) && viewer.Some? && viewer.value.id == gigCreatorId && status == Open
  }

  /** `message.offer_price &&`: a missing price or a price of 0 is falsy. */
  predicate OfferPriceTruthy(m: Message) {
    m.offerPrice.Some? && m.offerPrice.value != 0
  }

  const OfferPrefix: string := "Offered: \U{20B9}"

  /** The content of an offer message. */
  function OfferContent(price: int): string {
    OfferPrefix + IntToString(price)
  }

  /** The offered amount can be read back from an offer's content. */
  lemma OfferContentCarriesPrice(price: nat)
    ensures OfferContent(price)[..|OfferPrefix|] == OfferPrefix
    ensures DigitsValue(OfferContent(price)[|OfferPrefix|..]) == price
  {
    assert OfferContent(price)[|OfferPrefix|..] == NatToString(price);
    NatToStringRoundTrip(price);
  }

  /** The announcement inserted by a successful assignment. */
  function AssignedNotice(otherUserName: string): string {
    "\U{1F389} Gig assigned to " + otherUserName + "!"
  }

  /** The writes of an assignment, in order. Without a signed-in user the third
      step throws before anything is sent, so only two writes can be issued. */
  function AssignPlan(gigId: Id, conversationId: Id, user: Option<User>, otherUserName: string): (r: seq<Request>)
    ensures |r| == if user.Some? then 3 else 2
    ensures r[0] == UpdateGigStatus(gigId, Assigned) && r[1] == UpdateConversationStatus(conversationId, Accepted)
    ensures user.Some? ==> r[2].InsertMessage? && r[2].message.isOffer == Some(false)
                           && r[2].message.senderId == user.value.id
    ensures user.Some? ==>
      r[2].message == MessageDraft(conversationId, user.value.id, AssignedNotice(otherUserName), Some(false), None)
  {
    [UpdateGigStatus(gigId, Assigned), UpdateConversationStatus(conversationId, Accepted)]
    + if user.Some? then
        [InsertMessage(MessageDraft(conversationId, user.value.id, AssignedNotice(otherUserName), Some(false), None))]
      else []
  }

  /** A successful assignment leaves, in the backend, the gig assigned, the
      conversation accepted and exactly one announcement, in that order. */
  lemma AssignmentCommitsAllThree(gigId: Id, conversationId: Id, user: Option<User>, otherUserName: string, calls: seq<Call>)
    requires StopsAtFirstFailure(AssignPlan(gigId, conversationId, user, otherUserName), calls)
    requires |calls| == |AssignPlan(gigId, conversationId, user, otherUserName)| && Succeeded(calls)
    ensures Committed(calls) == AssignPlan(gigId, conversationId, user, otherUserName)
  {
    StoppedRunCommitsPrefix(AssignPlan(gigId, conversationId, user, otherUserName), calls);
  }

  class ChatWindow {
    const conversationId: Id
    const gigId: Id
    const gigCreatorId: Id
    const otherUserName: string
    /** The signed-in user, from the session context. */
    const user: Option<User>
    var messages: seq<Message>
    /** The text in the input box. */
    var newMessage: string
    var currentGigStatus: GigStatus
    /** Blocking alerts shown to the user, oldest first. */
    var alerts: seq<string>

    constructor (conversationId: Id, gigId: Id, gigCreatorId: Id, gigStatus: GigStatus, otherUserName: string, user: Option<User>)
      ensures this.conversationId == conversationId && this.gigId == gigId && this.gigCreatorId == gigCreatorId
      ensures this.otherUserName == otherUserName && this.user == user
      ensures messages == [] && newMessage == "" && currentGigStatus == gigStatus && alerts == []
    {
      this.conversationId := conversationId;
      this.gigId := gigId;
      this.gigCreatorId := gigCreatorId;
      this.otherUserName := otherUserName;
      this.user := user;
      messages := [];
      newMessage := "";
      currentGigStatus := gigStatus;
      alerts := [];
    }

    /** The initial fetch, which runs only with a signed-in user: its rows
        replace the list, an error leaves the list as it was. */
    method LoadMessages(response: Response<seq<Message>>)
      modifies this`messages
      ensures messages == if user.Some? && response.Fetched? then response.data else old(messages)
    {
      if user.None? {
        return;
      }
      if response.Fetched? {
        messages := response.data;
      }
    }

    /** A realtime insert notification for this conversation. */
    method OnRealtimeInsert(m: Message)
      modifies this`messages
      ensures messages == WithIncoming(old(messages), m)
      ensures old(messages) <= messages
    {
      messages := WithIncoming(messages, m);
    }

    method EditInput(text: string)
      modifies this`newMessage
      ensures newMessage == text
    {
      newMessage := text;
    }

    const SendFailedAlert: string := "Failed to send message. Please try again."
    const OfferFailedAlert: string := "Failed to send offer. Please try again."

    /** What one optimistic write did: exactly one insert of `draft` was sent;
        on success `optimistic` stays listed at the end, on failure every entry
        with its id is removed again and `failureAlert` is shown. With a fresh
        optimistic id a failure restores the list exactly, and unique ids stay
        unique either way. */
    twostate predicate OptimisticSent(optimistic: Message, draft: MessageDraft, failureAlert: string, store: Store)
      reads this, store
    {
      && |store.log| == |old(store.log)| + 1
      && store.log[..|old(store.log)|] == old(store.log)
      && var call := store.log[|old(store.log)|];
      && call.request == InsertMessage(draft)
      && (call.outcome.Success? ==> messages == old(messages) + [optimistic] && alerts == old(alerts))
      && (call.outcome.Failure? ==>
            messages == WithoutId(old(messages) + [optimistic], optimistic.id)
            && alerts == old(alerts) + [failureAlert])
      && (!HasId(old(messages), optimistic.id) ==>
            (UniqueIds(old(messages)) ==> UniqueIds(messages))
            && (call.outcome.Failure? ==> messages == old(messages)))
    }

    /** The optimistic pattern both send handlers share: list the message,
        write it, and filter it out again by id if the write failed. */
    method SendOptimistic(optimistic: Message, draft: MessageDraft, failureAlert: string, store: Store)
        returns (outcome: Outcome)
      modifies this`messages, this`alerts, store`log
      ensures OptimisticSent(optimistic, draft, failureAlert, store)
      ensures outcome == store.log[|store.log| - 1].outcome
    {
      ghost var prev := messages;
      messages := messages + [optimistic];
      if !HasId(prev, optimistic.id) && UniqueIds(prev) {
        AppendFreshKeepsIdsUnique(prev, optimistic);
      }
      outcome := store.Send(InsertMessage(draft));
      if outcome.Failure? {
        alerts := alerts + [failureAlert];
        messages := WithoutId(messages, optimistic.id);
        if !HasId(prev, optimistic.id) {
          RollbackRemovesOnlyOptimistic(prev, optimistic, []);
          assert prev + [optimistic] + [] == prev + [optimistic];
        }
      }
    }

    /** Sends the input as a plain message, optimistically: the input is
        cleared and the message listed first, then written; a failed write
        removes the entry by id and restores the input. The optimistic id is
        not part of the write, and neither is the offer flag. */
    method SendMessage(optimisticId: Id, now: string, store: Store)
      modifies this`messages, this`newMessage, this`alerts, store`log
      ensures Trim(old(newMessage)) == "" || user.None? ==>
        store.log == old(store.log) && messages == old(messages) && newMessage == old(newMessage) && alerts == old(alerts)
      ensures Trim(old(newMessage)) != "" && user.Some? ==>
        && OptimisticSent(Message(optimisticId, conversationId, user.value.id, old(newMessage), false, None, now),
                          MessageDraft(conversationId, user.value.id, old(newMessage), None, None),
                          SendFailedAlert, store)
        && newMessage == if store.log[|store.log| - 1].outcome.Success? then "" else old(newMessage)
    {
      if Trim(newMessage) == "" || user.None? {
        return;
      }
      var content := newMessage;
      newMessage := "";
      var optimistic := Message(optimisticId, conversationId, user.value.id, content, false, None, now);
      var outcome := SendOptimistic(optimistic, MessageDraft(conversationId, user.value.id, content, None, None),
                                    SendFailedAlert, store);
      if outcome.Failure? {
        newMessage := content;
      }
    }

    /** Sends a price offer, optimistically; a failed write removes the entry
        by id and leaves the input alone. */
    method SendOffer(price: int, optimisticId: Id, now: string, store: Store)
      modifies this`messages, this`alerts, store`log
      ensures user.None? ==> store.log == old(store.log) && messages == old(messages) && alerts == old(alerts)
      ensures user.Some? ==>
        OptimisticSent(Message(optimisticId, conversationId, user.value.id, OfferContent(price), true, Some(price), now),
                       MessageDraft(conversationId, user.value.id, OfferContent(price), Some(true), Some(price)),
                       OfferFailedAlert, store)
    {
      if user.None? {
        return;
      }
      var offer := Message(optimisticId, conversationId, user.value.id, OfferContent(price), true, Some(price), now);
      var _ := SendOptimistic(offer, MessageDraft(conversationId, user.value.id, OfferContent(price), Some(true), Some(price)),
                              OfferFailedAlert, store);
    }

    /** What one assignment attempt did, relative to the state before it. */
    twostate predicate AssignmentDone(confirmed: bool, store: Store)
      reads this, store
    {
      && old(store.log) <= store.log
      && var sent := store.log[|old(store.log)|..];
      && messages == old(messages) && newMessage == old(newMessage)
      && (!confirmed ==> sent == [] && currentGigStatus == old(currentGigStatus) && alerts == old(alerts))
      && (confirmed ==>
            && StopsAtFirstFailure(AssignPlan(gigId, conversationId, user, otherUserName), sent)
            && var done := |sent| == 3 && Succeeded(sent);
               currentGigStatus == (if done then Assigned else old(currentGigStatus))
               && alerts == old(alerts) + [if done then "Gig assigned successfully!" else "Failed to assign gig"])
    }

    /** Assigns the gig to the other participant: gig to Assigned, conversation
        to Accepted, then the announcement. The first failure stops the
        sequence and nothing already written is undone; the local status
        changes only when all three writes succeeded. */
    method AssignGig(confirmed: bool, store: Store)
      modifies this`currentGigStatus, this`alerts, store`log
      ensures AssignmentDone(confirmed, store)
    {
      if !confirmed {
        return;
      }
      ghost var before := store.log;
      ghost var plan := AssignPlan(gigId, conversationId, user, otherUserName);
      var outcome := store.Send(UpdateGigStatus(gigId, Assigned));
      if outcome.Failure? {
        alerts := alerts + ["Failed to assign gig"];
        return;
      }
      outcome := store.Send(UpdateConversationStatus(conversationId, Accepted));
      if outcome.Failure? {
        alerts := alerts + ["Failed to assign gig"];
        return;
      }
      if user.None? {
        alerts := alerts + ["Failed to assign gig"];
        return;
      }
      outcome := store.Send(InsertMessage(MessageDraft(conversationId, user.value.id, AssignedNotice(otherUserName), Some(false), None)));
      if outcome.Failure? {
        alerts := alerts + ["Failed to assign gig"];
        return;
      }
      currentGigStatus := Assigned;
      alerts := alerts + ["Gig assigned successfully!"];
    }

    /** "Accept Offer & Assign": acts only on a truthy offered price, and then
        runs exactly the assignment, whatever the price. */
    method AcceptOffer(m: Message, confirmed: bool, store: Store)
      modifies this`currentGigStatus, this`alerts, store`log
      ensures !OfferPriceTruthy(m) ==>
        store.log == old(store.log) && currentGigStatus == old(currentGigStatus) && alerts == old(alerts)
      ensures OfferPriceTruthy(m) ==> AssignmentDone(confirmed, store)
    {
      if OfferPriceTruthy(m) {
        AssignGig(confirmed, store);
      }
    }
  }
}
