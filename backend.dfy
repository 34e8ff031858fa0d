/** The hosted backend as the client observes it. Every call the client makes
    is recorded, in order, with an outcome the client does not control: each
    call may succeed or fail. The conversations table is kept as well, because
    the contact flow reads back what it wrote there. */
module Backend {
  import opened Types

  /** An insert payload for the messages table; a column the caller omits is `None`. */
  datatype MessageDraft = MessageDraft(
    conversationId: Id,
    senderId: Id,
    content: string,
    isOffer: Option<bool>,
    offerPrice: Option<int>)

  datatype GigDraft = GigDraft(
    createdBy: Id,
    title: string,
    description: string,
    category: Category,
    deadline: string,
    price: int,
    attachmentUrl: Option<string>)

  datatype ReviewDraft = ReviewDraft(
    gigId: Id,
    reviewerId: Id,
    revieweeId: Id,
    rating: int,
    comment: string)

  datatype UserDraft = UserDraft(
    id: Id,
    email: Option<string>,
    fullName: string,
    avatarUrl: Option<string>)

  /** One call to the backend. */
  datatype Request =
    | FindConversation(gigId: Id, requesterId: Id, solverId: Id)
    | InsertConversation(gigId: Id, requesterId: Id, solverId: Id, status: ConversationStatus)
    | InsertMessage(message: MessageDraft)
    | UpdateGigStatus(gigId: Id, gigStatus: GigStatus)
    | UpdateConversationStatus(conversationId: Id, conversationStatus: ConversationStatus)
    | Upload(bucket: string, path: string)
    | InsertGig(gig: GigDraft)
    | DeleteGig(gigId: Id)
    | InsertReview(review: ReviewDraft)
    | InsertUser(user: UserDraft)
    | SignOut

  datatype Outcome = Success | Failure(message: string)

  datatype Call = Call(request: Request, outcome: Outcome)

  /** The response of a read whose rows the model does not track. */
  datatype Response<T> = Fetched(data: T) | FetchError(message: string)

  predicate Succeeded(calls: seq<Call>) {
    forall i :: 0 <= i < |calls| ==> calls[i].outcome.Success?
  }

  /** Two runs back to back succeeded exactly when each did. */
  lemma SucceededOfConcat(first: seq<Call>, second: seq<Call>)
    ensures Succeeded(first + second) <==> Succeeded(first) && Succeeded(second)
  {
    if Succeeded(first + second) {
      forall i | 0 <= i < |first| ensures first[i].outcome.Success? {
        assert first[i] == (first + second)[i];
      }
      forall i | 0 <= i < |second| ensures second[i].outcome.Success? {
        assert second[i] == (first + second)[|first| + i];
      }
    }
  }

  /** `calls` is what a handler sent that issues the requests of `plan` one at
      a time, awaits each, and gives up at the first failure. */
  predicate StopsAtFirstFailure(plan: seq<Request>, calls: seq<Call>) {
    && |calls| <= |plan|
    && (forall i :: 0 <= i < |calls| ==> calls[i].request == plan[i])
    && (forall i :: 0 <= i < |calls| - 1 ==> calls[i].outcome.Success?)
    && (|calls| < |plan| ==> |calls| > 0 && calls[|calls| - 1].outcome.Failure?)
  }

  /** The requests that took effect, in the order they were sent. */
  function Committed(calls: seq<Call>): (r: seq<Request>)
    ensures |r| <= |calls|
    ensures |r| == |calls| <==> Succeeded(calls)
  {
    if calls == [] then []
    else if calls[|calls| - 1].outcome.Success? then Committed(calls[..|calls| - 1]) + [calls[|calls| - 1].request]
    else Committed(calls[..|calls| - 1])
  }

  lemma {:induction false} CommittedOfSucceeded(calls: seq<Call>)
    requires Succeeded(calls)
    ensures |Committed(calls)| == |calls|
    ensures forall i :: 0 <= i < |calls| ==> Committed(calls)[i] == calls[i].request
  {
    if calls != [] {
      var front := calls[..|calls| - 1];
      CommittedOfSucceeded(front);
      assert Committed(calls) == Committed(front) + [calls[|calls| - 1].request];
    }
  }

  /** A sequence that stops at the first failure never undoes anything: what
      took effect is a prefix of the plan, and it is the whole plan exactly when
      every request was sent and succeeded. */
  lemma {:induction false} StoppedRunCommitsPrefix(plan: seq<Request>, calls: seq<Call>)
    requires StopsAtFirstFailure(plan, calls)
    ensures |Committed(calls)| <= |plan| && Committed(calls) == plan[..|Committed(calls)|]
    ensures |Committed(calls)| == |plan| <==> |calls| == |plan| && Succeeded(calls)
  {
    if calls != [] {
      var n := |calls|;
      var front := calls[..n - 1];
      assert Succeeded(front);
      CommittedOfSucceeded(front);
      assert Committed(front) == plan[..n - 1];
      if calls[n - 1].outcome.Success? {
        assert Committed(calls) == Committed(front) + [plan[n - 1]];
        assert plan[..n - 1] + [plan[n - 1]] == plan[..n];
      } else {
        assert Committed(calls) == Committed(front);
        assert !Succeeded(calls);
      }
    }
  }

  /** The id of the first conversation for the given gig, requester and solver. */
  function FirstMatch(conversations: seq<Conversation>, gigId: Id, requesterId: Id, solverId: Id): (r: Option<Id>)
    ensures r.None? <==> forall c :: c in conversations ==> !Matches(c, gigId, requesterId, solverId)
    ensures r.Some? ==> exists c :: c in conversations && Matches(c, gigId, requesterId, solverId) && c.id == r.value
  {
    if conversations == [] then None
    else if Matches(conversations[0], gigId, requesterId, solverId) then Some(conversations[0].id)
    else FirstMatch(conversations[1..], gigId, requesterId, solverId)
  }

  predicate Matches(c: Conversation, gigId: Id, requesterId: Id, solverId: Id) {
    c.gigId == gigId && c.requesterId == requesterId && c.solverId == solverId
  }

  /** The number of conversations for the given gig, requester and solver. */
  function CountMatches(conversations: seq<Conversation>, gigId: Id, requesterId: Id, solverId: Id): nat {
    if conversations == [] then 0
    else
      var here := if Matches(conversations[0], gigId, requesterId, solverId) then 1 else 0;
      here + CountMatches(conversations[1..], gigId, requesterId, solverId)
  }

  lemma {:induction false} CountMatchesAppend(conversations: seq<Conversation>, c: Conversation, gigId: Id, requesterId: Id, solverId: Id)
    ensures CountMatches(conversations + [c], gigId, requesterId, solverId)
         == CountMatches(conversations, gigId, requesterId, solverId) + (if Matches(c, gigId, requesterId, solverId) then 1 else 0)
  {
    if conversations != [] {
      assert (conversations + [c])[1..] == conversations[1..] + [c];
      CountMatchesAppend(conversations[1..], c, gigId, requesterId, solverId);
    }
  }

  /** No conversation matches exactly when the count of matches is zero. */
  lemma {:induction false} NoMatchIffCountZero(conversations: seq<Conversation>, gigId: Id, requesterId: Id, solverId: Id)
    ensures FirstMatch(conversations, gigId, requesterId, solverId).None?
            <==> CountMatches(conversations, gigId, requesterId, solverId) == 0
  {
    if conversations != [] {
      NoMatchIffCountZero(conversations[1..], gigId, requesterId, solverId);
    }
  }

  /** Once a single matching conversation exists, the lookup finds it. */
  lemma {:induction false} AppendedMatchIsFound(conversations: seq<Conversation>, c: Conversation, gigId: Id, requesterId: Id, solverId: Id)
    requires FirstMatch(conversations, gigId, requesterId, solverId).None?
    requires Matches(c, gigId, requesterId, solverId)
    ensures FirstMatch(conversations + [c], gigId, requesterId, solverId) == Some(c.id)
  {
    if conversations != [] {
      assert (conversations + [c])[1..] == conversations[1..] + [c];
      AppendedMatchIsFound(conversations[1..], c, gigId, requesterId, solverId);
    }
  }

  /** The row a single-row lookup returns: the match, when the call succeeded
      and exactly one conversation matches. */
  function SingleMatch(outcome: Outcome, conversations: seq<Conversation>, gigId: Id, requesterId: Id, solverId: Id): (r: Option<Id>)
    ensures r.Some? <==> outcome.Success? && CountMatches(conversations, gigId, requesterId, solverId) == 1
    ensures r.Some? ==> exists c :: c in conversations && Matches(c, gigId, requesterId, solverId) && c.id == r.value
  {
    NoMatchIffCountZero(conversations, gigId, requesterId, solverId);
    if outcome.Success? && CountMatches(conversations, gigId, requesterId, solverId) == 1
    then FirstMatch(conversations, gigId, requesterId, solverId)
    else None
  }

  /** The public URL of an object in storage; only its being a function of
      the path matters here, not the storage service's URL scheme. */
  function PublicUrl(publicBase: string, path: string): string {
    publicBase + path
  }

  /** The backend as the client sees it. `conversations` serves only the
      contact lookup: conversation inserts are applied to it, while status
      updates are only logged, so the statuses held here are those at insert. */
  class Store {
    var conversations: seq<Conversation>
    var log: seq<Call>
    /** Where the storage service serves public objects from. */
    const publicBase: string

    constructor (conversations: seq<Conversation>, publicBase: string)
      ensures this.conversations == conversations && this.publicBase == publicBase && log == []
    {
      this.conversations := conversations;
      this.publicBase := publicBase;
      log := [];
    }

    /** A call whose only observable effect is its outcome. */
    method Send(request: Request) returns (outcome: Outcome)
      requires !request.FindConversation? && !request.InsertConversation? && !request.InsertUser?
      modifies this`log
      ensures log == old(log) + [Call(request, outcome)]
    {
      outcome := *;
      log := log + [Call(request, outcome)];
    }

    /** Looks up the single conversation for a gig, requester and solver. A
        failed call returns no row, and so does a lookup that matches no row
        or more than one, since a single-row read reports both as errors: the
        call succeeds only when exactly one conversation matches. */
    method Lookup(gigId: Id, requesterId: Id, solverId: Id) returns (outcome: Outcome, found: Option<Id>)
      modifies this`log
      ensures log == old(log) + [Call(FindConversation(gigId, requesterId, solverId), outcome)]
      ensures outcome.Success? ==> CountMatches(conversations, gigId, requesterId, solverId) == 1
      ensures found == SingleMatch(outcome, conversations, gigId, requesterId, solverId)
    {
      outcome := *;
      if CountMatches(conversations, gigId, requesterId, solverId) != 1 {
        var message: string := *;
        outcome := Failure(message);
      }
      found := SingleMatch(outcome, conversations, gigId, requesterId, solverId);
      log := log + [Call(FindConversation(gigId, requesterId, solverId), outcome)];
    }

    /** Inserts a conversation and returns the stored row, with the id and time the backend chose. */
    method CreateConversation(gigId: Id, requesterId: Id, solverId: Id, status: ConversationStatus)
      returns (outcome: Outcome, row: Option<Conversation>)
      modifies this`log, this`conversations
      ensures log == old(log) + [Call(InsertConversation(gigId, requesterId, solverId, status), outcome)]
      ensures outcome.Success? <==> row.Some?
      ensures row.Some? ==> row.value.gigId == gigId && row.value.requesterId == requesterId
                            && row.value.solverId == solverId && row.value.status == status
      ensures conversations == old(conversations) + (if row.Some? then [row.value] else [])
    {
      outcome := *;
      if outcome.Success? {
        var id: Id := *;
        var createdAt: string := *;
        row := Some(Conversation(id, gigId, requesterId, solverId, status, createdAt));
        conversations := conversations + [row.value];
      } else {
        row := None;
      }
      log := log + [Call(InsertConversation(gigId, requesterId, solverId, status), outcome)];
    }

    /** Inserts a profile row and returns it as stored, with the columns the backend fills in. */
    method CreateUser(draft: UserDraft) returns (outcome: Outcome, row: Option<User>)
      modifies this`log
      ensures log == old(log) + [Call(InsertUser(draft), outcome)]
      ensures outcome.Success? <==> row.Some?
      ensures row.Some? ==> row.value.id == draft.id && row.value.fullName == draft.fullName
                            && row.value.avatarUrl == draft.avatarUrl
                            && (draft.email.Some? ==> row.value.email == draft.email.value)
    {
      outcome := *;
      if outcome.Success? {
        var stored: User := *;
        var email := if draft.email.Some? then draft.email.value else stored.email;
        row := Some(stored.(id := draft.id, email := email, fullName := draft.fullName, avatarUrl := draft.avatarUrl));
      } else {
        row := None;
      }
      log := log + [Call(InsertUser(draft), outcome)];
    }
  }
}
