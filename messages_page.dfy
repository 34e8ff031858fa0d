/** The inbox page: the viewer's conversations, each with its gig and the
    person on the other side, newest first as the backend returns them. */
module Messages {
  import opened Types
  import opened Backend

  /** A conversation row joined with its gig and both participants' profiles. */
  datatype ConversationWithDetails = ConversationWithDetails(
    conversation: Conversation,
    gig: Gig,
    requester: User,
    solver: User)

  /** The joined profiles are those of the conversation's two participants. */
  predicate JoinedConsistently(c: ConversationWithDetails) {
    c.requester.id == c.conversation.requesterId && c.solver.id == c.conversation.solverId
  }

  /** The person shown next to a conversation: the solver when the viewer
      asked for help, the requester otherwise. It is always one of the two
      participants, and never the viewer when the viewer takes part and the
      two participants are different people. */
  function Counterpart(c: ConversationWithDetails, viewerId: Id): (other: User)
    ensures other == c.requester || other == c.solver
    ensures JoinedConsistently(c) && c.conversation.requesterId != c.conversation.solverId
            && (viewerId == c.conversation.requesterId || viewerId == c.conversation.solverId)
            ==> other.id != viewerId
    ensures JoinedConsistently(c) && viewerId != c.conversation.requesterId ==> other.id == c.conversation.requesterId
  {
    if c.conversation.requesterId == viewerId then c.solver else c.requester
  }

  /** One entry of the list. */
  datatype Row = Row(href: string, gigTitle: string, status: ConversationStatus, counterpartName: string)

  /** What the page shows. */
  datatype Screen =
    | Spinner
    | LoginPrompt
    | ConversationList(rows: seq<Row>, emptyNotice: bool)

  function RowOf(c: ConversationWithDetails, viewerId: Id): Row {
    Row("/messages/" + c.conversation.id, c.gig.title, c.conversation.status, Counterpart(c, viewerId).fullName)
  }

  /** The page's branches: a spinner while either the session or the list is
      loading, a login prompt when there is no user, and otherwise one row per
      conversation in the order fetched, with the empty-state notice exactly
      when there is none. */
  function Render(authLoading: bool, loading: bool, user: Option<User>, conversations: seq<ConversationWithDetails>): (s: Screen)
    ensures s.Spinner? <==> authLoading || loading
    ensures s.LoginPrompt? <==> !authLoading && !loading && user.None?
    ensures s.ConversationList? ==>
      && user.Some?
      && |s.rows| == |conversations|
      && (s.emptyNotice <==> |conversations| == 0)
      && forall i :: 0 <= i < |conversations| ==>
           && s.rows[i].href == "/messages/" + conversations[i].conversation.id
           && s.rows[i].gigTitle == conversations[i].gig.title
           && s.rows[i].status == conversations[i].conversation.status
           && s.rows[i].counterpartName == Counterpart(conversations[i], user.value.id).fullName
  {
    if authLoading || loading then Spinner
    else if user.None? then LoginPrompt
    else
      var rows := seq(|conversations|, i requires 0 <= i < |conversations| => RowOf(conversations[i], user.value.id));
      ConversationList(rows, |conversations| == 0)
  }

  class MessagesPage {
    /** The session as this render of the page sees it. */
    const user: Option<User>
    const authLoading: bool
    var conversations: seq<ConversationWithDetails>
    var loading: bool

    constructor (user: Option<User>, authLoading: bool)
      ensures this.user == user && this.authLoading == authLoading
      ensures conversations == [] && loading
    {
      this.user := user;
      this.authLoading := authLoading;
      conversations := [];
      loading := true;
    }

    function View(): Screen
      reads this
    {
      Render(authLoading, loading, user, conversations)
    }

    /** The fetch effect. It waits while the session loads; without a user it
        only stops loading; otherwise a fetched list replaces the current one,
        a failed fetch keeps it, and loading stops either way, so the spinner
        is gone once the session has loaded. */
    method RunEffect(response: Response<seq<ConversationWithDetails>>)
      modifies this`conversations, this`loading
      ensures authLoading ==> conversations == old(conversations) && loading == old(loading)
      ensures !authLoading ==> !loading && !View().Spinner?
      ensures !authLoading ==>
        conversations == if user.Some? && response.Fetched? then response.data else old(conversations)
    {
      if authLoading {
        return;
      }
      if user.None? {
        loading := false;
        return;
      }
      if response.Fetched? {
        conversations := response.data;
      }
      loading := false;
    }
  }
}
