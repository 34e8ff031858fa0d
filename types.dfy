/** The rows the client reads from and writes to the backend: users, gigs,
    conversations, messages and reviews, with their string-literal enums. */
module Types {

  /** Row identifiers are opaque strings (UUIDs issued by the backend or the browser). */
  type Id = string

  /** An optional field (`field?: T` or a nullable column). */
  datatype Option<+T> = None | Some(value: T)

  datatype Category = LabFile | Assignment | Project | Coding | Other

  datatype GigStatus = Open | Assigned | Completed

  datatype ConversationStatus = Active | Accepted | Closed

  /** The literal a category is stored as. */
  function CategoryLabel(c: Category): string {
    match c
    case LabFile => "Lab File"
    case Assignment => "Assignment"
    case Project => "Project"
    case Coding => "Coding"
    case Other => "Other"
  }

  /** Reading a stored category back: exactly the five labels are accepted. */
  function ParseCategory(s: string): (r: Option<Category>)
    ensures forall c :: r == Some(c) <==> CategoryLabel(c) == s
  {
    if s == "Lab File" then Some(LabFile)
    else if s == "Assignment" then Some(Assignment)
    else if s == "Project" then Some(Project)
    else if s == "Coding" then Some(Coding)
    else if s == "Other" then Some(Other)
    else None
  }

  function GigStatusLabel(g: GigStatus): string {
    match g
    case Open => "Open"
    case Assigned => "Assigned"
    case Completed => "Completed"
  }

  /** Reading a stored gig status back: exactly the three labels are accepted. */
  function ParseGigStatus(s: string): (r: Option<GigStatus>)
    ensures forall g :: r == Some(g) <==> GigStatusLabel(g) == s
  {
    if s == "Open" then Some(Open)
    else if s == "Assigned" then Some(Assigned)
    else if s == "Completed" then Some(Completed)
    else None
  }

  function ConversationStatusLabel(c: ConversationStatus): string {
    match c
    case Active => "Active"
    case Accepted => "Accepted"
    case Closed => "Closed"
  }

  /** Reading a stored conversation status back: exactly the three labels are accepted. */
  function ParseConversationStatus(s: string): (r: Option<ConversationStatus>)
    ensures forall c :: r == Some(c) <==> ConversationStatusLabel(c) == s
  {
    if s == "Active" then Some(Active)
    else if s == "Accepted" then Some(Accepted)
    else if s == "Closed" then Some(Closed)
    else None
  }

  /** A profile row. Avatar and bio are optional; the ratings and the completed
      count are always present. */
  datatype User = User(
    id: Id,
    email: string,
    fullName: string,
    avatarUrl: Option<string>,
    bio: Option<string>,
    ratingAsBuyer: real,
    ratingAsSeller: real,
    totalGigsCompleted: int,
    createdAt: Option<string>)

  datatype Gig = Gig(
    id: Id,
    createdBy: Id,
    title: string,
    description: string,
    category: Category,
    deadline: string,
    price: int,
    attachmentUrl: Option<string>,
    status: GigStatus,
    createdAt: string)

  datatype Conversation = Conversation(
    id: Id,
    gigId: Id,
    requesterId: Id,
    solverId: Id,
    status: ConversationStatus,
    createdAt: string)

  /** A chat message: the offer flag is always present, the offered price is optional. */
  datatype Message = Message(
    id: Id,
    conversationId: Id,
    senderId: Id,
    content: string,
    isOffer: bool,
    offerPrice: Option<int>,
    createdAt: string)

  datatype Review = Review(
    id: Id,
    gigId: Id,
    reviewerId: Id,
    revieweeId: Id,
    rating: int,
    comment: string)
}
