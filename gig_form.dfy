/** The form that posts a new gig, optionally with one attachment that is
    uploaded before the gig row is inserted. */
module Form {
  import opened Types
  import opened Text
  import opened Backend

  datatype File = File(name: string)

  const Bucket: string := "gig-attachments"

  /** `file.name.split('.').pop()`. */
  function FileExtension(fileName: string): (r: string)
    ensures '.' !in r && |r| <= |fileName| && r == fileName[|fileName| - |r|..]
    ensures |r| < |fileName| ==> fileName[|fileName| - |r| - 1] == '.'
  {
    AfterLast(fileName, '.')
  }

  /** Where an attachment is stored: the uploader's folder, a random name, the original extension. */
  function UploadPath(userId: Id, randomName: string, ext: string): string {
    userId + "/" + randomName + "." + ext
  }

  /** The stored object keeps the extension of the chosen file, whatever the random name. */
  lemma UploadPathKeepsExtension(userId: Id, randomName: string, fileName: string)
    ensures FileExtension(UploadPath(userId, randomName, FileExtension(fileName))) == FileExtension(fileName)
  {
    var ext := FileExtension(fileName);
    assert UploadPath(userId, randomName, ext) == (userId + "/" + randomName) + ['.'] + ext;
    AfterLastOfJoin(userId + "/" + randomName, '.', ext);
  }

  /** The stored object lies in the folder named after the uploader. */
  lemma UploadPathInUserFolder(userId: Id, randomName: string, ext: string)
    requires '/' !in userId
    ensures BeforeFirst(UploadPath(userId, randomName, ext), '/') == userId
  {
    assert UploadPath(userId, randomName, ext) == userId + ['/'] + (randomName + "." + ext);
    BeforeFirstOfJoin(userId, '/', randomName + "." + ext);
  }

  /** The calls of one submission, in order: the upload (when a file was
      chosen) and then the insert, which references the uploaded object's
      public URL, or no attachment. */
  function SubmitPlan(user: User, title: string, description: string, category: Category, deadline: string,
                      price: int, file: Option<File>, randomName: string, publicBase: string): (plan: seq<Request>)
    ensures |plan| == if file.Some? then 2 else 1
    ensures plan[|plan| - 1].InsertGig? && plan[|plan| - 1].gig.createdBy == user.id
    ensures file.None? ==> plan[0].gig.attachmentUrl.None?
    ensures file.Some? ==> plan[0].Upload? && plan[1].gig.attachmentUrl.Some?
  {
    if file.Some? then
      var path := UploadPath(user.id, randomName, FileExtension(file.value.name));
      [Upload(Bucket, path),
       InsertGig(GigDraft(user.id, title, description, category, deadline, price, Some(PublicUrl(publicBase, path))))]
    else
      [InsertGig(GigDraft(user.id, title, description, category, deadline, price, None))]
  }

  /** With a file chosen, the plan uploads it into the uploader's folder under
      the file's own extension, and the gig row points at that very object. */
  lemma {:induction false} SubmitPlanAttachesUpload(user: User, title: string, description: string, category: Category,
                                                    deadline: string, price: int, file: Option<File>, randomName: string,
                                                    publicBase: string)
    requires file.Some? && '/' !in user.id
    ensures
      var plan := SubmitPlan(user, title, description, category, deadline, price, file, randomName, publicBase);
      && plan[0].bucket == Bucket
      && BeforeFirst(plan[0].path, '/') == user.id
      && FileExtension(plan[0].path) == FileExtension(file.value.name)
      && plan[1].gig.attachmentUrl == Some(PublicUrl(publicBase, plan[0].path))
  {
    UploadPathInUserFolder(user.id, randomName, FileExtension(file.value.name));
    UploadPathKeepsExtension(user.id, randomName, file.value.name);
  }

  class GigForm {
    /** The signed-in user and whether the session is still loading, from the session context. */
    const user: Option<User>
    const authLoading: bool
    /** The form's inputs as filled in; the price is the integer `parseInt` read. */
    const title: string
    const description: string
    const category: Category
    const deadline: string
    const price: int
    const file: Option<File>
    var loading: bool
    var error: Option<string>
    var routes: seq<string>
    var refreshes: nat

    constructor (user: Option<User>, authLoading: bool, title: string, description: string, category: Category,
                 deadline: string, price: int, file: Option<File>)
      ensures this.user == user && this.authLoading == authLoading && this.title == title
      ensures this.description == description && this.category == category && this.deadline == deadline
      ensures this.price == price && this.file == file
      ensures !loading && error.None? && routes == [] && refreshes == 0
    {
      this.user := user;
      this.authLoading := authLoading;
      this.title := title;
      this.description := description;
      this.category := category;
      this.deadline := deadline;
      this.price := price;
      this.file := file;
      loading := false;
      error := None;
      routes := [];
      refreshes := 0;
    }

    /** Once the session has loaded without a user, the form sends the visitor to log in. */
    method RedirectEffect()
      modifies this`routes
      ensures routes == old(routes) + (if !authLoading && user.None? then ["/login"] else [])
    {
      if !authLoading && user.None? {
        routes := routes + ["/login"];
      }
    }

    /** The try block of the submission: sends the plan's requests in order,
        giving up at the first failure, whose message it returns. */
    method SendPlan(plan: seq<Request>, store: Store) returns (failure: Option<string>, ghost sent: seq<Call>)
      requires |plan| == (if file.Some? then 2 else 1)
      requires forall i :: 0 <= i < |plan| ==> plan[i].Upload? || plan[i].InsertGig?
      modifies store`log
      ensures store.log == old(store.log) + sent
      ensures StopsAtFirstFailure(plan, sent)
      ensures failure.None? <==> |sent| == |plan| && Succeeded(sent)
      ensures failure.Some? ==> failure.value == sent[|sent| - 1].outcome.message
    {
      sent := [];
      failure := None;
      if file.Some? {
        var uploaded := store.Send(plan[0]);
        sent := [Call(plan[0], uploaded)];
        if uploaded.Failure? {
          failure := Some(uploaded.message);
          return;
        }
      }
      var inserted := store.Send(plan[|plan| - 1]);
      sent := sent + [Call(plan[|plan| - 1], inserted)];
      if inserted.Failure? {
        failure := Some(inserted.message);
      }
    }

    /** Submits the gig. The upload, when there is a file, comes strictly before
        the insert, and a failed upload means no insert. Any failure shows its
        message and stays on the form; success goes to the listing and
        refreshes it. Loading is off afterwards in every case. */
    method HandleSubmit(randomName: string, store: Store) returns (ghost sent: seq<Call>)
      modifies this`loading, this`error, this`routes, this`refreshes, store`log
      ensures store.log == old(store.log) + sent
      ensures user.None? ==>
        sent == [] && loading == old(loading) && error == old(error)
        && routes == old(routes) && refreshes == old(refreshes)
      ensures user.Some? ==>
        var plan := SubmitPlan(user.value, title, description, category, deadline, price, file, randomName, store.publicBase);
        var done := |sent| == |plan| && Succeeded(sent);
        && StopsAtFirstFailure(plan, sent)
        && !loading
        && error == (if done then None else Some(sent[|sent| - 1].outcome.message))
        && routes == (if done then old(routes) + ["/"] else old(routes))
        && refreshes == (if done then old(refreshes) + 1 else old(refreshes))
    {
      sent := [];
      if user.None? {
        return;
      }
      var plan := SubmitPlan(user.value, title, description, category, deadline, price, file, randomName, store.publicBase);
      loading := true;
      error := None;
      var failure;
      failure, sent := SendPlan(plan, store);
      error := failure;
      if failure.None? {
        routes := routes + ["/"];
        refreshes := refreshes + 1;
      }
      loading := false;
    }
  }
}
