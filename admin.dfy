/** The admin panel of app/admin/page.js: the component's state and the
    handlers that create, list, share and delete posts, each run as one
    sequential step against a Store. The session user, `Date.now()`,
    `window.location.origin`, the bucket's public-URL mapping and the
    success or failure of each backend call are parameters. */
module Admin {
  import opened Wrappers
  import opened Schema
  import opened GuestDrafts
  import opened Links
  import opened Db

  datatype Tab = CreateTab | ListTab

  /** Why a handler stopped early. */
  datatype Failure =
    | AuthenticationRequired  // createPost: no user, or an auth error
    | UploadFailed            // the image upload was refused
    | StoreFailed             // an insert or delete returned an error
    | NoSession               // reading `.data.user.id` with no user throws
    | NotPermitted            // shareWithGuest: lookup failed or caller is not the creator

  datatype Outcome = Done | Failed(failure: Failure)

  /** The create form: `title`, `content`, `entrydate`, `departuredate`,
      `destination` and `image`. */
  datatype PostForm = PostForm(
    title: string,
    content: string,
    entryDate: string,
    departureDate: string,
    destination: string,
    image: Option<ImageFile>)

  const EmptyForm := PostForm("", "", "", "", "", None)

  /** The row `createPost` inserts for a form. */
  function RowFor(form: PostForm, imageUrl: Option<string>, owner: UserId): Post {
    Post(0, form.title, form.content, form.entryDate, form.departureDate, form.destination,
         imageUrl, owner)
  }

  /** An image is chosen and the bucket refuses it: a transport error, or the
      key is already taken (`upsert: false`). */
  predicate UploadRefused(t: Tables, user: UserId, now: nat, form: PostForm, uploadFails: bool) {
    form.image.Some? && (uploadFails || StorageKey(user, now, form.image.value.name) in t.objects)
  }

  /** The `image_url` column: the public URL of the upload, or null. */
  function ImageUrl(user: UserId, now: nat, form: PostForm, publicUrl: string -> string): Option<string> {
    if form.image.Some? then Some(publicUrl(StorageKey(user, now, form.image.value.name))) else None
  }

  /** What `createPost` does to the backend, and how it ends. Without a user
      nothing changes. A refused upload changes nothing and inserts no row.
      Otherwise the image is stored under the owner-scoped key, and unless
      the insert fails one row is added that carries the form's fields, the
      image URL and the caller as `created_by`. Grants never change. */
  function CreateEffect(t: Tables, caller: Option<UserId>, form: PostForm, now: nat,
                        publicUrl: string -> string, uploadFails: bool, insertFails: bool)
    : (e: (Tables, Outcome))
    requires WellFormed(t)
    ensures WellFormed(e.0) && e.0.guestAccess == t.guestAccess
    ensures caller.None? ==> e == (t, Failed(AuthenticationRequired))
    ensures caller.Some? && UploadRefused(t, caller.value, now, form, uploadFails) ==>
      e == (t, Failed(UploadFailed))
    ensures e.1 == Done <==>
      caller.Some? && !UploadRefused(t, caller.value, now, form, uploadFails) && !insertFails
    ensures e.1 != Done ==> e.0.posts == t.posts && e.0.nextId == t.nextId
    ensures e.1 == Done ==>
      && e.0.nextId == t.nextId + 1
      && e.0.posts.Keys == t.posts.Keys + {t.nextId}
      && e.0.posts[t.nextId].createdBy == caller.value
      && e.0.posts[t.nextId] == RowFor(form, ImageUrl(caller.value, now, form, publicUrl), caller.value).(id := t.nextId)
      && forall id :: id in t.posts ==> e.0.posts[id] == t.posts[id]
    ensures caller.Some? && !UploadRefused(t, caller.value, now, form, uploadFails) ==>
      e.0.objects == if form.image.Some?
                     then t.objects[StorageKey(caller.value, now, form.image.value.name) := form.image.value]
                     else t.objects
  {
    if caller.None? then (t, Failed(AuthenticationRequired))
    else if UploadRefused(t, caller.value, now, form, uploadFails) then (t, Failed(UploadFailed))
    else
      var stored :=
        if form.image.Some?
        then PutObject(t, StorageKey(caller.value, now, form.image.value.name), form.image.value).value
        else t;
      if insertFails then (stored, Failed(StoreFailed))
      else (InsertPost(stored, RowFor(form, ImageUrl(caller.value, now, form, publicUrl), caller.value)), Done)
  }

  /** After a successful `createPost`, the refetched listing of the caller
      gains exactly the new row at its end, and every other user's listing
      is unchanged. */
  lemma CreatedPostIsListed(t: Tables, user: UserId, form: PostForm, now: nat,
                            publicUrl: string -> string, uploadFails: bool, other: UserId)
    requires WellFormed(t)
    requires CreateEffect(t, Some(user), form, now, publicUrl, uploadFails, false).1 == Done
    ensures var t' := CreateEffect(t, Some(user), form, now, publicUrl, uploadFails, false).0;
      OwnedRows(t'.posts, other, t'.nextId)
      == OwnedRows(t.posts, other, t.nextId)
       + (if other == user then [RowFor(form, ImageUrl(user, now, form, publicUrl), user).(id := t.nextId)]
          else [])
  {
    var stored :=
      if form.image.Some? then PutObject(t, StorageKey(user, now, form.image.value.name), form.image.value).value
      else t;
    InsertPostListing(stored, RowFor(form, ImageUrl(user, now, form, publicUrl), user), other);
  }

  class AdminPanel {
    const store: Store

    var posts: seq<Post>
    var title: string
    var content: string
    var entryDate: string
    var departureDate: string
    var destination: string
    var image: Option<ImageFile>
    var guestEmails: EmailDrafts
    var isDeleting: Option<PostId>
    var activeTab: Tab
    var loading: bool

    ghost predicate Valid()
      reads this, store
    {
      store.Valid()
    }

    /** The six form fields, as `createPost` reads them. */
    function CurrentForm(): PostForm
      reads this
    {
      PostForm(title, content, entryDate, departureDate, destination, image)
    }

    constructor (store: Store)
      requires store.Valid()
      ensures Valid() && this.store == store
      ensures posts == [] && CurrentForm() == EmptyForm && guestEmails == Drafts(map[])
      ensures isDeleting.None? && activeTab == CreateTab && !loading
    {
      this.store := store;
      posts := [];
      title, content, entryDate, departureDate, destination := "", "", "", "", "";
      image := None;
      guestEmails := Drafts(map[]);
      isDeleting := None;
      activeTab := CreateTab;
      loading := false;
    }

    /** handleGuestEmailChange: the draft for `postId` becomes `email`, every
        other draft is kept. */
    method HandleGuestEmailChange(postId: PostId, email: string)
      modifies this`guestEmails
      ensures guestEmails == Drafts(WithGuestEmail(old(guestEmails), postId, email))
      ensures DraftFor(guestEmails, postId) == email
      ensures forall q :: q != postId ==> DraftFor(guestEmails, q) == DraftFor(old(guestEmails), q)
    {
      guestEmails := Drafts(WithGuestEmail(guestEmails, postId, email));
    }

    /** fetchPosts: the held list becomes the caller's own rows; on a query
        error it is left as it was. With no session, reading the user id
        throws before any query. */
    method FetchPosts(caller: Option<UserId>, queryFails: bool) returns (r: Outcome)
      requires Valid()
      modifies this`posts
      ensures r == if caller.None? then Failed(NoSession) else Done
      ensures posts == if caller.Some? && !queryFails
                       then OwnedRows(store.posts, caller.value, store.nextId)
                       else old(posts)
      ensures caller.Some? && !queryFails ==>
        forall i :: 0 <= i < |posts| ==> posts[i].createdBy == caller.value && posts[i].id in store.posts
    {
      if caller.None? {
        return Failed(NoSession);
      }
      var rows := store.SelectOwned(caller.value, queryFails);
      if rows.Some? {
        posts := rows.value;
      }
      r := Done;
    }

    /** createPost. The backend changes as `CreateEffect` says and the handler
        ends with its outcome. On success the form is cleared, the list
        refetched and the list tab shown; on any failure the list, the form
        and the tab are kept. */
    method CreatePost(caller: Option<UserId>, now: nat, publicUrl: string -> string,
                      uploadFails: bool, insertFails: bool, refetchFails: bool)
      returns (r: Outcome)
      requires Valid()
      modifies this`posts, this`title, this`content, this`entryDate, this`departureDate,
               this`destination, this`image, this`activeTab, this`loading, store
      ensures Valid() && !loading
      ensures (store.Snapshot(), r) == CreateEffect(old(store.Snapshot()), caller, old(CurrentForm()),
                                                    now, publicUrl, uploadFails, insertFails)
      ensures r.Failed? ==>
        (posts == old(posts) && activeTab == old(activeTab) && CurrentForm() == old(CurrentForm()))
      ensures r == Done ==>
        (caller.Some? && CurrentForm() == EmptyForm && activeTab == ListTab
         && posts == (if refetchFails then old(posts)
                      else OwnedRows(store.posts, caller.value, store.nextId)))
    {
      loading := true;
      if caller.None? {
        loading := false;
        return Failed(AuthenticationRequired);
      }
      r := UploadAndInsert(caller.value, now, publicUrl, uploadFails, insertFails);
      if r == Done {
        ClearForm();
        r := FetchPosts(caller, refetchFails);
        activeTab := ListTab;
      }
      loading := false;
    }

    /** Steps 2 and 3 of `createPost` for a signed-in user: upload the chosen
        image, if any, then insert the row. */
    method UploadAndInsert(user: UserId, now: nat, publicUrl: string -> string,
                           uploadFails: bool, insertFails: bool)
      returns (r: Outcome)
      requires Valid()
      modifies store
      ensures Valid()
      ensures (store.Snapshot(), r) == CreateEffect(old(store.Snapshot()), Some(user), CurrentForm(),
                                                    now, publicUrl, uploadFails, insertFails)
    {
      var imageUrl: Option<string> := None;
      if image.Some? {
        var uploaded;
        uploaded, imageUrl := UploadImage(user, now, publicUrl, uploadFails);
        if !uploaded {
          return Failed(UploadFailed);
        }
      }
      var inserted := store.InsertPostRow(RowFor(CurrentForm(), imageUrl, user), insertFails);
      r := if inserted then Done else Failed(StoreFailed);
    }

    /** Step 2 of `createPost`: uploads the chosen image under the caller's
        key and yields its public URL. */
    method UploadImage(user: UserId, now: nat, publicUrl: string -> string, uploadFails: bool)
      returns (ok: bool, imageUrl: Option<string>)
      requires Valid() && image.Some?
      modifies store
      ensures Valid()
      ensures ok <==> !uploadFails && PutObject(old(store.Snapshot()), StorageKey(user, now, image.value.name), image.value).Some?
      ensures store.Snapshot() ==
        if ok then PutObject(old(store.Snapshot()), StorageKey(user, now, image.value.name), image.value).value
        else old(store.Snapshot())
      ensures imageUrl == Some(publicUrl(StorageKey(user, now, image.value.name)))
    {
      var fileName := StorageKey(user, now, image.value.name);
      ok := store.Upload(fileName, image.value, uploadFails);
      imageUrl := Some(publicUrl(fileName));
    }

    /** Step 4 of `createPost`: the six form fields are reset. */
    method ClearForm()
      modifies this`title, this`content, this`entryDate, this`departureDate,
               this`destination, this`image
      ensures CurrentForm() == EmptyForm
    {
      title, content, entryDate, departureDate, destination := "", "", "", "", "";
      image := None;
    }

    /** shareWithGuest. The post's creator is looked up first; a failed
        lookup, a caller who is not the creator, or no session at all stops
        the share with nothing inserted. Otherwise one `guest_access` row is
        inserted for the post, carrying the whole `guestEmails` value as its
        `guest_email`; if that insert succeeds the share link is returned and
        the drafts become ''. The link names the post and changes no table. */
    method ShareWithGuest(caller: Option<UserId>, postId: PostId, origin: string,
                          lookupFails: bool, insertFails: bool)
      returns (r: Result<Option<string>, Failure>)
      requires Valid()
      modifies this`guestEmails, store
      ensures Valid()
      ensures store.posts == old(store.posts) && store.objects == old(store.objects)
        && store.nextId == old(store.nextId)
      ensures r.Err? <==>
        (lookupFails || postId !in old(store.posts) || caller != Some(old(store.posts)[postId].createdBy))
      ensures r.Err? ==>
        r.error == if !lookupFails && postId in old(store.posts) && caller.None? then NoSession
                   else NotPermitted
      ensures r.Err? ==> store.guestAccess == old(store.guestAccess) && guestEmails == old(guestEmails)
      ensures r == Ok(None) <==> r.Ok? && insertFails
      ensures r == Ok(None) ==> store.guestAccess == old(store.guestAccess) && guestEmails == old(guestEmails)
      ensures r.Ok? && r.value.Some? ==>
        (r.value.value == ShareLink(origin, postId)
         && store.guestAccess == old(store.guestAccess) + [Grant(postId, old(guestEmails))]
         && guestEmails == Cleared)
    {
      var email := DraftFor(guestEmails, postId);
      var creator := store.SelectCreator(postId, lookupFails);
      if creator.None? {
        return Err(NotPermitted);
      }
      if caller.None? {
        return Err(NoSession);
      }
      if creator.value != caller.value {
        return Err(NotPermitted);
      }
      var inserted := store.InsertGrantRow(Grant(postId, guestEmails), insertFails);
      if inserted {
        var postLink := ShareLink(origin, postId);
        guestEmails := Cleared;
        r := Ok(Some(postLink));
      } else {
        r := Ok(None);
      }
    }

    /** deletePost: removes the row with this id without asking who created
        it and without touching `guest_access`, then refetches the list.
        `isDeleting` marks the post during the call and is cleared after. */
    method DeletePost(caller: Option<UserId>, id: PostId, deleteFails: bool, refetchFails: bool)
      returns (r: Outcome)
      requires Valid()
      modifies this`posts, this`isDeleting, store
      ensures Valid() && isDeleting.None?
      ensures store.Snapshot() == if deleteFails then old(store.Snapshot())
                                  else DeleteById(old(store.Snapshot()), id)
      ensures r == if deleteFails then Failed(StoreFailed)
                   else if caller.None? then Failed(NoSession) else Done
      ensures posts == if !deleteFails && caller.Some? && !refetchFails
                       then OwnedRows(store.posts, caller.value, store.nextId)
                       else old(posts)
    {
      isDeleting := Some(id);
      var deleted := store.DeleteWhereId(id, deleteFails);
      if !deleted {
        r := Failed(StoreFailed);
      } else {
        r := FetchPosts(caller, refetchFails);
      }
      isDeleting := None;
    }
  }

  /** Two owners on one backend: the second deletes the first's post, and the
      first's grant for it stays behind. */
  method NonOwnerDeleteScenario() {
    var store := new Store();
    var panel := new AdminPanel(store);
    panel.title := "Trip";
    var created := panel.CreatePost(Some("alice"), 1700000000000, s => s, false, false, false);
    assert created == Done && store.posts[0].createdBy == "alice";

    var shared := panel.ShareWithGuest(Some("alice"), 0, "https://site", false, false);
    assert |store.guestAccess| == 1 && store.guestAccess[0].postId == 0;

    var deleted := panel.DeletePost(Some("bob"), 0, false, false);
    assert deleted == Done && 0 !in store.posts;
    assert store.guestAccess[0].postId == 0;
  }

  /** A share refused to a non-owner inserts nothing; the owner's share stores
      the drafts of every post in the grant row and returns the link. */
  method ShareScenario() {
    var store := new Store();
    var panel := new AdminPanel(store);
    var created := panel.CreatePost(Some("alice"), 1700000000000, s => s, false, false, false);
    assert created == Done && store.posts[0].createdBy == "alice";

    panel.HandleGuestEmailChange(0, "x@y.com");
    panel.HandleGuestEmailChange(7, "z@y.com");
    var denied := panel.ShareWithGuest(Some("bob"), 0, "https://site", false, false);
    assert denied == Err(NotPermitted) && store.guestAccess == [];

    var shared := panel.ShareWithGuest(Some("alice"), 0, "https://site", false, false);
    assert shared.value == Some(ShareLink("https://site", 0));
    assert store.guestAccess == [Grant(0, Drafts(map[0 := "x@y.com", 7 := "z@y.com"]))];
    assert panel.guestEmails == Cleared;
  }
}
