/** The backend the admin panel talks to, as an in-memory state: the `posts`
    and `guest_access` tables and the `post-images` bucket. The functions
    give the meaning of each query the panel issues; class Store performs
    them in place. */
module Db {
  import opened Wrappers
  import opened Schema

  /** Every row is stored under its own id, and ids below `nextId` are the
      ones handed out so far. */
  predicate WellFormed(t: Tables) {
    forall id :: id in t.posts ==> t.posts[id].id == id && id < t.nextId
  }

  /** `insert([{ ... }])` into `posts`: the row gets the next id and every
      column of the payload; no other row, grant or object changes. */
  function InsertPost(t: Tables, payload: Post): (t': Tables)
    requires WellFormed(t)
    ensures WellFormed(t')
    ensures t.nextId !in t.posts && t'.posts.Keys == t.posts.Keys + {t.nextId}
    ensures t'.posts[t.nextId] == payload.(id := t.nextId)
    ensures forall id :: id in t.posts ==> t'.posts[id] == t.posts[id]
    ensures t'.guestAccess == t.guestAccess && t'.objects == t.objects
  {
    t.(posts := t.posts[t.nextId := payload.(id := t.nextId)], nextId := t.nextId + 1)
  }

  /** `delete().eq('id', id)` on `posts`: removes the row with that id,
      whoever created it, and touches no `guest_access` row. */
  function DeleteById(t: Tables, id: PostId): (t': Tables)
    ensures id !in t'.posts && t'.posts.Keys == t.posts.Keys - {id}
    ensures forall k :: k in t'.posts ==> t'.posts[k] == t.posts[k]
    ensures t'.guestAccess == t.guestAccess && t'.objects == t.objects && t'.nextId == t.nextId
  {
    t.(posts := t.posts - {id})
  }

  /** `insert([grant])` into `guest_access`. */
  function InsertGrant(t: Tables, g: Grant): (t': Tables)
    ensures t'.guestAccess == t.guestAccess + [g]
    ensures t'.posts == t.posts && t'.objects == t.objects && t'.nextId == t.nextId
  {
    t.(guestAccess := t.guestAccess + [g])
  }

  /** `upload(key, file, { upsert: false })`: refused when the key is taken,
      otherwise the bucket gains the object and nothing else changes. */
  function PutObject(t: Tables, key: string, file: ImageFile): (r: Option<Tables>)
    ensures r.None? <==> key in t.objects
    ensures r.Some? ==> r.value == t.(objects := t.objects[key := file])
  {
    if key in t.objects then None else Some(t.(objects := t.objects[key := file]))
  }

  /** `select('created_by').eq('id', id).single()`. */
  function CreatorOf(t: Tables, id: PostId): (r: Option<UserId>)
    ensures r.Some? <==> id in t.posts
    ensures r.Some? ==> r.value == t.posts[id].createdBy
  {
    if id in t.posts then Some(t.posts[id].createdBy) else None
  }

  /** `select('*').eq('created_by', user)` over the ids below `n`, in id
      order: exactly the rows `user` created, each once. */
  function OwnedRows(posts: map<PostId, Post>, user: UserId, n: nat): (rows: seq<Post>)
    requires forall id :: id in posts ==> posts[id].id == id
    ensures forall i :: 0 <= i < |rows| ==>
      rows[i].createdBy == user && rows[i].id < n && rows[i].id in posts && posts[rows[i].id] == rows[i]
    ensures forall id :: id in posts && id < n && posts[id].createdBy == user ==> posts[id] in rows
    ensures forall i, j :: 0 <= i < j < |rows| ==> rows[i].id < rows[j].id
  {
    if n == 0 then []
    else
      var earlier := OwnedRows(posts, user, n - 1);
      if n - 1 in posts && posts[n - 1].createdBy == user then earlier + [posts[n - 1]] else earlier
  }

  /** Every grant references a post that exists. */
  predicate GrantsReferenceLivePosts(t: Tables) {
    forall i :: 0 <= i < |t.guestAccess| ==> t.guestAccess[i].postId in t.posts
  }

  /** A delete does not check ownership: a caller who did not create the post
      removes it all the same. */
  lemma DeleteByNonOwner(t: Tables, id: PostId, caller: UserId)
    requires id in t.posts && t.posts[id].createdBy != caller
    ensures id in t.posts && id !in DeleteById(t, id).posts
  {
  }

  /** A delete does not cascade: a grant for the deleted post stays behind
      and references a post that no longer exists. */
  lemma DeleteLeavesOrphanGrants(t: Tables, id: PostId, i: nat)
    requires i < |t.guestAccess| && t.guestAccess[i].postId == id
    ensures DeleteById(t, id).guestAccess[i].postId == id
    ensures !GrantsReferenceLivePosts(DeleteById(t, id))
  {
  }

  /** An insert leaves the caller's earlier listing intact and adds the new
      row to the listing of the user stamped on it, and of no one else. */
  lemma {:induction false} InsertPostListing(t: Tables, payload: Post, user: UserId)
    requires WellFormed(t)
    ensures OwnedRows(InsertPost(t, payload).posts, user, t.nextId + 1)
         == OwnedRows(t.posts, user, t.nextId)
          + (if payload.createdBy == user then [payload.(id := t.nextId)] else [])
  {
    var t' := InsertPost(t, payload);
    OwnedRowsAgree(t.posts, t'.posts, user, t.nextId);
  }

  /** Listings over two tables that agree below `n` agree. */
  lemma {:induction false} OwnedRowsAgree(p: map<PostId, Post>, q: map<PostId, Post>, user: UserId, n: nat)
    requires forall id :: id in p ==> p[id].id == id
    requires forall id :: id in q ==> q[id].id == id
    requires forall id :: id < n ==> (id in p <==> id in q) && (id in p ==> p[id] == q[id])
    ensures OwnedRows(p, user, n) == OwnedRows(q, user, n)
  {
    if n > 0 {
      OwnedRowsAgree(p, q, user, n - 1);
    }
  }

  class Store {
    var posts: map<PostId, Post>
    var guestAccess: seq<Grant>
    var objects: map<string, ImageFile>
    var nextId: nat

    function Snapshot(): Tables
      reads this
    {
      Tables(posts, guestAccess, objects, nextId)
    }

    ghost predicate Valid()
      reads this
    {
      WellFormed(Snapshot())
    }

    constructor ()
      ensures Valid() && Snapshot() == Tables(map[], [], map[], 0)
    {
      posts, guestAccess, objects, nextId := map[], [], map[], 0;
    }

    /** Inserts a post row; `fails` is a database error, which changes nothing. */
    method InsertPostRow(payload: Post, fails: bool) returns (ok: bool)
      requires Valid()
      modifies this
      ensures Valid()
      ensures ok == !fails
      ensures Snapshot() == if ok then InsertPost(old(Snapshot()), payload) else old(Snapshot())
    {
      ok := !fails;
      if ok {
        posts := posts[nextId := payload.(id := nextId)];
        nextId := nextId + 1;
      }
    }

    method DeleteWhereId(id: PostId, fails: bool) returns (ok: bool)
      requires Valid()
      modifies this
      ensures Valid()
      ensures ok == !fails
      ensures Snapshot() == if ok then DeleteById(old(Snapshot()), id) else old(Snapshot())
    {
      ok := !fails;
      if ok {
        posts := posts - {id};
      }
    }

    method InsertGrantRow(g: Grant, fails: bool) returns (ok: bool)
      requires Valid()
      modifies this
      ensures Valid()
      ensures ok == !fails
      ensures Snapshot() == if ok then InsertGrant(old(Snapshot()), g) else old(Snapshot())
    {
      ok := !fails;
      if ok {
        guestAccess := guestAccess + [g];
      }
    }

    /** Uploads to the bucket; `fails` is a transport or storage error. */
    method Upload(key: string, file: ImageFile, fails: bool) returns (ok: bool)
      requires Valid()
      modifies this
      ensures Valid()
      ensures ok <==> !fails && PutObject(old(Snapshot()), key, file).Some?
      ensures Snapshot() == if ok then PutObject(old(Snapshot()), key, file).value else old(Snapshot())
    {
      ok := !fails && key !in objects;
      if ok {
        objects := objects[key := file];
      }
    }

    /** Looks up a post's creator; an absent row and a query error both read
        as an error. */
    method SelectCreator(id: PostId, fails: bool) returns (r: Option<UserId>)
      ensures r.Some? <==> !fails && id in posts
      ensures r.Some? ==> r.value == posts[id].createdBy
    {
      if fails {
        r := None;
      } else {
        r := CreatorOf(Snapshot(), id);
      }
    }

    /** Lists `user`'s rows; `fails` is a query error. */
    method SelectOwned(user: UserId, fails: bool) returns (r: Option<seq<Post>>)
      requires Valid()
      ensures r.Some? <==> !fails
      ensures r.Some? ==> forall i :: 0 <= i < |r.value| ==>
        r.value[i].createdBy == user && r.value[i].id in posts && posts[r.value[i].id] == r.value[i]
      ensures r.Some? ==> forall id :: id in posts && posts[id].createdBy == user ==> posts[id] in r.value
      ensures r.Some? ==> r.value == OwnedRows(posts, user, nextId)
    {
      if fails {
        r := None;
      } else {
        r := Some(OwnedRows(posts, user, nextId));
      }
    }
  }
}
