/** The per-post guest e-mail drafts of the admin panel
    (app/admin/page.js, `guestEmails`, `handleGuestEmailChange`). */
module GuestDrafts {
  import opened Schema

  /** The entries that spreading `guestEmails` contributes: the object's own
      entries, and none for the empty string. */
  function Entries(d: EmailDrafts): map<PostId, string> {
    match d
    case Drafts(m) => m
    case Cleared => map[]
  }

  /** `{ ...prev, [postId]: email }`: the entry for `postId` becomes `email`
      and every other entry of `prev` is kept. */
  function WithGuestEmail(prev: EmailDrafts, postId: PostId, email: string): (m: map<PostId, string>)
    ensures postId in m && m[postId] == email
    ensures m.Keys == Entries(prev).Keys + {postId}
    ensures forall q :: q in Entries(prev) && q != postId ==> m[q] == Entries(prev)[q]
  {
    Entries(prev)[postId := email]
  }

  /** `guestEmails[postId] || ''`: the text shown in a post's e-mail box and
      the `email` a share computes. */
  function DraftFor(d: EmailDrafts, postId: PostId): (email: string)
    ensures d.Cleared? ==> email == ""
    ensures d.Drafts? && postId in d.byPost ==> email == d.byPost[postId]
    ensures d.Drafts? && postId !in d.byPost ==> email == ""
  {
    if postId in Entries(d) then Entries(d)[postId] else ""
  }

  /** Read after write: the edited post reads the new e-mail, every other
      post reads what it read before. */
  lemma DraftAfterChange(prev: EmailDrafts, postId: PostId, email: string, q: PostId)
    ensures DraftFor(Drafts(WithGuestEmail(prev, postId, email)), q)
         == if q == postId then email else DraftFor(prev, q)
  {
  }

  /** Once cleared by a share, every post's box reads empty, and the next edit
      starts from an empty object. */
  lemma ClearedDrafts(q: PostId, postId: PostId, email: string)
    ensures DraftFor(Cleared, q) == ""
    ensures WithGuestEmail(Cleared, postId, email) == map[postId := email]
  {
  }
}
