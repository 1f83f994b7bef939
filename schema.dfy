/** The rows and values the admin panel exchanges with its backend: the
    `posts` and `guest_access` tables, objects in the `post-images` bucket,
    and the panel's `guestEmails` state. */
module Schema {
  import opened Wrappers

  /** The identity provider's user id (`user.id`). */
  type UserId = string

  /** A post's server-assigned id. */
  type PostId = nat

  /** A file chosen in the image picker. */
  datatype ImageFile = ImageFile(name: string, bytes: seq<bv8>)

  /** A row of the `posts` table. */
  datatype Post = Post(
    id: PostId,
    title: string,
    content: string,
    arrivalDate: string,
    departureDate: string,
    destination: string,
    imageUrl: Option<string>,
    createdBy: UserId)

  /** The panel's `guestEmails` state: an object from post id to the e-mail
      typed for that post, or the empty string '' that a successful share
      stores in its place. */
  datatype EmailDrafts = Drafts(byPost: map<PostId, string>) | Cleared

  /** A row of the `guest_access` table. Its `guest_email` column receives
      whatever `guestEmails` held when the row was inserted. */
  datatype Grant = Grant(postId: PostId, guestEmail: EmailDrafts)

  /** The backend's state: both tables, the image bucket and the counter
      that assigns the next post id. */
  datatype Tables = Tables(
    posts: map<PostId, Post>,
    guestAccess: seq<Grant>,
    objects: map<string, ImageFile>,
    nextId: nat)
}
