/** The two strings the admin panel builds: the storage key of an uploaded
    image and the link handed to a guest. */
module Links {
  import opened Wrappers
  import opened Text
  import opened Schema

  /** The folder of the `post-images` bucket that holds one owner's images. */
  function OwnerFolder(user: UserId): string {
    "posts/" + user + "/"
  }

  /** `posts/${user.id}/${Date.now()}-${image.name.replace(/\s+/g, '_')}`. */
  function StorageKey(user: UserId, now: nat, fileName: string): (key: string)
    ensures |OwnerFolder(user)| < |key| && key[..|OwnerFolder(user)|] == OwnerFolder(user)
  {
    OwnerFolder(user) + (Decimal(now) + "-" + CollapseWhitespace(fileName))
  }

  datatype KeyParts = KeyParts(timestamp: nat, name: string)

  /** Reads a key of `user`'s folder back into its timestamp and file name. */
  function ParseStorageKey(user: UserId, key: string): Option<KeyParts> {
    var folder := OwnerFolder(user);
    if |key| < |folder| || key[..|folder|] != folder then None
    else
      var rest := key[|folder|..];
      var k := DigitSpan(rest);
      if k == 0 || k == |rest| || rest[k] != '-' then None
      else Some(KeyParts(DecimalValue(rest[..k]), rest[k + 1..]))
  }

  lemma {:induction false} DigitSpanOfDigits(d: string, t: string)
    requires AllDigits(d)
    requires t == [] || !IsDigit(t[0])
    ensures DigitSpan(d + t) == |d|
  {
    if d != [] {
      assert (d + t)[1..] == d[1..] + t;
      DigitSpanOfDigits(d[1..], t);
    }
  }

  /** The key is owner-scoped and can be taken apart again: it names the
      upload's timestamp and the file name with every run of whitespace
      replaced by one underscore, which leaves no whitespace in it. */
  lemma StorageKeyRoundTrip(user: UserId, now: nat, fileName: string)
    ensures ParseStorageKey(user, StorageKey(user, now, fileName))
         == Some(KeyParts(now, CollapseWhitespace(fileName)))
    ensures NoWhitespace(CollapseWhitespace(fileName))
  {
    var d, n := Decimal(now), CollapseWhitespace(fileName);
    var key := StorageKey(user, now, fileName);
    var rest := d + "-" + n;
    assert key[|OwnerFolder(user)|..] == rest;
    assert rest == d + ("-" + n);
    DigitSpanOfDigits(d, "-" + n);
    assert rest[..|d|] == d;
    assert rest[|d| + 1..] == n;
    DecimalRoundTrip(now);
  }

  /** Two uploads by one owner get the same key only at the same timestamp
      and with names that sanitise alike. */
  lemma StorageKeyInjective(user: UserId, t1: nat, n1: string, t2: nat, n2: string)
    requires StorageKey(user, t1, n1) == StorageKey(user, t2, n2)
    ensures t1 == t2 && CollapseWhitespace(n1) == CollapseWhitespace(n2)
  {
    StorageKeyRoundTrip(user, t1, n1);
    StorageKeyRoundTrip(user, t2, n2);
  }

  /** `${window.location.origin}/view/${postId}`. */
  function ShareLink(origin: string, postId: PostId): (link: string)
    ensures |origin + "/view/"| < |link| && link[..|origin + "/view/"|] == origin + "/view/"
  {
    origin + "/view/" + Decimal(postId)
  }

  /** The `[id]` segment that app/view/[id]/page.js reads from a link of
      this origin. */
  function ParseShareLink(origin: string, link: string): Option<PostId> {
    var prefix := origin + "/view/";
    if |link| <= |prefix| || link[..|prefix|] != prefix then None
    else
      var rest := link[|prefix|..];
      if AllDigits(rest) then Some(DecimalValue(rest)) else None
  }

  /** The link leads back to exactly the shared post: it names the post id
      and nothing else (no e-mail, no token). */
  lemma ShareLinkRoundTrip(origin: string, postId: PostId)
    ensures ParseShareLink(origin, ShareLink(origin, postId)) == Some(postId)
  {
    var link := ShareLink(origin, postId);
    assert link[|origin + "/view/"|..] == Decimal(postId);
    DecimalRoundTrip(postId);
  }

  lemma ShareLinkInjective(origin: string, p: PostId, q: PostId)
    requires ShareLink(origin, p) == ShareLink(origin, q)
    ensures p == q
  {
    ShareLinkRoundTrip(origin, p);
    ShareLinkRoundTrip(origin, q);
  }
}
