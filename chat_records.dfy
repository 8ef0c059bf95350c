/** The documents of the `messages` collection and the keys under which
    attachments are written to the blob store. */
module Records {
  import opened JsValues

  type Url = string
  type Key = string
  type Bytes = seq<bv8>

  /** The signed-in user, as the authentication service reports it. */
  datatype User = User(uid: string, photoURL: Option<Url>)

  /** The value of `createdAt`: what the client writes is the server-timestamp
      sentinel, which the store replaces by its own clock's reading. */
  datatype Timestamp = ServerTimestamp | Resolved(millis: int)

  /** A message document as a JavaScript object: each payload field is either
      present or absent, and nothing in the type forces exactly one of them. */
  datatype Record = Record(
    text: Option<string>,
    audioURL: Option<Url>,
    imageURL: Option<Url>,
    createdAt: Timestamp,
    uid: string,
    photoURL: Option<Url>)

  /** The kind of attachment a storage write holds. */
  datatype Attachment = Audio | Image

  /** The three kinds of message, in the order one submit sends them. */
  datatype Kind = TextKind | VoiceKind | ImageKind

  function Rank(k: Kind): nat {
    match k
    case TextKind => 0
    case VoiceKind => 1
    case ImageKind => 2
  }

  function PayloadCount(r: Record): nat {
    (if r.text.Some? then 1 else 0) + (if r.audioURL.Some? then 1 else 0) + (if r.imageURL.Some? then 1 else 0)
  }

  predicate HasOnePayload(r: Record) {
    PayloadCount(r) == 1
  }

  function KindOf(r: Record): Kind
    requires HasOnePayload(r)
  {
    if r.text.Some? then TextKind else if r.audioURL.Some? then VoiceKind else ImageKind
  }

  /** The record carries the author's uid and avatar and the server-timestamp sentinel. */
  predicate AuthoredBy(r: Record, user: User) {
    r.uid == user.uid && r.photoURL == user.photoURL && r.createdAt == ServerTimestamp
  }

  /** The text message a submit writes: the draft text as typed, untrimmed. */
  function TextRecord(text: string, user: User): (r: Record)
    ensures HasOnePayload(r) && KindOf(r) == TextKind && r.text == Some(text)
    ensures AuthoredBy(r, user)
  {
    Record(Some(text), None, None, ServerTimestamp, user.uid, user.photoURL)
  }

  /** The voice or image message that refers to an uploaded attachment by its download URL. */
  function AttachmentRecord(kind: Attachment, url: Url, user: User): (r: Record)
    ensures HasOnePayload(r) && AuthoredBy(r, user)
    ensures kind == Audio ==> KindOf(r) == VoiceKind && r.audioURL == Some(url)
    ensures kind == Image ==> KindOf(r) == ImageKind && r.imageURL == Some(url)
  {
    match kind
    case Audio => Record(None, Some(url), None, ServerTimestamp, user.uid, user.photoURL)
    case Image => Record(None, None, Some(url), ServerTimestamp, user.uid, user.photoURL)
  }

  function Extension(kind: Attachment): string {
    match kind
    case Audio => ".wav"
    case Image => ".jpg"
  }

  /** The storage key of an attachment: owner uid, a slash, the ISO time of the
      upload and the extension of its kind. */
  function StorageKey(uid: string, isoStamp: string, kind: Attachment): (key: Key)
    ensures |key| == |uid| + 1 + |isoStamp| + 4
    ensures key[..|uid| + 1] == uid + "/"
    ensures key[|key| - 4..] == Extension(kind)
  {
    uid + "/" + isoStamp + Extension(kind)
  }

  /** The first position of `c` in `s`, if any. */
  function FirstIndexOf(s: string, c: char): (r: Option<nat>)
    ensures r.Some? ==> r.value < |s| && s[r.value] == c && c !in s[..r.value]
    ensures r.None? ==> c !in s
  {
    if s == [] then None
    else if s[0] == c then Some(0)
    else match FirstIndexOf(s[1..], c)
      case None => None
      case Some(i) => (assert s[..i + 1] == [s[0]] + s[1..][..i]; Some(i + 1))
  }

  datatype KeyParts = KeyParts(uid: string, stamp: string, kind: Attachment)

  /** Reads a storage key back: the owner is everything before the first
      slash, the kind is given by the last four characters. */
  function ParseStorageKey(key: Key): Option<KeyParts> {
    match FirstIndexOf(key, '/')
    case None => None
    case Some(i) =>
      var rest := key[i + 1..];
      if |rest| < 4 then None
      else
        var stamp, ext := rest[..|rest| - 4], rest[|rest| - 4..];
        if ext == ".wav" then Some(KeyParts(key[..i], stamp, Audio))
        else if ext == ".jpg" then Some(KeyParts(key[..i], stamp, Image))
        else None
  }

  /** Every key names its owner, its time stamp and its kind: parsing it gives
      them back, provided the uid has no slash (true of the uids the authentication
      service assigns to Google sign-in accounts, the only sign-in the app offers). */
  lemma ParseStorageKeyRoundTrip(uid: string, isoStamp: string, kind: Attachment)
    requires '/' !in uid
    ensures ParseStorageKey(StorageKey(uid, isoStamp, kind)) == Some(KeyParts(uid, isoStamp, kind))
  {
    var key := StorageKey(uid, isoStamp, kind);
    Pieces(uid, isoStamp, Extension(kind));
    assert FirstIndexOf(key, '/') == Some(|uid|);
  }

  /** The slices of `uid + "/" + stamp + ext` that parsing takes. */
  lemma Pieces(uid: string, stamp: string, ext: string)
    requires |ext| == 4
    ensures var key := uid + "/" + stamp + ext;
      var rest := key[|uid| + 1..];
      && key[..|uid|] == uid && key[|uid|] == '/'
      && rest == stamp + ext && rest[..|rest| - 4] == stamp && rest[|rest| - 4..] == ext
  {
  }

  /** Conversely, a key that parses is exactly the key built from its parts. */
  lemma ParseStorageKeySound(key: Key)
    requires ParseStorageKey(key).Some?
    ensures var p := ParseStorageKey(key).value;
      '/' !in p.uid && StorageKey(p.uid, p.stamp, p.kind) == key
  {
    var i := FirstIndexOf(key, '/').value;
    var rest := key[i + 1..];
    var kind := if rest[|rest| - 4..] == ".wav" then Audio else Image;
    assert ParseStorageKey(key).value == KeyParts(key[..i], rest[..|rest| - 4], kind);
    assert Extension(kind) == rest[|rest| - 4..];
    Reassemble(key, i);
  }

  /** Cutting a string at a slash and cutting the tail four characters from
      the end loses nothing. */
  lemma Reassemble(s: string, i: nat)
    requires i < |s| && s[i] == '/' && |s| - (i + 1) >= 4
    ensures var rest := s[i + 1..];
      s == s[..i] + "/" + rest[..|rest| - 4] + rest[|rest| - 4..]
  {
    var rest := s[i + 1..];
    assert rest[..|rest| - 4] + rest[|rest| - 4..] == rest;
    assert s[..i] + "/" + rest == s;
  }

  /** Distinct uploads get distinct keys: the key determines the owner, the
      time stamp and the kind, so in particular an audio and an image upload
      never share a key, even in the same millisecond. */
  lemma StorageKeyInjective(u1: string, s1: string, k1: Attachment, u2: string, s2: string, k2: Attachment)
    requires '/' !in u1 && '/' !in u2
    requires StorageKey(u1, s1, k1) == StorageKey(u2, s2, k2)
    ensures u1 == u2 && s1 == s2 && k1 == k2
  {
    ParseStorageKeyRoundTrip(u1, s1, k1);
    ParseStorageKeyRoundTrip(u2, s2, k2);
  }
}
