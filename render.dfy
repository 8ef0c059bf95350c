/** How one message is shown to the signed-in viewer: the side it sits on,
    the avatar, the text, audio and image elements, and when the
    colour-blindness simulation of its image is asked for. */
module Render {
  import opened JsValues
  import opened Records

  /** The preference value that turns the colour-blindness simulation on. */
  const ColorBlindness: string := "Color-Blindness"

  /** The stock avatar shown when the author has none. */
  const DefaultAvatar: Url := "https://api.adorable.io/avatars/23/abott@adorable.png"

  /** Own messages sit on the "sent" side, everybody else's on the "received" side. */
  function MessageClass(uid: string, currentUid: string): (c: string)
    ensures c == "sent" <==> uid == currentUid
    ensures c == "received" <==> uid != currentUid
  {
    if uid == currentUid then "sent" else "received"
  }

  /** The author's photo when it is a non-empty URL, the stock avatar otherwise;
      so an avatar is always shown. */
  function AvatarSrc(photoURL: Option<Url>): (src: Url)
    ensures Truthy(photoURL) ==> src == photoURL.value
    ensures !Truthy(photoURL) ==> src == DefaultAvatar
    ensures src != ""
  {
    if Truthy(photoURL) then photoURL.value else DefaultAvatar
  }

  /** Whether the message asks the simulation service for a transformed image. */
  predicate ShouldRequestTransform(imageURL: Option<Url>, pref: string) {
    Truthy(imageURL) && pref == ColorBlindness
  }

  /** The source of each image element shown for the message's image, in the
      order they are laid out: one element guarded by the colour-blindness
      preference, showing the simulated image (`None`: an element with no
      source), and one guarded by its negation, showing the original. A message
      with an image therefore shows exactly one of the two. */
  function DisplayedImages(imageURL: Option<Url>, pref: string, responseImage: Option<Url>): (imgs: seq<Option<Url>>)
    ensures |imgs| == (if Truthy(imageURL) then 1 else 0)
    ensures |imgs| == 1 && pref == ColorBlindness ==> imgs[0] == responseImage
    ensures |imgs| == 1 && pref != ColorBlindness ==> imgs[0] == imageURL
  {
    (if Truthy(imageURL) && pref == ColorBlindness then [responseImage] else [])
    + (if Truthy(imageURL) && !(pref == ColorBlindness) then [imageURL] else [])
  }

  /** What a message renders as. */
  datatype Rendered = Rendered(
    className: string,
    avatar: Url,
    paragraphs: seq<string>,
    audios: seq<Url>,
    images: seq<Option<Url>>)

  /** The number of content elements: paragraphs, audio players and images. */
  function ContentCount(v: Rendered): nat {
    |v.paragraphs| + |v.audios| + |v.images|
  }

  /** One message, rendered for the viewer `currentUid` under `pref`, with
      `responseImage` the simulated image the message holds. A payload field
      is shown when it is truthy. */
  function RenderMessage(msg: Record, pref: string, responseImage: Option<Url>, currentUid: string): (v: Rendered)
    ensures |v.paragraphs| == (if Truthy(msg.text) then 1 else 0)
    ensures |v.audios| == (if Truthy(msg.audioURL) then 1 else 0)
  {
    Rendered(
      MessageClass(msg.uid, currentUid),
      AvatarSrc(msg.photoURL),
      if Truthy(msg.text) then [msg.text.value] else [],
      if Truthy(msg.audioURL) then [msg.audioURL.value] else [],
      DisplayedImages(msg.imageURL, pref, responseImage))
  }

  // ---------------------------------------------------------------------
  // The state one rendered message keeps between renders
  // ---------------------------------------------------------------------

  /** The preference of the last render, the simulated image (none at first),
      and the image URLs posted to the simulation service so far. */
  datatype ViewState = ViewState(preference: string, responseImage: Option<Url>, requests: seq<Url>)

  /** The simulation service's answer: the call threw or answered with an
      error status, or it answered with a body whose `simulatedImageUrl` may be
      missing. */
  datatype TransformReply = RequestFailed | Replied(simulatedImageUrl: Option<Url>)

  /** The effect run after a render: when the message's image should be
      transformed, post it; a reply replaces the simulated image, a failure
      leaves it as it was. */
  function RunEffect(s: ViewState, imageURL: Option<Url>, reply: TransformReply): ViewState {
    if ShouldRequestTransform(imageURL, s.preference) then
      var simulated := match reply
        case RequestFailed => s.responseImage
        case Replied(u) => u;
      ViewState(s.preference, simulated, s.requests + [imageURL.value])
    else s
  }

  /** The first render: no simulated image yet, and the effect runs. */
  function Mount(imageURL: Option<Url>, pref: string, reply: TransformReply): ViewState {
    RunEffect(ViewState(pref, None, []), imageURL, reply)
  }

  /** A later render: the effect runs again only when the preference differs
      from the previous render's. */
  function Rerender(s: ViewState, imageURL: Option<Url>, pref: string, reply: TransformReply): ViewState {
    if pref == s.preference then s else RunEffect(s.(preference := pref), imageURL, reply)
  }

  /** The image elements the message shows in a state. */
  function ShownImages(s: ViewState, imageURL: Option<Url>): seq<Option<Url>> {
    DisplayedImages(imageURL, s.preference, s.responseImage)
  }

  /** The first render posts the image to the simulation service exactly when
      the message has an image and the preference is colour-blindness, and then
      posts exactly that image; the simulated image is the reply's, if one came,
      and none otherwise. */
  lemma MountRequestsIff(imageURL: Option<Url>, pref: string, reply: TransformReply)
    ensures var s := Mount(imageURL, pref, reply);
      && s.preference == pref
      && (s.requests != [] <==> ShouldRequestTransform(imageURL, pref))
      && (s.requests != [] ==> s.requests == [imageURL.value])
      && s.responseImage == (if ShouldRequestTransform(imageURL, pref) && reply.Replied? then reply.simulatedImageUrl else None)
  {
  }

  /** A later render posts the image to the simulation service exactly when
      the preference has changed to colour-blindness and the message has an
      image; it then posts exactly that image once. A reply replaces the
      simulated image; a failure, or no post, leaves it as it was, and without
      a post nothing but the preference changes. */
  lemma RerenderRequestsIff(s: ViewState, imageURL: Option<Url>, pref: string, reply: TransformReply)
    ensures var s' := Rerender(s, imageURL, pref, reply);
      var posted := pref != s.preference && ShouldRequestTransform(imageURL, pref);
      && s'.preference == pref
      && (|s'.requests| > |s.requests| <==> posted)
      && (|s'.requests| > |s.requests| ==> s'.requests == s.requests + [imageURL.value])
      && (|s'.requests| == |s.requests| ==> s' == s.(preference := pref))
      && s'.responseImage == (if posted && reply.Replied? then reply.simulatedImageUrl else s.responseImage)
  {
  }

  /** Nothing is cached: switching away from colour-blindness and back posts
      the same image again, even when the first post succeeded. */
  lemma NoTransformCache(s: ViewState, imageURL: Option<Url>, other: string, away: TransformReply, back: TransformReply)
    requires s.preference == ColorBlindness && Truthy(imageURL) && other != ColorBlindness
    ensures Rerender(Rerender(s, imageURL, other, away), imageURL, ColorBlindness, back).requests
            == s.requests + [imageURL.value]
  {
  }

  /** Off colour-blindness the original image is shown, whatever simulated
      image the message holds. */
  lemma OriginalShownOffColorBlindness(s: ViewState, imageURL: Option<Url>)
    requires Truthy(imageURL) && s.preference != ColorBlindness
    ensures ShownImages(s, imageURL) == [imageURL]
  {
  }

  /** Under colour-blindness a message whose first simulation fails shows an
      image element with no source, not the original image. */
  lemma FailedTransformShowsNoSource(imageURL: Option<Url>)
    requires Truthy(imageURL)
    ensures var s := Mount(imageURL, ColorBlindness, RequestFailed);
      ShownImages(s, imageURL) == [None] && s.requests == [imageURL.value]
  {
  }

  /** The simulated image is never reset: after a successful simulation,
      switching away and back with a failing second request shows the first
      simulation's result again. */
  lemma StaleSimulationAfterFailedRetry(imageURL: Option<Url>, simulated: Url, other: string)
    requires Truthy(imageURL) && other != ColorBlindness
    ensures var s1 := Mount(imageURL, ColorBlindness, Replied(Some(simulated)));
      var s2 := Rerender(s1, imageURL, other, RequestFailed);
      var s3 := Rerender(s2, imageURL, ColorBlindness, RequestFailed);
      && ShownImages(s2, imageURL) == [imageURL]
      && ShownImages(s3, imageURL) == [Some(simulated)]
      && |s3.requests| == 2
  {
  }
}
