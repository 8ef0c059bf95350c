/** How what the composer writes looks to its author. */
module Conversation {
  import opened JsValues
  import opened Records
  import opened Compose
  import opened Render

  /** The blob store hands out non-empty download URLs. */
  ghost predicate DownloadUrlsNonEmpty(env: Env) {
    forall key, content :: env.upload(key, content).Some? ==> env.upload(key, content).value != ""
  }

  /** Every message a submit adds is shown to its author on the "sent" side,
      with the author's avatar, as exactly one content element: its text, its
      audio player or its image. */
  lemma OwnMessagesRenderAsSent(d: Draft, user: User, env: Env, pref: string, responseImage: Option<Url>)
    requires DownloadUrlsNonEmpty(env)
    ensures forall r :: r in Submit(d, user, env).appended ==>
      var v := RenderMessage(r, pref, responseImage, user.uid);
      v.className == "sent" && v.avatar == AvatarSrc(user.photoURL) && ContentCount(v) == 1
  {
    var s := Submit(d, user, env);
    SubmitAppendsInFixedOrder(d, user, env);
    SubmitSendsOnlyPresentParts(d, user, env);
    forall r | r in s.appended
      ensures var v := RenderMessage(r, pref, responseImage, user.uid);
        v.className == "sent" && v.avatar == AvatarSrc(user.photoURL) && ContentCount(v) == 1
    {
      var k :| 0 <= k < |s.appended| && s.appended[k] == r;
      assert HasOnePayload(r) && AuthoredBy(r, user);
      if r.text.Some? {
        assert r.text == Some(d.formValue) && !IsBlank(d.formValue);
        NonBlankIsTruthy(d.formValue);
      } else {
        UploadedUrlNonEmpty(d, user, env, r);
      }
    }
  }

  /** The URL an attachment message refers to is one the blob store handed out. */
  lemma UploadedUrlNonEmpty(d: Draft, user: User, env: Env, r: Record)
    requires DownloadUrlsNonEmpty(env)
    requires r in Submit(d, user, env).appended && r.text.None?
    ensures r.audioURL.Some? ==> r.audioURL.value != ""
    ensures r.imageURL.Some? ==> r.imageURL.value != ""
  {
    SubmitByStages(d, user, env);
  }
}
