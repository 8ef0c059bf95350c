/** The chat room's compose-and-submit pipeline: the draft (text, recorded
    audio, chosen image), the Send-button condition, and the submit that turns
    the draft into text, voice and image messages one after the other. */
module Compose {
  import opened JsValues
  import opened Records

  /** The three parts of the draft. */
  datatype Draft = Draft(formValue: string, blob: Option<Bytes>, image: Option<Bytes>)

  /** Whether the Send button is enabled: some text has been typed (whitespace
      counts), or a recording or an image is pending. */
  predicate SendEnabled(d: Draft) {
    d.formValue != "" || d.blob.Some? || d.image.Some?
  }

  /** What the outside world answers during one submit. `upload` stands for
      writing the bytes under a key to the blob store and asking for their
      download URL (`None`: one of the two calls threw); `add` stands for the
      store accepting a new document (`false`: the call threw); the two stamps
      are the clock's ISO-8601 readings when each upload starts. */
  datatype Env = Env(
    upload: (Key, Bytes) -> Option<Url>,
    add: Record -> bool,
    audioStamp: string,
    imageStamp: string)

  datatype Stage = TextStage | VoiceStage | ImageStage
  datatype Cause = UploadFailed | AddFailed

  /** How a submit ends: every step done, or an exception out of one stage. */
  datatype Outcome = Sent | SendFailed(stage: Stage, cause: Cause)

  /** What one step did: the draft afterwards, the messages it added, the
      storage keys it wrote to, and the exception it raised, if any. */
  datatype Step = Step(draft: Draft, appended: seq<Record>, uploads: seq<Key>, failure: Option<Cause>)

  /** The result of a whole submit. */
  datatype Submission = Submission(draft: Draft, appended: seq<Record>, uploads: seq<Key>, outcome: Outcome)

  /** Sending the text: skipped when it trims to nothing; otherwise the
      untrimmed text is added, and the text box is cleared only once the add
      has succeeded. */
  function TextStep(d: Draft, user: User, env: Env): (s: Step)
    ensures s.uploads == [] && s.draft.blob == d.blob && s.draft.image == d.image
    ensures StepSends(s, TextKind, user) && (|s.appended| == 1 <==> s.failure.None? && !IsBlank(d.formValue))
    ensures s.failure.None? <==> IsBlank(d.formValue) || env.add(TextRecord(d.formValue, user))
    ensures |s.appended| == 1 ==> s.appended == [TextRecord(d.formValue, user)]
    ensures forall r :: r in s.appended ==> r.text == Some(d.formValue)
    ensures s.failure.Some? ==> s.failure == Some(AddFailed) && s.draft == d
    ensures s.failure.None? ==> s.draft.formValue == TextAfterSend(d.formValue)
  {
    if IsBlank(d.formValue) then Step(d, [], [], None)
    else
      var r := TextRecord(d.formValue, user);
      if env.add(r) then Step(d.(formValue := ""), [r], [], None)
      else Step(d, [], [], Some(AddFailed))
  }

  /** Uploading an attachment under the user's key and adding the message
      that refers to it; the draft field is not touched here. */
  function UploadStep(kind: Attachment, content: Bytes, stamp: string, user: User, env: Env): (s: Step)
    ensures s.uploads == [StorageKey(user.uid, stamp, kind)]
    ensures StepSends(s, if kind == Audio then VoiceKind else ImageKind, user)
    ensures |s.appended| == 1 <==> s.failure.None?
    ensures var url := env.upload(StorageKey(user.uid, stamp, kind), content);
      && (s.failure == Some(UploadFailed) <==> url.None?)
      && (s.failure.None? <==> url.Some? && env.add(AttachmentRecord(kind, url.value, user)))
      && (s.failure.None? ==> s.appended == [AttachmentRecord(kind, url.value, user)])
  {
    var key := StorageKey(user.uid, stamp, kind);
    match env.upload(key, content)
    case None => Step(Draft("", None, None), [], [key], Some(UploadFailed))
    case Some(url) =>
      var r := AttachmentRecord(kind, url, user);
      if env.add(r) then Step(Draft("", None, None), [r], [key], None)
      else Step(Draft("", None, None), [], [key], Some(AddFailed))
  }

  /** Sending the recording: the recording is dropped from the draft only once
      its message has been added. */
  function VoiceStep(d: Draft, user: User, env: Env): (s: Step)
    requires d.blob.Some?
    ensures s.uploads == [StorageKey(user.uid, env.audioStamp, Audio)]
    ensures StepSends(s, VoiceKind, user) && (|s.appended| == 1 <==> s.failure.None?)
    ensures s.draft == if s.failure.None? then d.(blob := None) else d
    ensures var url := env.upload(StorageKey(user.uid, env.audioStamp, Audio), d.blob.value);
      && (s.failure == Some(UploadFailed) <==> url.None?)
      && (s.failure.None? <==> url.Some? && env.add(AttachmentRecord(Audio, url.value, user)))
      && (s.failure.None? ==> s.appended == [AttachmentRecord(Audio, url.value, user)])
  {
    var u := UploadStep(Audio, d.blob.value, env.audioStamp, user, env);
    u.(draft := if u.failure.None? then d.(blob := None) else d)
  }

  /** Sending the image: the image is dropped from the draft only once its
      message has been added. */
  function ImageStep(d: Draft, user: User, env: Env): (s: Step)
    requires d.image.Some?
    ensures s.uploads == [StorageKey(user.uid, env.imageStamp, Image)]
    ensures StepSends(s, ImageKind, user) && (|s.appended| == 1 <==> s.failure.None?)
    ensures s.draft == if s.failure.None? then d.(image := None) else d
    ensures var url := env.upload(StorageKey(user.uid, env.imageStamp, Image), d.image.value);
      && (s.failure == Some(UploadFailed) <==> url.None?)
      && (s.failure.None? <==> url.Some? && env.add(AttachmentRecord(Image, url.value, user)))
      && (s.failure.None? ==> s.appended == [AttachmentRecord(Image, url.value, user)])
  {
    var u := UploadStep(Image, d.image.value, env.imageStamp, user, env);
    u.(draft := if u.failure.None? then d.(image := None) else d)
  }

  /** A step adds at most one message, of the given kind, by the user. */
  ghost predicate StepSends(s: Step, k: Kind, user: User) {
    |s.appended| <= 1 && forall r :: r in s.appended ==> HasOnePayload(r) && KindOf(r) == k && AuthoredBy(r, user)
  }

  /** The text the box holds after a text step that raised nothing: cleared if
      the text was sent, left alone if it was blank and therefore not sent. */
  function TextAfterSend(formValue: string): string {
    if IsBlank(formValue) then formValue else ""
  }

  /** A step that is not taken. */
  function Skip(d: Draft): Step {
    Step(d, [], [], None)
  }

  /** The whole submit: text, then recording, then image, each run only when
      its part of the draft is present, and the first exception ends it. */
  function Submit(d: Draft, user: User, env: Env): Submission {
    var t := TextStep(d, user, env);
    if t.failure.Some? then Submission(t.draft, t.appended, t.uploads, SendFailed(TextStage, t.failure.value))
    else
      var v := if d.blob.Some? then VoiceStep(t.draft, user, env) else Skip(t.draft);
      var appended, uploads := t.appended + v.appended, t.uploads + v.uploads;
      if v.failure.Some? then Submission(v.draft, appended, uploads, SendFailed(VoiceStage, v.failure.value))
      else
        var i := if d.image.Some? then ImageStep(v.draft, user, env) else Skip(v.draft);
        Submission(i.draft, appended + i.appended, uploads + i.uploads,
                   if i.failure.Some? then SendFailed(ImageStage, i.failure.value) else Sent)
  }

  /** Concatenation regroups; stated once so the submit method's proof
      does not search for it. */
  lemma AppendAssoc<T>(a: seq<T>, b: seq<T>, c: seq<T>)
    ensures (a + b) + c == a + (b + c)
  {
  }

  /** The voice step when a recording is pending, nothing otherwise. */
  function VoicePhase(d: Draft, present: bool, user: User, env: Env): Step
    requires present ==> d.blob.Some?
  {
    if present then VoiceStep(d, user, env) else Skip(d)
  }

  /** The image step when an image is pending, nothing otherwise. */
  function ImagePhase(d: Draft, present: bool, user: User, env: Env): Step
    requires present ==> d.image.Some?
  {
    if present then ImageStep(d, user, env) else Skip(d)
  }

  /** Submit, stage by stage. */
  lemma SubmitByStages(d: Draft, user: User, env: Env)
    ensures var t := TextStep(d, user, env);
      var v := VoicePhase(t.draft, d.blob.Some?, user, env);
      var i := ImagePhase(v.draft, d.image.Some?, user, env);
      Submit(d, user, env) ==
        if t.failure.Some? then Submission(t.draft, t.appended, t.uploads, SendFailed(TextStage, t.failure.value))
        else if v.failure.Some? then Submission(v.draft, t.appended + v.appended, t.uploads + v.uploads, SendFailed(VoiceStage, v.failure.value))
        else if i.failure.Some? then Submission(i.draft, t.appended + v.appended + i.appended, t.uploads + v.uploads + i.uploads, SendFailed(ImageStage, i.failure.value))
        else Submission(i.draft, t.appended + v.appended + i.appended, t.uploads + v.uploads + i.uploads, Sent)
  {
  }

  /** The chat room's draft state, together with the two external stores as
      seen from this client: the message collection and the storage keys
      written to, both only ever appended to. */
  class ChatRoom {
    const user: User
    var formValue: string
    var blob: Option<Bytes>
    var image: Option<Bytes>
    var messages: seq<Record>
    var uploads: seq<Key>

    function DraftOf(): Draft
      reads this
    {
      Draft(formValue, blob, image)
    }

    /** Entering the room with an empty draft. */
    constructor (user: User, existing: seq<Record>)
      ensures this.user == user && DraftOf() == Draft("", None, None)
      ensures messages == existing && uploads == []
    {
      this.user := user;
      formValue, blob, image := "", None, None;
      messages, uploads := existing, [];
    }

    /** Typing into the text box. */
    method SetFormValue(value: string)
      modifies this
      ensures DraftOf() == old(DraftOf()).(formValue := value)
      ensures messages == old(messages) && uploads == old(uploads)
    {
      formValue := value;
    }

    /** The recorder reporting a finished recording. */
    method OnRecordingComplete(recording: Bytes)
      modifies this
      ensures DraftOf() == old(DraftOf()).(blob := Some(recording))
      ensures messages == old(messages) && uploads == old(uploads)
    {
      blob := Some(recording);
    }

    /** Choosing a file, or cancelling the chooser (`None`). */
    method HandleImageChange(file: Option<Bytes>)
      modifies this
      ensures DraftOf() == old(DraftOf()).(image := file)
      ensures messages == old(messages) && uploads == old(uploads)
    {
      image := file;
    }

    method SendVoiceMessage(env: Env) returns (failure: Option<Cause>)
      requires blob.Some?
      modifies this
      ensures var s := VoiceStep(old(DraftOf()), user, env);
        DraftOf() == s.draft && failure == s.failure &&
        messages == old(messages) + s.appended && uploads == old(uploads) + s.uploads
    {
      var key := StorageKey(user.uid, env.audioStamp, Audio);
      uploads := uploads + [key];
      var url := env.upload(key, blob.value);
      if url.None? {
        return Some(UploadFailed);
      }
      var r := AttachmentRecord(Audio, url.value, user);
      if !env.add(r) {
        return Some(AddFailed);
      }
      messages := messages + [r];
      blob := None;
      failure := None;
    }

    method HandleImageUpload(env: Env) returns (failure: Option<Cause>)
      requires image.Some?
      modifies this
      ensures var s := ImageStep(old(DraftOf()), user, env);
        DraftOf() == s.draft && failure == s.failure &&
        messages == old(messages) + s.appended && uploads == old(uploads) + s.uploads
    {
      var key := StorageKey(user.uid, env.imageStamp, Image);
      uploads := uploads + [key];
      var url := env.upload(key, image.value);
      if url.None? {
        return Some(UploadFailed);
      }
      var r := AttachmentRecord(Image, url.value, user);
      if !env.add(r) {
        return Some(AddFailed);
      }
      messages := messages + [r];
      image := None;
      failure := None;
    }

    /** Submitting the form. */
    method SendMessage(env: Env) returns (outcome: Outcome)
      modifies this
      ensures var s := Submit(old(DraftOf()), user, env);
        DraftOf() == s.draft && outcome == s.outcome &&
        messages == old(messages) + s.appended && uploads == old(uploads) + s.uploads
    {
      ghost var d, m, u := DraftOf(), messages, uploads;
      ghost var t := TextStep(d, user, env);
      ghost var v := VoicePhase(t.draft, d.blob.Some?, user, env);
      ghost var i := ImagePhase(v.draft, d.image.Some?, user, env);
      SubmitByStages(d, user, env);
      var sendVoice, sendImage := blob.Some?, image.Some?;
      if Trim(formValue) != "" {
        var r := TextRecord(formValue, user);
        if !env.add(r) {
          return SendFailed(TextStage, AddFailed);
        }
        messages := messages + [r];
        formValue := "";
      }
      assert DraftOf() == t.draft && messages == m + t.appended && uploads == u + t.uploads;
      AppendAssoc(m, t.appended, v.appended);
      AppendAssoc(u, t.uploads, v.uploads);
      if sendVoice {
        var failure := SendVoiceMessage(env);
        if failure.Some? {
          return SendFailed(VoiceStage, failure.value);
        }
      }
      assert DraftOf() == v.draft && messages == m + (t.appended + v.appended) && uploads == u + (t.uploads + v.uploads);
      AppendAssoc(m, t.appended + v.appended, i.appended);
      AppendAssoc(u, t.uploads + v.uploads, i.uploads);
      if sendImage {
        var failure := HandleImageUpload(env);
        if failure.Some? {
          return SendFailed(ImageStage, failure.value);
        }
      }
      outcome := Sent;
    }
  }

  // ---------------------------------------------------------------------
  // Properties of a submit
  // ---------------------------------------------------------------------

  /** The kind of message a stage sends. */
  function StageKind(stage: Stage): Kind {
    match stage
    case TextStage => TextKind
    case VoiceStage => VoiceKind
    case ImageStage => ImageKind
  }

  /** A draft whose text is blank and which has no attachment sends nothing and
      uploads nothing, and leaves the draft as it was. */
  lemma BlankDraftSendsNothing(d: Draft, user: User, env: Env)
    requires IsBlank(d.formValue) && d.blob.None? && d.image.None?
    ensures Submit(d, user, env) == Submission(d, [], [], Sent)
  {
  }

  /** Nothing is ever sent or uploaded unless the Send button was enabled. */
  lemma SubmitActsOnlyWhenEnabled(d: Draft, user: User, env: Env)
    ensures var s := Submit(d, user, env);
      (s.appended != [] || s.uploads != []) ==> SendEnabled(d)
  {
    if !SendEnabled(d) {
      assert IsBlank(d.formValue);
      BlankDraftSendsNothing(d, user, env);
    }
  }

  /** The button condition is weaker than what the submit checks: a text of
      whitespace alone, with no attachment, enables Send, yet submitting it
      sends nothing and leaves the text in the box. */
  lemma WhitespaceEnablesSendYetSendsNothing(d: Draft, user: User, env: Env)
    requires d.formValue != "" && IsBlank(d.formValue) && d.blob.None? && d.image.None?
    ensures SendEnabled(d) && Submit(d, user, env) == Submission(d, [], [], Sent)
  {
    BlankDraftSendsNothing(d, user, env);
  }

  /** Such texts exist: a space, a tab and a newline trim to nothing. */
  lemma WhitespaceIsBlank()
    ensures IsBlank(" \t\n") && SendEnabled(Draft(" \t\n", None, None))
  {
    BlankIffAllTrimmable(" \t\n");
  }

  /** Every message a submit adds holds exactly one payload and the author's
      uid, avatar and server-timestamp sentinel; a text message holds the text
      exactly as typed; and the messages come in the fixed order text, voice,
      image, so there are at most three. */
  lemma SubmitAppendsInFixedOrder(d: Draft, user: User, env: Env)
    ensures var a := Submit(d, user, env).appended;
      && |a| <= 3
      && (forall i :: 0 <= i < |a| ==> HasOnePayload(a[i]) && AuthoredBy(a[i], user))
      && (forall i :: 0 <= i < |a| && a[i].text.Some? ==> a[i].text == Some(d.formValue))
      && (forall i, j :: 0 <= i < j < |a| ==> Rank(KindOf(a[i])) < Rank(KindOf(a[j])))
  {
    var t := TextStep(d, user, env);
    if t.failure.None? {
      var v := if d.blob.Some? then VoiceStep(t.draft, user, env) else Skip(t.draft);
      var i := if v.failure.None? && d.image.Some? then ImageStep(v.draft, user, env) else Skip(v.draft);
      assert Submit(d, user, env).appended == t.appended + v.appended + i.appended;
      OrderedConcat(t.appended, v.appended, i.appended, user);
    }
  }

  /** Three steps' messages, each of its own kind, in rank order. */
  lemma OrderedConcat(a: seq<Record>, b: seq<Record>, c: seq<Record>, user: User)
    requires |a| <= 1 && forall r :: r in a ==> HasOnePayload(r) && KindOf(r) == TextKind && AuthoredBy(r, user)
    requires |b| <= 1 && forall r :: r in b ==> HasOnePayload(r) && KindOf(r) == VoiceKind && AuthoredBy(r, user)
    requires |c| <= 1 && forall r :: r in c ==> HasOnePayload(r) && KindOf(r) == ImageKind && AuthoredBy(r, user)
    ensures var s := a + b + c;
      && |s| <= 3
      && (forall i :: 0 <= i < |s| ==> HasOnePayload(s[i]) && AuthoredBy(s[i], user))
      && (forall i, j :: 0 <= i < j < |s| ==> Rank(KindOf(s[i])) < Rank(KindOf(s[j])))
  {
    var s := a + b + c;
    forall i | 0 <= i < |s| ensures s[i] in a || s[i] in b || s[i] in c {
      if i < |a| {
        assert s[i] == a[i];
      } else if i < |a| + |b| {
        assert s[i] == b[i - |a|];
      } else {
        assert s[i] == c[i - |a| - |b|];
      }
    }
  }

  /** A message of a kind is added only when its part of the draft is present:
      non-blank text, a recording, an image. */
  lemma SubmitSendsOnlyPresentParts(d: Draft, user: User, env: Env)
    ensures var a := Submit(d, user, env).appended;
      forall r :: r in a ==>
        && HasOnePayload(r)
        && (KindOf(r) == TextKind ==> !IsBlank(d.formValue))
        && (KindOf(r) == VoiceKind ==> d.blob.Some?)
        && (KindOf(r) == ImageKind ==> d.image.Some?)
  {
    var t := TextStep(d, user, env);
    if t.failure.None? {
      var v := if d.blob.Some? then VoiceStep(t.draft, user, env) else Skip(t.draft);
      var i := if v.failure.None? && d.image.Some? then ImageStep(v.draft, user, env) else Skip(v.draft);
      assert Submit(d, user, env).appended == t.appended + v.appended + i.appended;
    }
  }

  /** A draft with text, a recording and an image, under an environment in
      which every call succeeds, yields exactly three messages in the order
      text, voice, image, two uploads, and an empty draft. */
  lemma FullDraftSendsThree(d: Draft, user: User, env: Env)
    requires !IsBlank(d.formValue) && d.blob.Some? && d.image.Some?
    requires env.upload(StorageKey(user.uid, env.audioStamp, Audio), d.blob.value).Some?
    requires env.upload(StorageKey(user.uid, env.imageStamp, Image), d.image.value).Some?
    requires forall r :: env.add(r)
    ensures var audioURL := env.upload(StorageKey(user.uid, env.audioStamp, Audio), d.blob.value).value;
      var imageURL := env.upload(StorageKey(user.uid, env.imageStamp, Image), d.image.value).value;
      Submit(d, user, env) == Submission(
        Draft("", None, None),
        [TextRecord(d.formValue, user), AttachmentRecord(Audio, audioURL, user), AttachmentRecord(Image, imageURL, user)],
        [StorageKey(user.uid, env.audioStamp, Audio), StorageKey(user.uid, env.imageStamp, Image)],
        Sent)
  {
  }

  /** After a submit that raised nothing, the recording and the image are gone
      and the text box is empty, unless its text was blank, in which case it
      keeps that text; there is one message per part that was present. */
  lemma SentClearsDraft(d: Draft, user: User, env: Env)
    requires Submit(d, user, env).outcome == Sent
    ensures var s := Submit(d, user, env);
      && s.draft == Draft(TextAfterSend(d.formValue), None, None)
      && |s.appended| == (if IsBlank(d.formValue) then 0 else 1)
                         + (if d.blob.Some? then 1 else 0) + (if d.image.Some? then 1 else 0)
  {
  }

  /** A failure in one stage keeps that stage's part of the draft and every
      later part, and no message of that stage or a later one is added; the
      parts of the earlier stages have been sent and cleared. */
  lemma FailureKeepsPendingParts(d: Draft, user: User, env: Env)
    requires Submit(d, user, env).outcome.SendFailed?
    ensures var s := Submit(d, user, env);
      var textSent := !IsBlank(d.formValue) && s.outcome.stage != TextStage;
      && (forall r :: r in s.appended ==>
            HasOnePayload(r) && Rank(KindOf(r)) < Rank(StageKind(s.outcome.stage)))
      && |s.appended| == (if textSent then 1 else 0) + (if s.outcome.stage == ImageStage && d.blob.Some? then 1 else 0)
      && (textSent ==> s.appended[0] == TextRecord(d.formValue, user))
      && (s.outcome.stage == TextStage ==> s.draft == d && s.outcome.cause == AddFailed)
      && (s.outcome.stage == VoiceStage ==> s.draft == d.(formValue := TextAfterSend(d.formValue)) && d.blob.Some?)
      && (s.outcome.stage == ImageStage ==> s.draft == Draft(TextAfterSend(d.formValue), None, d.image) && d.image.Some?)
  {
    var t := TextStep(d, user, env);
    if t.failure.None? {
      var v := if d.blob.Some? then VoiceStep(t.draft, user, env) else Skip(t.draft);
      var i := if v.failure.None? && d.image.Some? then ImageStep(v.draft, user, env) else Skip(v.draft);
      assert Submit(d, user, env).appended == t.appended + v.appended + i.appended;
    }
  }

  /** The audio upload throws after the text was sent: the text message
      already added stays, the text box is already empty, the recording is
      kept and no image message is added. */
  lemma AudioUploadFailure(d: Draft, user: User, env: Env)
    requires d.blob.Some?
    requires !IsBlank(d.formValue) ==> env.add(TextRecord(d.formValue, user))
    requires env.upload(StorageKey(user.uid, env.audioStamp, Audio), d.blob.value).None?
    ensures var s := Submit(d, user, env);
      && s.outcome == SendFailed(VoiceStage, UploadFailed)
      && s.appended == (if IsBlank(d.formValue) then [] else [TextRecord(d.formValue, user)])
      && s.draft == Draft(TextAfterSend(d.formValue), d.blob, d.image)
      && s.uploads == [StorageKey(user.uid, env.audioStamp, Audio)]
  {
  }

  /** Trying again after a failure never sends a part twice: the failing stage
      splits the kinds, the first attempt having added only messages of the
      earlier stages and the retry, whatever it meets, adding only messages of
      the failing stage or later ones. */
  lemma RetryDoesNotResend(d: Draft, user: User, env: Env, retry: Env)
    requires Submit(d, user, env).outcome.SendFailed?
    ensures var first := Submit(d, user, env);
      var second := Submit(first.draft, user, retry);
      var rank := Rank(StageKind(first.outcome.stage));
      && (forall r :: r in first.appended ==> HasOnePayload(r) && Rank(KindOf(r)) < rank)
      && (forall r :: r in second.appended ==> HasOnePayload(r) && Rank(KindOf(r)) >= rank)
  {
    var first := Submit(d, user, env);
    FailureKeepsPendingParts(d, user, env);
    SubmitSendsOnlyPresentParts(first.draft, user, retry);
    assert IsBlank("");
  }

  /** Every storage write goes under the submitting user's own uid, with the
      extension of what it holds: the audio key only when a recording is
      pending and before the image key, the image key only when an image is
      pending; reading a key back gives the user's uid. */
  lemma UploadsScopedToUser(d: Draft, user: User, env: Env)
    requires '/' !in user.uid
    ensures var ks := Submit(d, user, env).uploads;
      var audioKey, imageKey := StorageKey(user.uid, env.audioStamp, Audio), StorageKey(user.uid, env.imageStamp, Image);
      && (ks == [] || ks == [audioKey] || ks == [imageKey] || ks == [audioKey, imageKey])
      && (audioKey in ks ==> d.blob.Some?)
      && (imageKey in ks ==> d.image.Some?)
      && (forall k :: k in ks ==> ParseStorageKey(k).Some? && ParseStorageKey(k).value.uid == user.uid)
  {
    var audioKey, imageKey := StorageKey(user.uid, env.audioStamp, Audio), StorageKey(user.uid, env.imageStamp, Image);
    ParseStorageKeyRoundTrip(user.uid, env.audioStamp, Audio);
    ParseStorageKeyRoundTrip(user.uid, env.imageStamp, Image);
    assert audioKey != imageKey by {
      if audioKey == imageKey {
        StorageKeyInjective(user.uid, env.audioStamp, Audio, user.uid, env.imageStamp, Image);
      }
    }
    var t := TextStep(d, user, env);
    if t.failure.None? {
      var v := if d.blob.Some? then VoiceStep(t.draft, user, env) else Skip(t.draft);
      var i := if v.failure.None? && d.image.Some? then ImageStep(v.draft, user, env) else Skip(v.draft);
      assert Submit(d, user, env).uploads == v.uploads + i.uploads;
    }
  }
}
