/**
 * The review session (`VideoReview`): one current clip position over the
 * clip buttons, the single highlighted button, the debounced rescale
 * timer, and the requests the session makes of its collaborators (video
 * frame decoding, audio playback, file copy), kept as logs.
 */
module Review {
  import opened Wrappers
  import opened ClipNames
  import opened Navigation

  /** Handle of a pending Tk `after` callback. */
  type Token = nat

  /** Why building the clip buttons fails. */
  datatype InitError =
    | BadClipName(name: string)  // `int(...)` raises ValueError
    | NoClips                    // `self.buttons[0]` raises IndexError

  /** `last_clip + 1` raises TypeError before the first frame is loaded. */
  datatype SessionError = NoClipLoaded

  /**
   * Reads the clip number of every listed clip file, in listing order, one
   * button each; fails on the first name that is not a number and when
   * there are no clips at all.
   */
  method ListClips(names: seq<string>) returns (r: Result<seq<nat>, InitError>)
    ensures r.Ok? <==> names != [] && forall i :: 0 <= i < |names| ==> ClipNumber(names[i]).Some?
    ensures r.Ok? ==> |r.value| == |names| &&
                      forall i :: 0 <= i < |names| ==> ClipNumber(names[i]) == Some(r.value[i])
    ensures r == Err(NoClips) <==> names == []
    ensures r.Err? && names != [] ==>
              exists k :: 0 <= k < |names| && r.error == BadClipName(names[k]) &&
                          ClipNumber(names[k]).None? &&
                          forall j :: 0 <= j < k ==> ClipNumber(names[j]).Some?
  {
    var clips: seq<nat> := [];
    var i := 0;
    while i < |names|
      invariant 0 <= i <= |names| && |clips| == i
      invariant forall j :: 0 <= j < i ==> ClipNumber(names[j]) == Some(clips[j])
    {
      var c := ClipNumber(names[i]);
      if c.None? {
        return Err(BadClipName(names[i]));
      }
      clips := clips + [c.value];
      i := i + 1;
    }
    if clips == [] {
      return Err(NoClips);
    }
    return Ok(clips);
  }

  /**
   * The session's construction: one button per listed clip file, nothing
   * loaded; fails as `ListClips` does.
   */
  method Open(names: seq<string>, clipDir: string, video: string, formatTime: nat -> string)
    returns (r: Result<VideoReview, InitError>)
    ensures r.Ok? <==> names != [] && forall i :: 0 <= i < |names| ==> ClipNumber(names[i]).Some?
    ensures r.Err? ==> (r.error == NoClips <==> names == [])
    ensures r.Ok? ==>
              var v := r.value;
              fresh(v) && fresh(v.highlighted) && v.Valid() &&
              |v.clips| == |names| &&
              (forall i :: 0 <= i < |names| ==> ClipNumber(names[i]) == Some(v.clips[i])) &&
              v.clipDir == clipDir && v.video == video && v.formatTime == formatTime &&
              v.lastClip == None && v.Highlighted() == {} && v.resizeDelay == None &&
              v.pending == {} && v.frameRequests == [] && v.renders == [] &&
              v.played == [] && v.copies == [] && v.status == ""
  {
    var clips := ListClips(names);
    if clips.Err? {
      return Err(clips.error);
    }
    var v := new VideoReview(clips.value, clipDir, video, formatTime);
    return Ok(v);
  }

  class VideoReview {
    /** The clip number each button loads, in button order. */
    const clips: seq<nat>
    /** `len(self.buttons)`. */
    const n: nat
    /** Directory holding the clip files. */
    const clipDir: string
    /** Name of the video under review. */
    const video: string
    /** Elapsed-time text for a position (`format_time`). */
    const formatTime: nat -> string
    /** Which buttons show the selection colour. */
    const highlighted: array<bool>

    /** `last_clip`: 0-based index of the loaded clip, None before the first load. */
    var lastClip: Option<nat>
    /** `resize_delay`: the token of the last scheduled rescale. */
    var resizeDelay: Option<Token>
    /** Rescale callbacks scheduled and not yet fired or cancelled. */
    var pending: set<Token>
    /** Tokens handed out so far; the next one is `issued`. */
    var issued: nat
    /** Times, in seconds, at which video frames were requested. */
    var frameRequests: seq<nat>
    /** Positions whose frame was scaled and shown. */
    var renders: seq<nat>
    /** Audio files handed to the player. */
    var played: seq<string>
    /** (source, destination) pairs handed to the file copy. */
    var copies: seq<(string, string)>
    /** The status bar text. */
    var status: string

    ghost predicate Valid()
      reads this, highlighted
    {
      n == |clips| && n >= 1 && highlighted.Length == n &&
      (match lastClip
       case None =>
         (forall i :: 0 <= i < n ==> !highlighted[i]) &&
         resizeDelay == None && pending == {}
       case Some(c) =>
         c < n && forall i :: 0 <= i < n ==> highlighted[i] == (i == c)) &&
      (match resizeDelay
       case None => pending == {}
       case Some(t) => t < issued && pending <= {t})
    }

    /** The indices of the highlighted buttons. */
    ghost function Highlighted(): set<nat>
      reads this, highlighted
    {
      set i: nat | i < highlighted.Length && highlighted[i]
    }

    /** No button is highlighted before the first load, exactly one after it. */
    lemma HighlightIsSelection()
      requires Valid()
      ensures lastClip.None? ==> Highlighted() == {}
      ensures lastClip.Some? ==> Highlighted() == {lastClip.value}
    {
    }

    /** At most one rescale is pending, and it is the latest one scheduled. */
    lemma AtMostOnePending()
      requires Valid()
      ensures |pending| <= 1
      ensures forall t :: t in pending ==> resizeDelay == Some(t)
    {
      if resizeDelay.Some? {
        assert pending <= {resizeDelay.value};
        if pending != {} {
          assert pending == {resizeDelay.value};
        }
      }
    }

    /** Builds the session over the listed clips; nothing is loaded yet. */
    constructor (clips: seq<nat>, clipDir: string, video: string, formatTime: nat -> string)
      requires clips != []
      ensures Valid() && fresh(highlighted)
      ensures this.clips == clips && this.clipDir == clipDir && this.video == video
      ensures this.formatTime == formatTime
      ensures lastClip == None && Highlighted() == {}
      ensures resizeDelay == None && pending == {} && issued == 0
      ensures frameRequests == [] && renders == [] && played == [] && copies == []
      ensures status == ""
    {
      this.clips := clips;
      n := |clips|;
      this.clipDir := clipDir;
      this.video := video;
      this.formatTime := formatTime;
      highlighted := new bool[|clips|](_ => false);
      lastClip := None;
      resizeDelay := None;
      pending := {};
      issued := 0;
      frameRequests := [];
      renders := [];
      played := [];
      copies := [];
      status := "";
    }

    /** Tk `after`: schedules a callback and returns its fresh token. */
    method Schedule() returns (t: Token)
      modifies this`pending, this`issued
      ensures t == old(issued) && issued == t + 1
      ensures pending == old(pending) + {t}
    {
      t := issued;
      issued := issued + 1;
      pending := pending + {t};
    }

    /** Tk `after_cancel`: drops a callback; a token that already fired is ignored. */
    method Cancel(t: Token)
      modifies this`pending
      ensures pending == old(pending) - {t}
    {
      pending := pending - {t};
    }

    /**
     * `play_frame`: plays the clip file of the loaded position; before the
     * first load there is no position and nothing is played.
     */
    method PlayFrame() returns (r: Result<string, SessionError>)
      requires Valid()
      modifies this`played
      ensures lastClip.None? ==> r == Err(NoClipLoaded) && played == old(played)
      ensures lastClip.Some? ==>
                r == Ok(ClipPath(clipDir, lastClip.value + 1)) &&
                played == old(played) + [r.value]
    {
      if lastClip.None? {
        return Err(NoClipLoaded);
      }
      var wav := ClipPath(clipDir, lastClip.value + 1);
      played := played + [wav];
      return Ok(wav);
    }

    /**
     * `load_frame`: moves the highlight to button p - 1, makes p the
     * position, asks for the video frame at p seconds, shows it, plays the
     * clip and reports it in the status bar.
     */
    method LoadFrame(p: nat)
      requires Valid() && 1 <= p <= n
      modifies this, highlighted
      ensures Valid()
      ensures lastClip == Some(p - 1)
      ensures forall i :: 0 <= i < n ==> highlighted[i] == (i == p - 1)
      ensures frameRequests == old(frameRequests) + [p]
      ensures renders == old(renders) + [p]
      ensures played == old(played) + [ClipPath(clipDir, p)]
      ensures status == LoadedNotice(p, formatTime(p), video)
      ensures resizeDelay == old(resizeDelay) && pending == old(pending) && issued == old(issued)
      ensures copies == old(copies)
    {
      Select(p);
      frameRequests := frameRequests + [p];
      renders := renders + [p];
      var _ := PlayFrame();
      status := LoadedNotice(p, formatTime(p), video);
    }

    /** The selection part of `load_frame`: un-highlight the old button, highlight button p - 1. */
    method Select(p: nat)
      requires Valid() && 1 <= p <= n
      modifies highlighted, this`lastClip
      ensures Valid()
      ensures lastClip == Some(p - 1) && Highlighted() == {p - 1}
      ensures forall i :: 0 <= i < n ==> highlighted[i] == (i == p - 1)
    {
      if lastClip.Some? {
        highlighted[lastClip.value] := false;
      }
      highlighted[p - 1] := true;
      lastClip := Some(p - 1);
      HighlightIsSelection();
    }

    /**
     * `navigate`: before the first load nothing happens; otherwise the key
     * moves the position (loading the frame when `Target` names one) and
     * the scroll bar goes to `last_clip / len(buttons)`.
     */
    method Navigate(keysym: string) returns (scroll: Option<real>)
      requires Valid()
      modifies this, highlighted
      ensures Valid()
      ensures old(lastClip).None? ==>
                scroll == None && lastClip == None &&
                frameRequests == old(frameRequests) && renders == old(renders) &&
                played == old(played) && status == old(status) &&
                highlighted[..] == old(highlighted[..])
      ensures old(lastClip).Some? ==>
                var p := old(lastClip).value + 1;
                var q := Move(p, KeyOf(keysym), n);
                lastClip == Some(q - 1) && Highlighted() == {q - 1} &&
                scroll == Some(ScrollFraction(q, n)) &&
                (Target(p, KeyOf(keysym), n).Some? ==>
                   frameRequests == old(frameRequests) + [q] &&
                   renders == old(renders) + [q] &&
                   played == old(played) + [ClipPath(clipDir, q)] &&
                   status == LoadedNotice(q, formatTime(q), video)) &&
                (Target(p, KeyOf(keysym), n).None? ==>
                   frameRequests == old(frameRequests) && renders == old(renders) &&
                   played == old(played) && status == old(status) &&
                   highlighted[..] == old(highlighted[..]))
      ensures resizeDelay == old(resizeDelay) && pending == old(pending) && issued == old(issued)
      ensures copies == old(copies)
    {
      if lastClip.None? {
        return None;
      }
      var p := lastClip.value + 1;
      var key := KeyOf(keysym);
      var t := Target(p, key, n);
      if t.Some? {
        LoadFrame(t.value);
      }
      HighlightIsSelection();
      scroll := Some(ScrollFraction(lastClip.value + 1, n));
    }

    /**
     * `resize`: before the first load nothing happens; otherwise the
     * pending rescale, if any, is cancelled and a new one is scheduled.
     */
    method Resize()
      requires Valid()
      modifies this
      ensures Valid()
      ensures old(lastClip).None? ==>
                resizeDelay == old(resizeDelay) && pending == old(pending) && issued == old(issued)
      ensures old(lastClip).Some? ==>
                issued == old(issued) + 1 &&
                resizeDelay == Some(old(issued)) && pending == {old(issued)} &&
                pending !! old(pending)
      ensures lastClip == old(lastClip) && frameRequests == old(frameRequests)
      ensures renders == old(renders) && played == old(played) && copies == old(copies)
      ensures status == old(status)
    {
      if lastClip.None? {
        return;
      }
      if resizeDelay.Some? {
        Cancel(resizeDelay.value);
      }
      var t := Schedule();
      resizeDelay := Some(t);
    }

    /**
     * Tk runs the callback of token t: only a rescale still pending runs,
     * and it re-renders the loaded frame without decoding it again.
     */
    method Fire(t: Token) returns (fired: bool)
      requires Valid()
      modifies this`pending, this`renders
      ensures Valid()
      ensures fired <==> t in old(pending)
      ensures fired ==> resizeDelay == Some(t) && lastClip.Some?
      ensures pending == old(pending) - {t}
      ensures renders == if fired then old(renders) + [lastClip.value + 1] else old(renders)
    {
      fired := t in pending;
      if fired {
        AtMostOnePending();
        renders := renders + [lastClip.value + 1];
      }
      pending := pending - {t};
    }

    /**
     * A click on button k: `load_frame` with the clip number read from the
     * button's file name.
     */
    method Click(k: nat)
      requires Valid() && k < n && 1 <= clips[k] <= n
      modifies this, highlighted
      ensures Valid()
      ensures lastClip == Some(clips[k] - 1)
      ensures forall i :: 0 <= i < n ==> highlighted[i] == (i == clips[k] - 1)
      ensures frameRequests == old(frameRequests) + [clips[k]]
      ensures renders == old(renders) + [clips[k]]
      ensures played == old(played) + [ClipPath(clipDir, clips[k])]
      ensures status == LoadedNotice(clips[k], formatTime(clips[k]), video)
      ensures resizeDelay == old(resizeDelay) && pending == old(pending) && issued == old(issued)
      ensures copies == old(copies)
    {
      LoadFrame(clips[k]);
    }

    /**
     * `tag_as`: copies the loaded clip into the model's training bucket as
     * `{video}:F{p}.wav` and reports it; the position does not change.
     */
    method TagAs(model: string, workspace: string) returns (r: Result<(string, string), SessionError>)
      requires Valid()
      modifies this`copies, this`status
      ensures Valid()
      ensures lastClip.None? ==>
                r == Err(NoClipLoaded) && copies == old(copies) && status == old(status)
      ensures lastClip.Some? ==>
                var p := lastClip.value + 1;
                r == Ok((ClipPath(clipDir, p), TagPath(workspace, model, video, p))) &&
                copies == old(copies) + [r.value] &&
                status == SavedNotice(p, video, model)
    {
      if lastClip.None? {
        return Err(NoClipLoaded);
      }
      var p := lastClip.value + 1;
      var src := ClipPath(clipDir, p);
      var dst := TagPath(workspace, model, video, p);
      copies := copies + [(src, dst)];
      status := SavedNotice(p, video, model);
      return Ok((src, dst));
    }
  }

  /**
   * A burst of k resize notifications followed by Tk running every
   * callback they scheduled: exactly one rescale runs, the one scheduled
   * by the last notification.
   */
  method ResizeBurst(v: VideoReview, k: nat) returns (tokens: seq<Token>, fired: seq<Token>)
    requires v.Valid() && v.lastClip.Some? && k >= 1
    modifies v
    ensures v.Valid()
    ensures |tokens| == k && fired == [tokens[k - 1]]
    ensures v.resizeDelay == Some(tokens[k - 1]) && v.pending == {}
  {
    tokens := [];
    var i := 0;
    while i < k
      invariant v.Valid() && v.lastClip.Some?
      invariant 0 <= i <= k && |tokens| == i
      invariant i > 0 ==> v.resizeDelay == Some(tokens[i - 1]) && v.pending == {tokens[i - 1]}
      invariant forall j :: 0 <= j < i ==> tokens[j] < v.issued
      invariant forall j :: 0 <= j < i - 1 ==> tokens[j] < tokens[i - 1]
    {
      v.Resize();
      tokens := tokens + [v.resizeDelay.value];
      i := i + 1;
    }
    fired := [];
    i := 0;
    while i < k
      invariant v.Valid()
      invariant 0 <= i <= k
      invariant v.resizeDelay == Some(tokens[k - 1])
      invariant v.pending == if i < k then {tokens[k - 1]} else {}
      invariant fired == if i == k then [tokens[k - 1]] else []
    {
      var f := v.Fire(tokens[i]);
      if f {
        fired := fired + [tokens[i]];
      }
      i := i + 1;
    }
  }

  /** With 120 clips and clip 1 loaded, End, Left and Page Up land on clip 59. */
  method KeyWalkthrough(v: VideoReview)
    requires v.Valid() && v.n == 120 && v.lastClip == Some(0)
    modifies v, v.highlighted
    ensures v.Valid() && v.lastClip == Some(58)
  {
    assert KeyOf("End") == End && KeyOf("Left") == Left && KeyOf("Prior") == Prior;
    var _ := v.Navigate("End");
    assert v.lastClip == Some(119);
    var _ := v.Navigate("Left");
    assert v.lastClip == Some(118);
    var _ := v.Navigate("Prior");
  }

  /**
   * A session over the clip files 0001.wav to 0120.wav: the first frame
   * loads, then End, Left and Page Up land on clip 59, which is tagged
   * as "cat".
   */
  method SessionWalkthrough() returns (position: nat, dst: string)
    ensures position == 59
    ensures dst == "/ws/train/cat/vid1.mp4:F59.wav"
  {
    var names := seq(120, i requires 0 <= i => WavName(i + 1));
    forall i | 0 <= i < |names| ensures ClipNumber(names[i]) == Some(i + 1) {
      ClipNameRoundTrip(i + 1);
    }
    var session := Open(names, "/tmp/clips", "vid1.mp4", _ => "");
    var v := session.value;
    v.LoadFrame(1);
    KeyWalkthrough(v);
    var r := v.TagAs("cat", "/ws");
    position := v.lastClip.value + 1;
    dst := r.value.1;
    TagPathExample();
  }
}
