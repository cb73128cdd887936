# Review session model

A Dafny model of the clip review session of the `apr` labelling tool
(`VideoReview` in `apr/inspect/review.py`). The tool splits a video's audio
into one-second clips named `0001.wav`, `0002.wav`, …; the reviewer steps
through them with the arrow, Page Up/Down, Home and End keys, each step
showing the video frame at that second, highlighting the clip's button and
playing the clip; a "Tag as {model}" button copies the current clip into
`{workspace}/train/{model}/{video}:F{p}.wav`.

The model has four modules:

- `Wrappers` — `Option` and `Result`.
- `ClipNames` — the pure string logic: `str(n)` (`Decimal`), `f'{p:04d}'`
  (`Pad4`), the clip file name and its parse back with
  `int(name.split('.')[0])` (`ClipNumber`), the clip path, the tag
  destination and a reader (`ParseTagFileName`) that splits a tagged copy's
  name back into the video name and the position.
- `Navigation` — the pure case analysis of `navigate`: `Target` is the
  position handed to `load_frame` (or none), `Move` the resulting position;
  `Clamped` is an independent reference rule (clamp the step or page into
  `[1, n]`), and `Replay` applies a sequence of key presses.
- `Review` — the stateful session: class `VideoReview` with `lastClip`
  (`last_clip`), the button highlight as an `array<bool>`, `resizeDelay`
  and the set of pending Tk `after` tokens, and append-only logs of the
  requests made to the collaborators (frame decode times, rendered
  positions, played files, copies). `ListClips` is the constructor's loop
  that turns the listed clip file names into buttons, and `Open` is the
  construction as a whole; `Click` is a button's command.

Collaborators are not modelled, only the requests made of them:
`video.get_frame(t)` appends `t` to `frameRequests`, `resize_clip` appends
the shown position to `renders`, `apr.common.play_audio` appends the path to
`played`, `apr.common.save_as` appends the (source, destination) pair to
`copies`. `apr.common.format_time` is the `formatTime` function given to
the constructor; `apr.config.get('workspace')` is the `workspace` argument
of `TagAs`; the output of `apr.common.list_wav` is the argument of
`ListClips`.

Behaviour of the code that the model keeps, and that a reader might not expect:

- The scroll position is `last_clip / len(buttons)`, the 0-based index
  over the clip count, so it lies in `[0, 1)` (it is never 1, even on the last clip).
- `load_frame` moves the highlight and sets `last_clip` before it asks for
  the video frame, so a decoding failure would leave the position already
  advanced; the model has no decode failure (see below).
- Home and End always reload, even when already on the first or last clip;
  the other keys load nothing at a boundary.
- `play_frame` and `tag_as` before the first frame is loaded fail
  (`None + 1`); the model returns `Err(NoClipLoaded)` and changes nothing.

## Model

| member | source | states |
|---|---|---|
| `ClipNames.Decimal` | apr/inspect/review.py:235 | `str(p)` is a non-empty run of digits whose first digit is 0 only for p = 0 |
| `ClipNames.Pad4` | apr/inspect/review.py:229 | `f'{p:04d}'` is all digits, exactly 4 long unless p needs more digits |
| `ClipNames.ParseDecimal` | apr/inspect/review.py:53 | `int(s)` succeeds exactly on non-empty digit strings |
| `ClipNames.FirstField` | apr/inspect/review.py:53 | `name.split('.')[0]` is a dot-free prefix of the name that stops at the first dot |
| `ClipNames.WavName` | apr/inspect/review.py:219 | the clip file name `f'{p:04d}.wav'`; it reads back as p by `ClipNameRoundTrip` |
| `ClipNames.ClipNumber` | apr/inspect/review.py:53 | `int(name.split('.')[0])`, with the failure as None; `ClipNameRoundTrip` shows it inverts `WavName` |
| `ClipNames.ClipPath` | apr/inspect/review.py:217-219 | the played (and, at line 229, copied) clip file `{clipdir}/{p:04d}.wav`; `ClipPathRoundTrip` shows its last component reads back as p |
| `ClipNames.TagDir` | apr/inspect/review.py:232-234 | the bucket directory `{workspace}/train/{model}`; `TagPathRoundTrip` shows the destination lies in it |
| `ClipNames.TagFileName` | apr/inspect/review.py:235 | the tagged copy's name `{video}:F{p}.wav`; `TagFileNameRoundTrip` shows it reads back as (video, p) |
| `ClipNames.TagPath` | apr/inspect/review.py:232-235 | the tagged copy's destination; `TagPathRoundTrip` shows it is the bucket directory plus the tag name, which reads back as (video, p) |
| `ClipNames.SavedNotice` | apr/inspect/review.py:239 | the status text `Saved frame #{p} of {video} to train {model}`, set by `TagAs` |
| `ClipNames.LoadedNotice` | apr/inspect/review.py:184-188 | the status text `Loaded frame #{p}  (@ {stamp})  from  {video}`, set by `LoadFrame` and `Navigate` |
| `ClipNames.Pad4Value` | apr/inspect/review.py:229 | the zero padding does not change the value: `int(f'{p:04d}') == p` |
| `ClipNames.ClipNameRoundTrip` | apr/inspect/review.py:53 | the clip number read from `f'{p:04d}.wav'` is p |
| `ClipNames.ClipPathRoundTrip` | apr/inspect/review.py:217-219 | the played clip path ends in `{p:04d}.wav`, which reads back as p |
| `ClipNames.TagFileNameRoundTrip` | apr/inspect/review.py:235 | `{video}:F{p}.wav` reads back as (video, p), even when the video name contains ':' |
| `ClipNames.TagPathRoundTrip` | apr/inspect/review.py:232-235 | the destination is `{workspace}/train/{model}/` followed by the tag name, and its last component reads back as (video, p) |
| `ClipNames.TagFileNameExample` | apr/inspect/review.py:235 | clip 59 of vid1.mp4 is saved under the name `vid1.mp4:F59.wav` |
| `ClipNames.TagDirExample` | apr/inspect/review.py:232-234 | the cat bucket of workspace /ws is `/ws/train/cat` |
| `ClipNames.TagPathExample` | apr/inspect/review.py:232-235 | clip 59 of vid1.mp4 tagged as cat in /ws goes to `/ws/train/cat/vid1.mp4:F59.wav` |
| `Navigation.KeyOf` | apr/inspect/review.py:110-136 | only the six keysyms Left, Right, Prior, Next, Home, End are navigation keys |
| `Navigation.Target` | apr/inspect/review.py:109-136 | a loaded position stays in [1, n], and only Home and End ever reload the current position |
| `Navigation.Move` | apr/inspect/review.py:109-136 | from a position in [1, n] every key leaves the position in [1, n] |
| `Navigation.Clamped` | apr/inspect/review.py:110-136 | the reference rule for each key (clamp the step or page into [1, n]); `MoveIsClamped` shows `Move` agrees with it |
| `Navigation.ScrollFraction` | apr/inspect/review.py:139 | the value `last_clip / len(buttons)` passed to `scroll_to`; `ScrollFractionInRange` shows it lies in [0, 1) |
| `Navigation.Replay` | apr/inspect/review.py:96-136 | the position after a sequence of bound key presses; `ReplayInRange` shows it stays in [1, n] |
| `Navigation.MoveIsClamped` | apr/inspect/review.py:110-136 | every key agrees with the reference rule: steps and pages clamp into [1, n], Home gives 1, End gives n, other keys stay |
| `Navigation.StepRules` | apr/inspect/review.py:112-118 | Left loads p-1 exactly when p > 1 and Right loads p+1 exactly when p < n; at the boundary nothing changes |
| `Navigation.PriorRule` | apr/inspect/review.py:120-124 | Page Up gives p-60 above 60, 1 for 1 < p <= 60, and loads nothing exactly at p = 1 |
| `Navigation.NextRule` | apr/inspect/review.py:126-130 | Page Down gives p+60 below n-60, n for n-60 <= p < n, and loads nothing exactly at p = n |
| `Navigation.HomeEndRule` | apr/inspect/review.py:131-136 | Home always loads 1 and End always loads n |
| `Navigation.LoadsWhenMoving` | apr/inspect/review.py:110-136 | a frame is loaded exactly when the position changes or the key is Home or End |
| `Navigation.SingleClip` | apr/inspect/review.py:110-136 | with one clip every key leaves the position at 1 |
| `Navigation.StepRoundTrip` | apr/inspect/review.py:112-118 | Left then Right (Right then Left) returns to p away from the boundary |
| `Navigation.PageRoundTrip` | apr/inspect/review.py:120-130 | a full page back then forward (forward then back) returns to p |
| `Navigation.ReplayInRange` | apr/inspect/review.py:109-136 | any sequence of key presses keeps the position in [1, n] |
| `Navigation.ScrollFractionInRange` | apr/inspect/review.py:139 | the scroll fraction `last_clip / len(buttons)` after a key lies in [0, 1) |
| `Navigation.PagingReachesEnd` | apr/inspect/review.py:126-130 | ceil((n-p)/60) Page Down presses reach the last clip |
| `Navigation.PagingReachesStart` | apr/inspect/review.py:120-124 | ceil((p-1)/60) Page Up presses reach the first clip |
| `Navigation.Walkthrough` | apr/inspect/review.py:110-136 | with 120 clips, End, Left, Page Up from clip 1 end on clip 59 |
| `Review.ListClips` | apr/inspect/review.py:50-59 | one clip number per listed name in listing order; fails on the first name `int()` rejects, and on an empty listing |
| `Review.Open` | apr/inspect/review.py:50-59 | a session is built exactly when every listed name parses and there is at least one; its buttons carry the parsed clip numbers in order and nothing is loaded |
| `Review.VideoReview.constructor` | apr/inspect/review.py:22-59 | a new session has no loaded clip, no highlighted button and no pending rescale |
| `Review.VideoReview.HighlightIsSelection` | apr/inspect/review.py:168-173 | no button is highlighted before the first load; afterwards exactly button `last_clip` is |
| `Review.VideoReview.AtMostOnePending` | apr/inspect/review.py:157-162 | at most one rescale is pending, and it is the one in `resize_delay` |
| `Review.VideoReview.Schedule` | apr/inspect/review.py:162 | Tk `after` hands out a fresh token and adds it to the pending callbacks |
| `Review.VideoReview.Cancel` | apr/inspect/review.py:159 | Tk `after_cancel` removes the token from the pending callbacks |
| `Review.VideoReview.PlayFrame` | apr/inspect/review.py:213-220 | plays `{clipdir}/{p:04d}.wav` for p = `last_clip + 1`; fails before the first load |
| `Review.VideoReview.LoadFrame` | apr/inspect/review.py:164-188 | only button p-1 is highlighted, `last_clip` becomes p-1, the frame at exactly p seconds is requested and shown, clip p is played, the status names p |
| `Review.VideoReview.Select` | apr/inspect/review.py:168-173 | the previous button loses the highlight, button p-1 gains it, so exactly one button is highlighted, and `last_clip` becomes p-1 |
| `Review.VideoReview.Click` | apr/inspect/review.py:54-56 | clicking button k loads the clip number the button was made for: that button's clip becomes the only highlighted one and the position, and its frame and audio are requested |
| `Review.VideoReview.Navigate` | apr/inspect/review.py:103-139 | before the first load nothing changes (no scroll, no load, same status); otherwise the position becomes `Move`; when `Target` names a clip its frame is requested and shown, its audio played and the status names it, and when it names none the highlight, logs and status stay as they were; the scroll fraction is `last_clip / len(buttons)` of the new position (in [0, 1) by `ScrollFractionInRange`) |
| `Review.VideoReview.Resize` | apr/inspect/review.py:150-162 | nothing happens before the first load; otherwise every earlier pending rescale is cancelled and exactly one new one is pending |
| `Review.VideoReview.Fire` | apr/inspect/review.py:162 | only a pending rescale runs, it is the latest scheduled, and it re-renders the loaded position without decoding again |
| `Review.VideoReview.TagAs` | apr/inspect/review.py:222-241 | copies `{clipdir}/{p:04d}.wav` to `{workspace}/train/{model}/{video}:F{p}.wav` and reports it, leaving the position and highlight alone; fails before the first load |
| `Review.ResizeBurst` | apr/inspect/review.py:150-162 | after k resize notifications exactly one rescale runs, the one scheduled by the last notification |
| `Review.KeyWalkthrough` | apr/inspect/review.py:103-139 | on a loaded session of 120 clips at clip 1, End, Left, Page Up leave `last_clip` at 58 |
| `Review.SessionWalkthrough` | apr/inspect/review.py:103-139 | a session opened on `0001.wav` … `0120.wav`: load 1, End, Left, Page Up lands on clip 59 and tagging it as cat writes `/ws/train/cat/vid1.mp4:F59.wav` |

## Left out

- Widget construction, layout, the scroll bar and `scroll_to`'s `xview` calls (lines 34-101, 141-148): user-interface plumbing; `Navigate` returns the fraction that would be passed to `scroll_to`.
- `resize_clip`'s scale computation, the PIL resize and its swallowed `ValueError` (lines 190-211): floating-point image scaling in a foreign library; a rescale is recorded only as the position appended to `renders`.
- Video decoding (`VideoFileClip`, `get_frame`, `PIL.Image.fromarray`, lines 30-31, 176-177) and its failures: external media code; only the requested time is recorded.
- `apr.common.play_audio`, `save_as`, `list_wav`, `format_time` and `apr.config.get`: their bodies are not part of this model; they become logs, parameters and the `formatTime` function. File copying, directory creation and I/O failures are not modelled.
- `logging.info` in `tag_as`: logging only.
- Real time in Tk `after` / `after_cancel`: only the token bookkeeping is modelled, and `Fire` stands for Tk running a callback. The initial `self.after(100, self.load_frame, 1)` is the caller's first `LoadFrame(1)`.
- Review.VideoReview.Click: requires the button's clip number to lie in [1, n], which holds for the listing `0001.wav` … `{n:04d}.wav` (see `ClipNameRoundTrip`); listings with gaps, a clip 0 or numbers above n (which in Python index past the end or wrap to a negative index) are not modelled.
- Review.VideoReview.LoadFrame: requires 1 <= p <= n, which every call from `navigate` meets; other arguments raise `IndexError` or use Python's negative indexing and are not modelled.
- ClipNames.ParseDecimal: accepts only ASCII digit strings; Python's `int()` also accepts a sign, surrounding whitespace, underscores between digits and non-ASCII digits, which the model reports as failures.
- ClipNames.Pad4: defined on non-negative numbers only; the session never formats a negative position.
- ClipNames.JoinPath: plain `dir + "/" + name`; `pathlib`'s normalisation (dropping a trailing slash, an absolute component replacing the whole path) is not modelled.
- Navigation.ScrollFraction: an exact `real` where Python computes a float; for a 0-based index below n (and n below 2^53) the float quotient also lies in [0, 1), so the bound is the same.
- The `mm:ss` text of the status line: `LoadedNotice` takes it from `formatTime`.
- apr/__main__.py: configuration loading and module dispatch, no session logic.
