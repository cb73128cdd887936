/**
 * The names and paths the review session builds from a clip position:
 * the zero-padded clip file name `{p:04d}.wav`, its parse back with
 * `int(name.split('.')[0])`, and the training-copy destination
 * `{workspace}/train/{model}/{video}:F{p}.wav`.
 */
module ClipNames {
  import opened Wrappers

  predicate IsDigit(c: char) { '0' <= c <= '9' }

  predicate AllDigits(s: string) { forall i :: 0 <= i < |s| ==> IsDigit(s[i]) }

  function DigitChar(d: nat): (c: char)
    requires d < 10
    ensures IsDigit(c)
  {
    (48 + d) as char
  }

  function DigitValue(c: char): (d: nat)
    requires IsDigit(c)
    ensures d < 10 && DigitChar(d) == c
  {
    c as int - 48
  }

  /** `str(n)`: decimal digits, most significant first, no leading zero. */
  function Decimal(n: nat): (s: string)
    ensures |s| >= 1 && AllDigits(s)
    ensures s[0] == '0' <==> n == 0
    decreases n
  {
    if n < 10 then [DigitChar(n)] else Decimal(n / 10) + [DigitChar(n % 10)]
  }

  function Zeros(k: nat): (s: string)
    ensures |s| == k && forall i :: 0 <= i < k ==> s[i] == '0'
  {
    seq(k, _ => '0')
  }

  /** `f'{n:04d}'`: the decimal digits of n, left-padded with zeros to width 4. */
  function Pad4(n: nat): (s: string)
    ensures AllDigits(s)
    ensures |s| == if |Decimal(n)| < 4 then 4 else |Decimal(n)|
  {
    var d := Decimal(n);
    if |d| < 4 then Zeros(4 - |d|) + d else d
  }

  /** Value of a non-empty run of decimal digits, leading zeros allowed. */
  function DigitsValue(s: string): nat
    requires AllDigits(s)
  {
    if s == [] then 0 else DigitsValue(s[..|s| - 1]) * 10 + DigitValue(s[|s| - 1])
  }

  /**
   * Python's `int(s)` on a base-10 string: the value of s when s is a
   * non-empty run of ASCII digits, and a failure (`ValueError`) otherwise.
   */
  function ParseDecimal(s: string): (r: Option<nat>)
    ensures r.Some? <==> s != [] && AllDigits(s)
  {
    if s != [] && AllDigits(s) then Some(DigitsValue(s)) else None
  }

  /** `s.split('.')[0]`: everything before the first dot, or all of s. */
  function FirstField(s: string): (r: string)
    ensures r <= s && '.' !in r
    ensures |r| < |s| ==> s[|r|] == '.'
  {
    if s == [] || s[0] == '.' then [] else [s[0]] + FirstField(s[1..])
  }

  /** The clip file name for position p: `f'{p:04d}.wav'`. */
  function WavName(p: nat): string
  {
    Pad4(p) + ".wav"
  }

  /** The position a clip file name encodes: `int(name.split('.')[0])`. */
  function ClipNumber(name: string): Option<nat>
  {
    ParseDecimal(FirstField(name))
  }

  /** `str(pathlib.Path(dir) / name)` for a plain directory and a relative name. */
  function JoinPath(dir: string, name: string): string
  {
    dir + "/" + name
  }

  /** The clip file for position p inside the clip directory. */
  function ClipPath(dir: string, p: nat): string
  {
    JoinPath(dir, WavName(p))
  }

  /** The training bucket directory `{workspace}/train/{model}`. */
  function TagDir(workspace: string, model: string): string
  {
    JoinPath(JoinPath(workspace, "train"), model)
  }

  /** The name of a tagged copy: `{video}:F{p}.wav`. */
  function TagFileName(video: string, p: nat): string
  {
    video + ":F" + Decimal(p) + ".wav"
  }

  /** The destination of a tagged copy. */
  function TagPath(workspace: string, model: string, video: string, p: nat): string
  {
    JoinPath(TagDir(workspace, model), TagFileName(video, p))
  }

  /** Status line after tagging. */
  function SavedNotice(p: nat, video: string, model: string): string
  {
    "Saved frame #" + Decimal(p) + " of " + video + " to train " + model
  }

  /** Status line after loading a frame; `stamp` is the elapsed-time text for p. */
  function LoadedNotice(p: nat, stamp: string, video: string): string
  {
    "Loaded frame #" + Decimal(p) + "  (@ " + stamp + ")  from  " + video
  }

  /** Index of the last occurrence of c in s. */
  function LastIndex(s: string, c: char): (r: Option<nat>)
    ensures r.Some? ==> r.value < |s| && s[r.value] == c &&
                        forall j :: r.value < j < |s| ==> s[j] != c
    ensures r.None? ==> forall j :: 0 <= j < |s| ==> s[j] != c
  {
    if s == [] then None
    else if s[|s| - 1] == c then Some(|s| - 1)
    else LastIndex(s[..|s| - 1], c)
  }

  /** The last component of a path (everything after its last '/'). */
  function BaseName(path: string): string
  {
    match LastIndex(path, '/')
    case None => path
    case Some(i) => path[i + 1..]
  }

  /**
   * Reads a tagged copy's name back into the video name and the position:
   * the name must end in ".wav", and the part before that must end in
   * ":F" followed by digits, split at the last ':'.
   */
  function ParseTagFileName(name: string): Option<(string, nat)>
  {
    if |name| < 4 || name[|name| - 4..] != ".wav" then None
    else
      var stem := name[..|name| - 4];
      match LastIndex(stem, ':')
      case None => None
      case Some(i) =>
        if i + 1 < |stem| && stem[i + 1] == 'F' then
          match ParseDecimal(stem[i + 2..])
          case None => None
          case Some(v) => Some((stem[..i], v))
        else None
  }

  // ----- Lemmas -----

  lemma {:induction false} DecimalValue(n: nat)
    ensures DigitsValue(Decimal(n)) == n
    decreases n
  {
    if n >= 10 {
      var s := Decimal(n);
      assert s[..|s| - 1] == Decimal(n / 10);
      DecimalValue(n / 10);
    }
  }

  lemma {:induction false} ZerosValue(k: nat)
    ensures DigitsValue(Zeros(k)) == 0
  {
    if k > 0 {
      assert Zeros(k)[..k - 1] == Zeros(k - 1);
      ZerosValue(k - 1);
    }
  }

  /** Leading zeros do not change the value `int()` reads. */
  lemma {:induction false} LeadingZerosValue(k: nat, s: string)
    requires AllDigits(s)
    ensures AllDigits(Zeros(k) + s) && DigitsValue(Zeros(k) + s) == DigitsValue(s)
    decreases |s|
  {
    var t := Zeros(k) + s;
    if s == [] {
      assert t == Zeros(k);
      ZerosValue(k);
    } else {
      assert t[..|t| - 1] == Zeros(k) + s[..|s| - 1];
      LeadingZerosValue(k, s[..|s| - 1]);
    }
  }

  /** The padded name keeps the value: `int(f'{p:04d}') == p`. */
  lemma Pad4Value(p: nat)
    ensures DigitsValue(Pad4(p)) == p
  {
    var d := Decimal(p);
    DecimalValue(p);
    if |d| < 4 {
      LeadingZerosValue(4 - |d|, d);
    }
  }

  lemma {:induction false} FirstFieldBeforeDot(d: string, rest: string)
    requires '.' !in d
    ensures FirstField(d + "." + rest) == d
    decreases |d|
  {
    if d != [] {
      assert (d + "." + rest)[1..] == d[1..] + "." + rest;
      FirstFieldBeforeDot(d[1..], rest);
    }
  }

  /** The last occurrence of c is at k when s[k] is c and nothing after it is. */
  lemma {:induction false} LastIndexAt(s: string, c: char, k: nat)
    requires k < |s| && s[k] == c
    requires forall j :: k < j < |s| ==> s[j] != c
    ensures LastIndex(s, c) == Some(k)
    decreases |s|
  {
    if k < |s| - 1 {
      LastIndexAt(s[..|s| - 1], c, k);
    }
  }

  /**
   * The clip number the session reads from a clip's file name is the
   * position the name was built from.
   */
  lemma ClipNameRoundTrip(p: nat)
    ensures ClipNumber(WavName(p)) == Some(p)
  {
    var d := Pad4(p);
    assert forall i :: 0 <= i < |d| ==> d[i] != '.' by {
      forall i | 0 <= i < |d| ensures d[i] != '.' { assert IsDigit(d[i]); }
    }
    FirstFieldBeforeDot(d, "wav");
    assert WavName(p) == d + "." + "wav";
    Pad4Value(p);
  }

  /** A clip path ends in the clip's own name, which parses back to p. */
  lemma ClipPathRoundTrip(dir: string, p: nat)
    ensures BaseName(ClipPath(dir, p)) == WavName(p)
    ensures ClipNumber(BaseName(ClipPath(dir, p))) == Some(p)
  {
    var w := WavName(p);
    var path := ClipPath(dir, p);
    assert path == dir + "/" + w;
    assert forall j :: 0 <= j < |w| ==> w[j] != '/' by {
      forall j | 0 <= j < |w| ensures w[j] != '/' {
        if j < |Pad4(p)| { assert IsDigit(Pad4(p)[j]); }
      }
    }
    var k := |dir|;
    assert forall j :: k < j < |path| ==> path[j] == w[j - k - 1];
    LastIndexAt(path, '/', k);
    assert path[k + 1..] == w;
    ClipNameRoundTrip(p);
  }

  /**
   * A tagged copy's name reads back into the video name and the position
   * it was built from, whatever the video name contains.
   */
  lemma TagFileNameRoundTrip(video: string, p: nat)
    ensures ParseTagFileName(TagFileName(video, p)) == Some((video, p))
  {
    var name := TagFileName(video, p);
    var d := Decimal(p);
    var stem := video + ":F" + d;
    assert name == stem + ".wav";
    assert name[|name| - 4..] == ".wav";
    assert name[..|name| - 4] == stem;
    var k := |video|;
    forall j | k < j < |stem| ensures stem[j] != ':' {
      if j > k + 1 {
        assert stem[j] == d[j - k - 2];
        assert IsDigit(d[j - k - 2]);
      }
    }
    LastIndexAt(stem, ':', k);
    assert stem[k + 1] == 'F';
    assert stem[k + 2..] == d;
    assert stem[..k] == video;
    DecimalValue(p);
  }

  /**
   * A tag destination lies in the bucket directory, and when the video
   * name is a plain file name its last component reads back into the
   * video name and the position.
   */
  lemma TagPathRoundTrip(workspace: string, model: string, video: string, p: nat)
    requires '/' !in video
    ensures TagPath(workspace, model, video, p) ==
            TagDir(workspace, model) + "/" + TagFileName(video, p)
    ensures BaseName(TagPath(workspace, model, video, p)) == TagFileName(video, p)
    ensures ParseTagFileName(BaseName(TagPath(workspace, model, video, p))) == Some((video, p))
  {
    var dir := TagDir(workspace, model);
    var f := TagFileName(video, p);
    var path := TagPath(workspace, model, video, p);
    var d := Decimal(p);
    assert path == dir + "/" + f;
    assert f == video + ":F" + d + ".wav";
    assert forall j :: 0 <= j < |f| ==> f[j] != '/' by {
      forall j | 0 <= j < |f| ensures f[j] != '/' {
        if j < |video| {
          assert f[j] == video[j];
        } else if |video| + 2 <= j < |video| + 2 + |d| {
          assert f[j] == d[j - |video| - 2];
          assert IsDigit(d[j - |video| - 2]);
        }
      }
    }
    var k := |dir|;
    assert forall j :: k < j < |path| ==> path[j] == f[j - k - 1];
    LastIndexAt(path, '/', k);
    assert path[k + 1..] == f;
    TagFileNameRoundTrip(video, p);
  }

  lemma DecimalOf59()
    ensures Decimal(59) == "59"
  {
    assert 59 / 10 == 5 && 59 % 10 == 9;
    assert DigitChar(5) == '5' && DigitChar(9) == '9';
    assert Decimal(5) == "5";
  }

  lemma TagFileNameExample()
    ensures TagFileName("vid1.mp4", 59) == "vid1.mp4:F59.wav"
  {
    DecimalOf59();
  }

  lemma TagDirExample()
    ensures TagDir("/ws", "cat") == "/ws/train/cat"
  {
  }

  /** Clip 59 of vid1.mp4 tagged as "cat" in workspace /ws. */
  lemma TagPathExample()
    ensures TagPath("/ws", "cat", "vid1.mp4", 59) == "/ws/train/cat/vid1.mp4:F59.wav"
  {
    TagFileNameExample();
    TagDirExample();
  }
}
