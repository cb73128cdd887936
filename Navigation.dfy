/**
 * Keyboard navigation over the clips of a review session. Positions are
 * 1-based (`last_clip + 1`); n is the number of clip buttons.
 */
module Navigation {
  import opened Wrappers

  /** How far Page Up / Page Down jump. */
  const Page: nat := 60

  /** The keys the session binds; Tk reports Page Up and Page Down as "Prior" and "Next". */
  datatype Key = Left | Right | Prior | Next | Home | End | Unbound

  function KeyOf(keysym: string): (k: Key)
    ensures k == Unbound <==>
      keysym !in {"Left", "Right", "Prior", "Next", "Home", "End"}
  {
    if keysym == "Left" then Left
    else if keysym == "Right" then Right
    else if keysym == "Prior" then Prior
    else if keysym == "Next" then Next
    else if keysym == "Home" then Home
    else if keysym == "End" then End
    else Unbound
  }

  /**
   * The position `navigate` hands to `load_frame` for key at position p,
   * or None when it loads nothing.
   */
  function Target(p: int, key: Key, n: int): (t: Option<int>)
    ensures 1 <= p <= n && t.Some? ==> 1 <= t.value <= n
    ensures t.Some? && key != Home && key != End ==> t.value != p
  {
    match key
    case Left => if p > 1 then Some(p - 1) else None
    case Right => if p < n then Some(p + 1) else None
    case Prior =>
      if p > Page then Some(p - Page)
      else if p > 1 then Some(1)
      else None
    case Next =>
      if p < n - Page then Some(p + Page)
      else if p < n then Some(n)
      else None
    case Home => Some(1)
    case End => Some(n)
    case Unbound => None
  }

  /** The position after pressing key at p. */
  function Move(p: int, key: Key, n: int): (q: int)
    ensures 1 <= p <= n ==> 1 <= q <= n
  {
    match Target(p, key, n)
    case None => p
    case Some(t) => t
  }

  function Max(a: int, b: int): int { if a < b then b else a }
  function Min(a: int, b: int): int { if a < b then a else b }

  /**
   * Reference rule for each key: steps and pages clamp to [1, n], Home and
   * End jump to the ends, other keys stay put.
   */
  function Clamped(p: int, key: Key, n: int): int
  {
    match key
    case Left => Max(p - 1, 1)
    case Right => Min(p + 1, n)
    case Prior => Max(p - Page, 1)
    case Next => Min(p + Page, n)
    case Home => 1
    case End => n
    case Unbound => p
  }

  /** The position `last_clip / len(buttons)` puts the scroll bar at. */
  function ScrollFraction(q: int, n: int): real
    requires n >= 1
  {
    (q - 1) as real / n as real
  }

  /** The position after pressing the keys in order. */
  function Replay(p: int, keys: seq<Key>, n: int): int
    decreases |keys|
  {
    if keys == [] then p else Replay(Move(p, keys[0], n), keys[1..], n)
  }

  function Presses(key: Key, k: nat): (keys: seq<Key>)
    ensures |keys| == k && forall i :: 0 <= i < k ==> keys[i] == key
  {
    seq(k, _ => key)
  }

  // ----- Lemmas -----

  /** Every key obeys the clamping rule. */
  lemma MoveIsClamped(p: int, key: Key, n: int)
    requires 1 <= p <= n
    ensures Move(p, key, n) == Clamped(p, key, n)
  {
  }

  /** Left and Right: one step, or no change at the boundary. */
  lemma StepRules(p: int, n: int)
    requires 1 <= p <= n
    ensures Move(p, Left, n) == (if p > 1 then p - 1 else p)
    ensures Move(p, Right, n) == (if p < n then p + 1 else p)
    ensures Target(p, Left, n).Some? <==> p > 1
    ensures Target(p, Right, n).Some? <==> p < n
  {
  }

  /** Page Up: a full page back, else to the first clip, else nothing. */
  lemma PriorRule(p: int, n: int)
    requires 1 <= p <= n
    ensures p > Page ==> Move(p, Prior, n) == p - Page
    ensures 1 < p <= Page ==> Move(p, Prior, n) == 1
    ensures p == 1 <==> Target(p, Prior, n).None?
  {
  }

  /** Page Down: a full page on, else to the last clip, else nothing. */
  lemma NextRule(p: int, n: int)
    requires 1 <= p <= n
    ensures p < n - Page ==> Move(p, Next, n) == p + Page
    ensures n - Page <= p < n ==> Move(p, Next, n) == n
    ensures p == n <==> Target(p, Next, n).None?
  {
  }

  /** Home and End always load, whatever the position. */
  lemma HomeEndRule(p: int, n: int)
    ensures Target(p, Home, n) == Some(1)
    ensures Target(p, End, n) == Some(n)
  {
  }

  /** A frame is loaded exactly when the position changes, or for Home and End. */
  lemma LoadsWhenMoving(p: int, key: Key, n: int)
    requires 1 <= p <= n
    ensures Target(p, key, n).Some? <==> key == Home || key == End || Move(p, key, n) != p
  {
  }

  /** With a single clip every key leaves the position at 1. */
  lemma SingleClip(key: Key)
    ensures Move(1, key, 1) == 1
  {
  }

  /** A step back and a step forward undo each other away from the boundary. */
  lemma StepRoundTrip(p: int, n: int)
    requires 1 <= p <= n
    ensures p > 1 ==> Move(Move(p, Left, n), Right, n) == p
    ensures p < n ==> Move(Move(p, Right, n), Left, n) == p
  {
  }

  /** A full page back and a page forward undo each other. */
  lemma PageRoundTrip(p: int, n: int)
    requires 1 <= p <= n
    ensures p > Page ==> Move(Move(p, Prior, n), Next, n) == p
    ensures p < n - Page ==> Move(Move(p, Next, n), Prior, n) == p
  {
  }

  /** Any sequence of key presses keeps the position in [1, n]. */
  lemma {:induction false} ReplayInRange(p: int, keys: seq<Key>, n: int)
    requires 1 <= p <= n
    ensures 1 <= Replay(p, keys, n) <= n
    decreases |keys|
  {
    if keys != [] {
      ReplayInRange(Move(p, keys[0], n), keys[1..], n);
    }
  }

  lemma FractionBelowOne(a: int, n: int)
    requires 0 <= a < n
    ensures 0.0 <= a as real / n as real < 1.0
  {
    var m := n as real;
    var f := a as real / m;
    assert f * m == a as real < m;
    assert m - f * m > 0.0;
  }

  /** The scroll fraction after any key press lies in [0, 1). */
  lemma ScrollFractionInRange(p: int, key: Key, n: int)
    requires 1 <= p <= n
    ensures 0.0 <= ScrollFraction(Move(p, key, n), n) < 1.0
  {
    FractionBelowOne(Move(p, key, n) - 1, n);
  }

  /** Pressing Page Down ceil((n - p) / 60) times reaches the last clip. */
  lemma {:induction false} PagingReachesEnd(p: int, k: nat, n: int)
    requires 1 <= p <= n
    requires k * Page >= n - p
    ensures Replay(p, Presses(Next, k), n) == n
    decreases k
  {
    var keys := Presses(Next, k);
    if k > 0 {
      assert keys[1..] == Presses(Next, k - 1);
      PagingReachesEnd(Move(p, Next, n), k - 1, n);
    } else {
      assert keys == [];
    }
  }

  /** Pressing Page Up ceil((p - 1) / 60) times reaches the first clip. */
  lemma {:induction false} PagingReachesStart(p: int, k: nat, n: int)
    requires 1 <= p <= n
    requires k * Page >= p - 1
    ensures Replay(p, Presses(Prior, k), n) == 1
    decreases k
  {
    var keys := Presses(Prior, k);
    if k > 0 {
      assert keys[1..] == Presses(Prior, k - 1);
      PagingReachesStart(Move(p, Prior, n), k - 1, n);
    } else {
      assert keys == [];
    }
  }

  /** End, Left, Page Up from the first of 120 clips lands on clip 59. */
  lemma Walkthrough()
    ensures Replay(1, [End, Left, Prior], 120) == 59
  {
    assert Replay(59, [], 120) == 59;
  }
}
