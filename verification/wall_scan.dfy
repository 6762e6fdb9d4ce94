/** Vertical wall geometry shared by the passage check and the layer check.
    A column of the map is given as a tag test on rows, `has(y)`. A wall is a
    run of wall-top rows above a run of wall-front rows; both classifiers
    measure the runs around a cell with the same four counters and decide
    with the same threshold, `WallForced`. */
module WallScan {

  /** The `n` rows from `from` down to `from + n - 1` all carry the tag and
      lie below `height`, and the run cannot be extended. */
  ghost predicate IsRunDown(has: int -> bool, from: int, height: int, n: nat) {
    && (n > 0 ==> from + n <= height)
    && (forall k :: from <= k < from + n ==> has(k))
    && (from + n >= height || !has(from + n))
  }

  /** The `n` rows from `from` up to `from - n + 1` all carry the tag and lie
      at or below `from` and at or above row 0, and the run cannot be extended. */
  ghost predicate IsRunUp(has: int -> bool, from: int, n: nat) {
    && (n > 0 ==> from - n >= -1)
    && (forall k :: from - n < k <= from ==> has(k))
    && (from - n < 0 || !has(from - n))
  }

  /** `while (from < height && has(from)) { n++; from++; }` */
  function RunDown(has: int -> bool, from: int, height: int): (n: nat)
    ensures IsRunDown(has, from, height, n)
    decreases height - from
  {
    if from < height && has(from) then
      var rest := RunDown(has, from + 1, height);
      assert IsRunDown(has, from + 1, height, rest);
      1 + rest
    else 0
  }

  /** `while (from >= 0 && has(from)) { n++; from--; }` */
  function RunUp(has: int -> bool, from: int): (n: nat)
    ensures IsRunUp(has, from, n)
    decreases from + 1
  {
    if from >= 0 && has(from) then
      var rest := RunUp(has, from - 1);
      assert IsRunUp(has, from - 1, rest);
      1 + rest
    else 0
  }

  /** The downward count is the only length with the run property. */
  lemma {:induction false} RunDownUnique(has: int -> bool, from: int, height: int, n: nat)
    requires IsRunDown(has, from, height, n)
    ensures n == RunDown(has, from, height)
    decreases height - from
  {
    if n > 0 {
      assert from < height && has(from);
      assert IsRunDown(has, from + 1, height, n - 1);
      RunDownUnique(has, from + 1, height, n - 1);
    }
  }

  /** The upward count is the only length with the run property. */
  lemma {:induction false} RunUpUnique(has: int -> bool, from: int, n: nat)
    requires IsRunUp(has, from, n)
    ensures n == RunUp(has, from)
    decreases from + 1
  {
    if n > 0 {
      assert 0 <= from && has(from);
      assert IsRunUp(has, from - 1, n - 1);
      RunUpUnique(has, from - 1, n - 1);
    }
  }

  /** A downward scan reads no row outside `[from, height)`. */
  lemma RunDownLocal(has: int -> bool, has': int -> bool, from: int, height: int)
    requires forall k :: from <= k < height ==> has(k) == has'(k)
    ensures RunDown(has, from, height) == RunDown(has', from, height)
  {
    RunDownUnique(has', from, height, RunDown(has, from, height));
  }

  /** An upward scan reads no row outside `[0, from]`. */
  lemma RunUpLocal(has: int -> bool, has': int -> bool, from: int)
    requires forall k :: 0 <= k <= from ==> has(k) == has'(k)
    ensures RunUp(has, from) == RunUp(has', from)
  {
    RunUpUnique(has', from, RunUp(has, from));
  }

  /** The four counters of the source: front and top rows above a cell and
      top and front rows below it. */
  datatype Wall = Wall(upperFront: nat, upperTop: nat, lowerTop: nat, lowerFront: nat)

  datatype Side = Front | Top

  /** Counters for a wall-front cell at row `y`: the front rows below it, the
      front rows above it, and then the top rows right above those. */
  function FrontWall(front: int -> bool, top: int -> bool, y: int, height: int): (w: Wall)
    ensures IsRunDown(front, y + 1, height, w.lowerFront)
    ensures IsRunUp(front, y - 1, w.upperFront)
    ensures IsRunUp(top, y - 1 - w.upperFront, w.upperTop)
    ensures w.lowerTop == 0
  {
    var lowerFront := RunDown(front, y + 1, height);
    var upperFront := RunUp(front, y - 1);
    Wall(upperFront, RunUp(top, y - 1 - upperFront), 0, lowerFront)
  }

  /** Counters for a wall-top cell at row `y`: the top rows above it, the top
      rows below it, and then the front rows right below those. */
  function TopWall(front: int -> bool, top: int -> bool, y: int, height: int): (w: Wall)
    ensures IsRunUp(top, y - 1, w.upperTop)
    ensures IsRunDown(top, y + 1, height, w.lowerTop)
    ensures IsRunDown(front, y + 1 + w.lowerTop, height, w.lowerFront)
    ensures w.upperFront == 0
  {
    var upperTop := RunUp(top, y - 1);
    var lowerTop := RunDown(top, y + 1, height);
    Wall(0, upperTop, lowerTop, RunDown(front, y + 1 + lowerTop, height))
  }

  /** The shared occlusion threshold. A front cell is forced when a wall top
      sits above its front run and the front rows from this cell down outnumber
      the top rows. A top cell is forced when the top rows above it are fewer
      than the front rows under the top run, or, with no front run under it,
      fewer than the default wall height. */
  predicate WallForced(side: Side, w: Wall, defWallHeight: int)
    ensures side == Front ==> (WallForced(side, w, defWallHeight) <==> 0 < w.upperTop <= w.lowerFront)
    ensures side == Top ==>
      (WallForced(side, w, defWallHeight) <==> w.upperTop < if w.lowerFront == 0 then defWallHeight else w.lowerFront)
  {
    match side
    case Front => w.upperTop > 0 && w.lowerFront + 1 > w.upperTop
    case Top =>
      || (w.lowerFront == 0 && w.upperTop + 1 <= defWallHeight)
      || (w.lowerFront > 0 && w.upperTop + 1 <= w.lowerFront)
  }

  /** With a default wall height of 0 a top cell with no front run beneath is
      never forced. */
  lemma NoDefaultHeightNoForce(w: Wall, defWallHeight: int)
    requires defWallHeight <= 0 && w.lowerFront == 0
    ensures !WallForced(Top, w, defWallHeight)
  {
  }

  /** Scans of columns that agree on every row of the map give the same
      counters for a wall-front cell. */
  lemma FrontWallsAgree(front: int -> bool, top: int -> bool, front': int -> bool, top': int -> bool, y: int, height: int)
    requires forall k :: 0 <= k < height ==> front(k) == front'(k)
    requires forall k :: 0 <= k < height ==> top(k) == top'(k)
    requires 0 <= y < height
    ensures FrontWall(front, top, y, height) == FrontWall(front', top', y, height)
  {
    RunDownLocal(front, front', y + 1, height);
    RunUpLocal(front, front', y - 1);
    var upperFront := RunUp(front, y - 1);
    RunUpLocal(top, top', y - 1 - upperFront);
  }

  /** Scans of columns that agree on every row of the map give the same
      counters for a wall-top cell. */
  lemma TopWallsAgree(front: int -> bool, top: int -> bool, front': int -> bool, top': int -> bool, y: int, height: int)
    requires forall k :: 0 <= k < height ==> front(k) == front'(k)
    requires forall k :: 0 <= k < height ==> top(k) == top'(k)
    requires 0 <= y < height
    ensures TopWall(front, top, y, height) == TopWall(front', top', y, height)
  {
    RunUpLocal(top, top', y - 1);
    RunDownLocal(top, top', y + 1, height);
    var lowerTop := RunDown(top, y + 1, height);
    RunDownLocal(front, front', y + 1 + lowerTop, height);
  }
}
