/**
 * The library operations the collator relies on, stated on sequences:
 * Python slicing, right zero-padding (`F.pad` with a constant 0),
 * matrix transposition (`.T`) and `torch.stack`.
 */
module Tensors {
  import opened Results

  /** An audio or spectrogram value (a float in the source); only its identity matters here. */
  type Sample = real

  /**
   * Python's `s[lo:hi]` for non-negative bounds `lo <= hi`: both bounds are
   * clamped to the length, so the slice may be shorter than `hi - lo`, or empty.
   */
  function Slice<T>(s: seq<T>, lo: nat, hi: nat): (r: seq<T>)
    requires lo <= hi
    ensures |r| <= hi - lo
    ensures |r| == if hi <= |s| then hi - lo else if lo <= |s| then |s| - lo else 0
    ensures forall k :: 0 <= k < |r| ==> r[k] == s[lo + k]
  {
    var a := if lo <= |s| then lo else |s|;
    var b := if hi <= |s| then hi else |s|;
    s[a..b]
  }

  /** `F.pad(s, (0, n), mode="constant", value=0)`: `n` zeros appended on the right. */
  function PadRight(s: seq<Sample>, n: nat): (r: seq<Sample>)
    ensures |r| == |s| + n
    ensures r[..|s|] == s
    ensures forall k :: |s| <= k < |r| ==> r[k] == 0.0
  {
    s + seq(n, _ => 0.0)
  }

  /**
   * The window `[lo, hi)` of `s`: sliced as Python slices, then padded with
   * zeros to exactly `hi - lo` samples. Inside the clip it holds the clip's
   * samples, past the end of the clip it holds zeros.
   */
  function FitWindow(s: seq<Sample>, lo: nat, hi: nat): (r: seq<Sample>)
    requires lo <= hi
    ensures |r| == hi - lo
    ensures forall k :: 0 <= k < |r| ==> r[k] == if lo + k < |s| then s[lo + k] else 0.0
  {
    var w := Slice(s, lo, hi);
    PadRight(w, (hi - lo) - |w|)
  }

  /** A window that lies inside the clip needs no padding: it is the plain subsequence. */
  lemma FitWindowInside(s: seq<Sample>, lo: nat, hi: nat)
    requires lo <= hi <= |s|
    ensures |Slice(s, lo, hi)| == hi - lo
    ensures FitWindow(s, lo, hi) == s[lo..hi]
  {
  }

  /**
   * A two-dimensional array: `rows` rows of `width` values each. Keeping the
   * width explicit gives an array with no rows (a crop of zero frames) its
   * second dimension, as numpy does.
   */
  datatype Grid = Grid(width: nat, rows: seq<seq<Sample>>) {

    /** Every row has `width` values (a numpy array is rectangular). */
    predicate WellFormed() {
      forall t :: 0 <= t < |rows| ==> |rows[t]| == width
    }
  }

  /** `g.T`: column `c` of `g` becomes row `c` of the result. */
  function Transpose(g: Grid): (r: Grid)
    requires g.WellFormed()
    ensures r.WellFormed()
    ensures |r.rows| == g.width && r.width == |g.rows|
    ensures forall c, t :: 0 <= c < g.width && 0 <= t < |g.rows| ==> r.rows[c][t] == g.rows[t][c]
  {
    Grid(|g.rows|, seq(g.width, c requires 0 <= c < g.width =>
                         seq(|g.rows|, t requires 0 <= t < |g.rows| => g.rows[t][c])))
  }

  /** Transposing twice gives back the array, including its shape when it has no rows. */
  lemma TransposeInvolution(g: Grid)
    requires g.WellFormed()
    ensures Transpose(Transpose(g)) == g
  {
    var r := Transpose(Transpose(g));
    assert |r.rows| == |g.rows|;
    forall t | 0 <= t < |g.rows|
      ensures r.rows[t] == g.rows[t]
    {
      assert forall c :: 0 <= c < g.width ==> r.rows[t][c] == g.rows[t][c];
    }
  }

  /** Why `torch.stack` refuses its input. */
  datatype StackError = EmptyStack | ShapeMismatch

  /**
   * `torch.stack(items)`: fails on an empty list and on items of different
   * shapes; otherwise the stacked batch lists the items in order.
   */
  function Stack<T(==)>(items: seq<T>, shape: T -> seq<nat>): (r: Result<seq<T>, StackError>)
    ensures (r.Err? && r.error == EmptyStack) <==> |items| == 0
    ensures r.Ok? <==>
              |items| > 0 &&
              forall i, j :: 0 <= i < |items| && 0 <= j < |items| ==> shape(items[i]) == shape(items[j])
    ensures r.Ok? ==> r.value == items
  {
    if |items| == 0 then Err(EmptyStack)
    else if forall i :: 0 <= i < |items| ==> shape(items[i]) == shape(items[0]) then Ok(items)
    else Err(ShapeMismatch)
  }
}
