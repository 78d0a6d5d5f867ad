/** Rectangular 3- and 4-dimensional arrays as nested sequences, with numpy's row-major
    `reshape` and the two axis permutations between height-width-channel and
    channel-height-width layout. */
module NdArrays {
  import opened Sequences

  type Array3<T> = seq<seq<seq<T>>>
  type Array4<T> = seq<seq<seq<seq<T>>>>

  /** `a` is rectangular with shape (d0, d1, d2). */
  predicate HasShape3<T>(a: Array3<T>, d0: nat, d1: nat, d2: nat)
  {
    |a| == d0 &&
    forall i :: 0 <= i < d0 ==>
      |a[i]| == d1 && forall j :: 0 <= j < d1 ==> |a[i][j]| == d2
  }

  /** `a` is rectangular with shape (d0, d1, d2, d3). */
  predicate HasShape4<T>(a: Array4<T>, d0: nat, d1: nat, d2: nat, d3: nat)
  {
    |a| == d0 && forall i :: 0 <= i < d0 ==> HasShape3(a[i], d1, d2, d3)
  }

  /** All elements of a 3-D array in row-major (C) order. */
  function Ravel3<T>(a: Array3<T>): seq<T>
  {
    Flatten(Flatten(a))
  }

  /** All elements of a 4-D array in row-major (C) order. */
  function Ravel4<T>(a: Array4<T>): seq<T>
  {
    Flatten(Flatten(Flatten(a)))
  }

  lemma Ravel3Length<T>(a: Array3<T>, d0: nat, d1: nat, d2: nat)
    requires HasShape3(a, d0, d1, d2)
    ensures |Ravel3(a)| == d0 * d1 * d2
  {
    FlattenLength(a, d1);
    forall r | 0 <= r < |Flatten(a)| ensures |Flatten(a)[r]| == d2 {
      FlattenMember(a, r);
    }
    FlattenLength(Flatten(a), d2);
  }

  /** Every row of the flattened array is a row of some element. */
  lemma {:induction false} FlattenMember<T>(a: seq<seq<seq<T>>>, r: nat)
    requires r < |Flatten(a)|
    ensures exists i, j :: 0 <= i < |a| && 0 <= j < |a[i]| && Flatten(a)[r] == a[i][j]
  {
    if r < |a[0]| {
      assert Flatten(a)[r] == a[0][r];
    } else {
      FlattenMember(a[1..], r - |a[0]|);
      var i, j :| 0 <= i < |a[1..]| && 0 <= j < |a[1..][i]| && Flatten(a[1..])[r - |a[0]|] == a[1..][i][j];
      assert Flatten(a)[r] == a[i + 1][j];
    }
  }

  /** numpy `reshape(d0, d1, d2, d3)` of a row-major element sequence. */
  function Reshape4<T>(flat: seq<T>, d0: nat, d1: nat, d2: nat, d3: nat): (r: Array4<T>)
    requires |flat| == d0 * d1 * d2 * d3
    ensures HasShape4(r, d0, d1, d2, d3)
    ensures Ravel4(r) == flat
  {
    var rows := Split(flat, d0 * d1 * d2, d3);
    var planes := Split(rows, d0 * d1, d2);
    var blocks := Split(planes, d0, d1);
    assert HasShape4(blocks, d0, d1, d2, d3) by {
      RowsOfParts(planes, d3);
      RowsOfParts(blocks, d2);
      forall i, j | 0 <= i < d0 && 0 <= j < d1 ensures RowsOf(blocks[i][j], d3) {
        FlattenHolds(blocks, i, j);
      }
    }
    blocks
  }

  /** When the concatenated rows all have `n` elements, so do the rows of each part. */
  lemma {:induction false} RowsOfParts<T>(xss: seq<seq<seq<T>>>, n: nat)
    requires RowsOf(Flatten(xss), n)
    ensures forall i :: 0 <= i < |xss| ==> RowsOf(xss[i], n)
  {
    if xss != [] {
      assert Flatten(xss) == xss[0] + Flatten(xss[1..]);
      assert RowsOf(Flatten(xss[1..]), n) by {
        forall j | 0 <= j < |Flatten(xss[1..])| ensures |Flatten(xss[1..])[j]| == n {
          assert Flatten(xss[1..])[j] == Flatten(xss)[|xss[0]| + j];
        }
      }
      RowsOfParts(xss[1..], n);
      forall i | 0 <= i < |xss| ensures RowsOf(xss[i], n) {
        if i > 0 {
          assert xss[i] == xss[1..][i - 1];
        } else {
          forall j | 0 <= j < |xss[0]| ensures |xss[0][j]| == n {
            assert xss[0][j] == Flatten(xss)[j];
          }
        }
      }
    }
  }

  /** Every element of a part is an element of the concatenation. */
  lemma {:induction false} FlattenHolds<T>(xss: seq<seq<T>>, i: nat, j: nat)
    requires i < |xss| && j < |xss[i]|
    ensures xss[i][j] in Flatten(xss)
  {
    assert Flatten(xss) == xss[0] + Flatten(xss[1..]);
    if i > 0 {
      FlattenHolds(xss[1..], i - 1, j);
    } else {
      assert Flatten(xss)[j] == xss[0][j];
    }
  }

  /** Reshaping the elements of a (d0, d1, d2) array into (1, d0, d1, d2) only adds the
      leading axis. */
  lemma ReshapeAddsBatchAxis<T>(a: Array3<T>, d0: nat, d1: nat, d2: nat)
    requires HasShape3(a, d0, d1, d2)
    ensures |Ravel3(a)| == 1 * d0 * d1 * d2
    ensures Reshape4(Ravel3(a), 1, d0, d1, d2) == [a]
  {
    Ravel3Length(a, d0, d1, d2);
    var rows := Flatten(a);
    assert RowsOf(rows, d2) by {
      forall r | 0 <= r < |rows| ensures |rows[r]| == d2 {
        FlattenMember(a, r);
      }
    }
    FlattenLength(a, d1);
    SplitFlatten(rows, d2);
    SplitFlatten(a, d1);
    SplitUnique(a, 1, d0, [a]);
  }

  /** numpy `transpose(a, (2, 0, 1))`: height-width-channel to channel-height-width. */
  function TransposeToChw<T>(a: Array3<T>, h: nat, w: nat, c: nat): (r: Array3<T>)
    requires HasShape3(a, h, w, c)
    ensures HasShape3(r, c, h, w)
    ensures forall k, y, x :: 0 <= k < c && 0 <= y < h && 0 <= x < w ==> r[k][y][x] == a[y][x][k]
  {
    seq(c, k requires 0 <= k < c => seq(h, y requires 0 <= y < h => seq(w, x requires 0 <= x < w => a[y][x][k])))
  }

  /** numpy `transpose(a, (1, 2, 0))`: channel-height-width back to height-width-channel. */
  function TransposeToHwc<T>(a: Array3<T>, c: nat, h: nat, w: nat): (r: Array3<T>)
    requires HasShape3(a, c, h, w)
    ensures HasShape3(r, h, w, c)
    ensures forall y, x, k :: 0 <= y < h && 0 <= x < w && 0 <= k < c ==> r[y][x][k] == a[k][y][x]
  {
    seq(h, y requires 0 <= y < h => seq(w, x requires 0 <= x < w => seq(c, k requires 0 <= k < c => a[k][y][x])))
  }

  /** The two permutations are inverse to each other, in both orders. */
  lemma TransposeRoundTrip<T>(a: Array3<T>, b: Array3<T>, h: nat, w: nat, c: nat)
    requires HasShape3(a, h, w, c) && HasShape3(b, c, h, w)
    ensures TransposeToHwc(TransposeToChw(a, h, w, c), c, h, w) == a
    ensures TransposeToChw(TransposeToHwc(b, c, h, w), h, w, c) == b
  {
    var t := TransposeToHwc(TransposeToChw(a, h, w, c), c, h, w);
    forall y, x | 0 <= y < h && 0 <= x < w ensures t[y][x] == a[y][x] {
      assert forall k :: 0 <= k < c ==> t[y][x][k] == a[y][x][k];
    }
    forall y | 0 <= y < h ensures t[y] == a[y] {
      assert forall x :: 0 <= x < w ==> t[y][x] == a[y][x];
    }
    var u := TransposeToChw(TransposeToHwc(b, c, h, w), h, w, c);
    forall k, y | 0 <= k < c && 0 <= y < h ensures u[k][y] == b[k][y] {
      assert forall x :: 0 <= x < w ==> u[k][y][x] == b[k][y][x];
    }
    forall k | 0 <= k < c ensures u[k] == b[k] {
      assert forall y :: 0 <= y < h ==> u[k][y] == b[k][y];
    }
  }
}
