/** Weight layouts of cross-layer equalization. TensorFlow stores a
    convolution weight as [kh, kw, Nic, Noc]; the numeric kernel wants
    [Noc, Nic, kh, kw] (numpy `transpose((3, 2, 0, 1))`) and results are
    written back with `transpose((2, 3, 1, 0))`; a depthwise weight goes
    through `transpose((2, 3, 0, 1))` both ways. A 4-D tensor is a nested
    sequence; `Transpose` follows numpy: the output's axis k is the input's
    axis p[k]. */
module Layout {

  type Tensor4 = seq<seq<seq<seq<real>>>>
  type Shape = seq<nat>
  type Perm = seq<nat>

  ghost predicate HasShape(t: Tensor4, s: Shape)
  {
    |s| == 4 && |t| == s[0] &&
    forall a | 0 <= a < |t| :: |t[a]| == s[1] &&
      forall b | 0 <= b < |t[a]| :: |t[a][b]| == s[2] &&
        forall c | 0 <= c < |t[a][b]| :: |t[a][b][c]| == s[3]
  }

  /** The element at a 4-D index, 0.0 outside the tensor. */
  function At(t: Tensor4, i: int, j: int, k: int, l: int): real
  {
    if 0 <= i < |t| && 0 <= j < |t[i]| && 0 <= k < |t[i][j]| && 0 <= l < |t[i][j][k]|
    then t[i][j][k][l]
    else 0.0
  }

  /** Four axis numbers. */
  predicate Axes(p: Perm)
  {
    |p| == 4 && p[0] < 4 && p[1] < 4 && p[2] < 4 && p[3] < 4
  }

  /** A permutation of the four axes. */
  predicate IsPerm(p: Perm)
  {
    Axes(p) &&
    p[0] != p[1] && p[0] != p[2] && p[0] != p[3] && p[1] != p[2] && p[1] != p[3] && p[2] != p[3]
  }

  /** `Permute(p, xs)[k] == xs[p[k]]`: the shape map of a transpose. */
  function Permute(p: Perm, xs: seq<nat>): seq<nat>
    requires Axes(p) && |xs| == 4
  {
    [xs[p[0]], xs[p[1]], xs[p[2]], xs[p[3]]]
  }

  /** The position at which `p` holds `m`. */
  function Find(p: Perm, m: nat): nat
    requires |p| == 4
  {
    if p[0] == m then 0 else if p[1] == m then 1 else if p[2] == m then 2 else 3
  }

  function Inverse(p: Perm): (q: Perm)
    requires |p| == 4
    ensures Axes(q)
  {
    [Find(p, 0), Find(p, 1), Find(p, 2), Find(p, 3)]
  }

  /** The inverse undoes `p` on both sides and is itself a permutation
      whose inverse is `p`. */
  lemma InverseProperties(p: Perm)
    requires IsPerm(p)
    ensures IsPerm(Inverse(p))
    ensures forall k | 0 <= k < 4 :: p[Inverse(p)[k]] == k && Inverse(p)[p[k]] == k
    ensures Inverse(Inverse(p)) == p
  {
  }

  /** The element of the transpose at output index (a, b, c, d): the input
      element whose index has axis q[k] at position k, q the inverse. */
  function Pick(t: Tensor4, q: Perm, a: int, b: int, c: int, d: int): real
    requires Axes(q)
  {
    var i := [a, b, c, d];
    At(t, i[q[0]], i[q[1]], i[q[2]], i[q[3]])
  }

  /** numpy `transpose(p)` of a tensor of shape `s`. */
  function Transpose(t: Tensor4, s: Shape, p: Perm): Tensor4
    requires IsPerm(p) && |s| == 4
  {
    var o := Permute(p, s);
    var q := Inverse(p);
    seq(o[0], a => seq(o[1], b => seq(o[2], c => seq(o[3], d => Pick(t, q, a, b, c, d)))))
  }

  lemma TransposeShape(t: Tensor4, s: Shape, p: Perm)
    requires IsPerm(p) && |s| == 4
    ensures HasShape(Transpose(t, s, p), Permute(p, s))
  {
  }

  /** Two tensors of one shape with the same elements are equal. */
  lemma EqualByElements(w: Tensor4, t: Tensor4, s: Shape)
    requires HasShape(w, s) && HasShape(t, s)
    requires forall a, b, c, d | 0 <= a < s[0] && 0 <= b < s[1] && 0 <= c < s[2] && 0 <= d < s[3] ::
      w[a][b][c][d] == t[a][b][c][d]
    ensures w == t
  {
    forall a, b, c | 0 <= a < s[0] && 0 <= b < s[1] && 0 <= c < s[2]
      ensures w[a][b][c] == t[a][b][c]
    {
    }
    forall a, b | 0 <= a < s[0] && 0 <= b < s[1]
      ensures w[a][b] == t[a][b]
    {
    }
    forall a | 0 <= a < s[0]
      ensures w[a] == t[a]
    {
    }
  }

  /** An element of a transpose inside its shape. */
  lemma TransposeAt(t: Tensor4, s: Shape, p: Perm, a: int, b: int, c: int, d: int)
    requires IsPerm(p) && |s| == 4
    requires 0 <= a < s[p[0]] && 0 <= b < s[p[1]] && 0 <= c < s[p[2]] && 0 <= d < s[p[3]]
    ensures Transpose(t, s, p)[a][b][c][d] == Pick(t, Inverse(p), a, b, c, d)
  {
  }

  /** The lengths of a transpose along one index path. */
  lemma TransposeLengths(t: Tensor4, s: Shape, p: Perm, a: int, b: int, c: int)
    requires IsPerm(p) && |s| == 4
    requires 0 <= a < s[p[0]] && 0 <= b < s[p[1]] && 0 <= c < s[p[2]]
    ensures |Transpose(t, s, p)| == s[p[0]]
    ensures |Transpose(t, s, p)[a]| == s[p[1]]
    ensures |Transpose(t, s, p)[a][b]| == s[p[2]]
    ensures |Transpose(t, s, p)[a][b][c]| == s[p[3]]
  {
  }

  /** Reindexing by `p` and then by its inverse is the identity. */
  lemma ReindexIdentity(p: Perm, i: seq<int>)
    requires IsPerm(p) && |i| == 4
    ensures var j := [i[p[0]], i[p[1]], i[p[2]], i[p[3]]];
            var q := Inverse(p);
            [j[q[0]], j[q[1]], j[q[2]], j[q[3]]] == i
  {
    InverseProperties(p);
  }

  /** The element of the transpose at the permuted index is the original
      element. */
  lemma TransposeAtPermuted(t: Tensor4, s: Shape, p: Perm, a: nat, b: nat, c: nat, d: nat)
    requires IsPerm(p) && HasShape(t, s)
    requires a < s[0] && b < s[1] && c < s[2] && d < s[3]
    ensures var i := [a, b, c, d];
            var u := Transpose(t, s, p);
            |u| > i[p[0]] && |u[i[p[0]]]| > i[p[1]] && |u[i[p[0]]][i[p[1]]]| > i[p[2]] &&
            |u[i[p[0]]][i[p[1]]][i[p[2]]]| > i[p[3]] &&
            u[i[p[0]]][i[p[1]]][i[p[2]]][i[p[3]]] == t[a][b][c][d]
  {
    var i := [a, b, c, d];
    var j := [i[p[0]], i[p[1]], i[p[2]], i[p[3]]];
    ReindexIdentity(p, i);
    var q := Inverse(p);
    assert [j[q[0]], j[q[1]], j[q[2]], j[q[3]]] == [a, b, c, d];
    assert Pick(t, q, j[0], j[1], j[2], j[3]) == At(t, a, b, c, d);
    assert At(t, a, b, c, d) == t[a][b][c][d];
    TransposeAt(t, s, p, j[0], j[1], j[2], j[3]);
    TransposeLengths(t, s, p, j[0], j[1], j[2]);
  }

  /** One element of the double transpose is the original element. */
  lemma RoundTripElement(t: Tensor4, s: Shape, p: Perm, a: nat, b: nat, c: nat, d: nat)
    requires IsPerm(p) && HasShape(t, s)
    requires a < s[0] && b < s[1] && c < s[2] && d < s[3]
    ensures IsPerm(Inverse(p))
    ensures Transpose(Transpose(t, s, p), Permute(p, s), Inverse(p))[a][b][c][d] == t[a][b][c][d]
  {
    InverseProperties(p);
    var q := Inverse(p);
    var o := Permute(p, s);
    var u := Transpose(t, s, p);
    assert o[q[0]] == s[0] && o[q[1]] == s[1] && o[q[2]] == s[2] && o[q[3]] == s[3];
    TransposeAt(u, o, q, a, b, c, d);
    assert Inverse(q) == p;
    TransposeAtPermuted(t, s, p, a, b, c, d);
    PickInside(u, p, a, b, c, d);
  }

  /** Inside the tensor, `Pick` is plain indexing. */
  lemma PickInside(t: Tensor4, q: Perm, a: int, b: int, c: int, d: int)
    requires Axes(q)
    ensures var i := [a, b, c, d];
      0 <= i[q[0]] < |t| && 0 <= i[q[1]] < |t[i[q[0]]]| && 0 <= i[q[2]] < |t[i[q[0]]][i[q[1]]]| &&
      0 <= i[q[3]] < |t[i[q[0]]][i[q[1]]][i[q[2]]]| ==>
      Pick(t, q, a, b, c, d) == t[i[q[0]]][i[q[1]]][i[q[2]]][i[q[3]]]
  {
  }

  /** Transposing by `p` and then by its inverse gives the tensor back. */
  lemma TransposeRoundTrip(t: Tensor4, s: Shape, p: Perm)
    requires IsPerm(p) && HasShape(t, s)
    ensures IsPerm(Inverse(p)) && Permute(Inverse(p), Permute(p, s)) == s
    ensures Transpose(Transpose(t, s, p), Permute(p, s), Inverse(p)) == t
  {
    InverseProperties(p);
    var w := Transpose(Transpose(t, s, p), Permute(p, s), Inverse(p));
    TransposeShape(Transpose(t, s, p), Permute(p, s), Inverse(p));
    forall a, b, c, d | 0 <= a < s[0] && 0 <= b < s[1] && 0 <= c < s[2] && 0 <= d < s[3]
      ensures w[a][b][c][d] == t[a][b][c][d]
    {
      RoundTripElement(t, s, p, a, b, c, d);
    }
    EqualByElements(w, t, s);
  }

  /** TensorFlow layout to kernel layout for a convolution, and back. */
  const ToKernelLayout: Perm := [3, 2, 0, 1]
  const FromKernelLayout: Perm := [2, 3, 1, 0]
  /** The depthwise layout swap, used in both directions. */
  const DepthwiseLayout: Perm := [2, 3, 0, 1]

  /** The write-back permutation undoes the read permutation, on shapes and
      on tensors; the kernel sees shape [Noc, Nic, kh, kw]. */
  lemma ConvLayoutRoundTrip(t: Tensor4, s: Shape)
    requires HasShape(t, s)
    ensures Permute(ToKernelLayout, s) == [s[3], s[2], s[0], s[1]]
    ensures Permute(FromKernelLayout, Permute(ToKernelLayout, s)) == s
    ensures Transpose(Transpose(t, s, ToKernelLayout), Permute(ToKernelLayout, s), FromKernelLayout) == t
  {
    assert Inverse(ToKernelLayout) == FromKernelLayout;
    TransposeRoundTrip(t, s, ToKernelLayout);
  }

  lemma DepthwiseLayoutRoundTrip(t: Tensor4, s: Shape)
    requires HasShape(t, s)
    ensures Permute(DepthwiseLayout, s) == [s[2], s[3], s[0], s[1]]
    ensures Permute(DepthwiseLayout, Permute(DepthwiseLayout, s)) == s
    ensures Transpose(Transpose(t, s, DepthwiseLayout), Permute(DepthwiseLayout, s), DepthwiseLayout) == t
  {
    assert Inverse(DepthwiseLayout) == DepthwiseLayout;
    TransposeRoundTrip(t, s, DepthwiseLayout);
  }
}
