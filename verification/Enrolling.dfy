/** full_layer.Enrollment: persistent weights keyed by content, each distinct tensor enrolled once. */
module Enrolling {
  import opened NumberTheory
  import opened Field
  import opened Domain
  import opened Rows
  import opened Rs
  import opened Commit
  import opened Projection
  import LP = LogupProver
  import D = DenseLayer
  import T = Transcript

  type Bytes = T.Bytes

  /** randrange for the tail of enrolment k, output i, slot j; or no generator at all. */
  datatype Rng = NoRng | Draws(value: (nat, nat, nat) -> int)

  function SecretPadding(cfg: Config, W: Matrix, rng: Rng, k: nat): (p: Padding)
    requires cfg.ELL > 0 && Rectangular(W)
    ensures PaddingFits(cfg, W, p)
  {
    var len := TailLength(cfg, |W[0]|);
    if rng.NoRng? || len == 0 then NoPadding
    else Secret(seq(|W|, i requires 0 <= i < |W| => seq(len, j requires 0 <= j < len => rng.value(k, i, j) % P)))
  }

  ghost predicate AllEnrolled(h: Hash<Bytes>, cfg: Config, ws: seq<Weights<Bytes>>, mats: seq<Matrix>, pads: seq<Padding>) {
    && |ws| == |mats| == |pads|
    && forall i :: 0 <= i < |ws| ==> ws[i].cfg == cfg && Enrolled(h, ws[i], mats[i], pads[i])
  }

  /** The dictionary and the list name the same tensors, each once. */
  ghost predicate Indexed(byKey: map<Matrix, nat>, mats: seq<Matrix>) {
    && (forall W <- byKey :: byKey[W] < |mats| && mats[byKey[W]] == W)
    && forall i :: 0 <= i < |mats| ==> mats[i] in byKey && byKey[mats[i]] == i
  }

  class Enrollment {
    const h: Hash<Bytes>
    const cfg: Config
    const L: seq<seq<int>>
    var byKey: map<Matrix, nat>
    var weights: seq<Weights<Bytes>>
    ghost var mats: seq<Matrix>
    ghost var pads: seq<Padding>

    ghost predicate Valid()
      reads this
    {
      && cfg.Valid() && LP.ByteHash(h) && IsLagrangeMatrix(cfg, L)
      && AllEnrolled(h, cfg, weights, mats, pads) && Indexed(byKey, mats)
    }

    constructor (h: Hash<Bytes>, cfg: Config, L: seq<seq<int>>)
      requires cfg.Valid() && LP.ByteHash(h) && IsLagrangeMatrix(cfg, L)
      ensures Valid() && weights == [] && this.h == h && this.cfg == cfg && this.L == L
    {
      this.h, this.cfg, this.L := h, cfg, L;
      byKey, weights, mats, pads := map[], [], [], [];
    }

    /** A tensor seen before keeps its number and costs nothing; a new one goes at the end. */
    method Enroll(W: Matrix, rng: Rng) returns (k: nat)
      requires Valid() && Rectangular(W)
      modifies this
      ensures Valid() && k < |weights| && mats[k] == W
      ensures W in old(byKey) ==> k == old(byKey[W]) && weights == old(weights) && mats == old(mats)
      ensures W !in old(byKey) ==> k == |old(weights)| && |weights| == k + 1 && mats == old(mats) + [W]
      ensures old(weights) <= weights
    {
      hide Enrolled, IsLagrangeMatrix, LP.ByteHash;
      if W in byKey {
        return byKey[W];
      }
      ghost var padding := SecretPadding(cfg, W, rng, |weights|);
      k := |weights|;
      var w := Projection.Enroll(h, cfg, L, W, SecretPadding(cfg, W, rng, |weights|));
      weights := weights + [w.value];
      byKey := byKey[W := k];
      mats, pads := mats + [W], pads + [padding];
    }

    function Root(k: nat): Bytes
      requires k < |weights|
      reads this
    {
      weights[k].commit.root
    }

    /** What a number stands for. */
    lemma Holds(k: nat)
      requires Valid() && k < |weights|
      ensures k < |mats| && k < |pads| && weights[k].cfg == cfg && Enrolled(h, weights[k], mats[k], pads[k])
    {
      hide Enrolled;
    }

    lemma Parts()
      requires Valid()
      ensures cfg.Valid() && LP.ByteHash(h) && IsLagrangeMatrix(cfg, L) && cfg.ELL > 0
    {
      hide LP.ByteHash, IsLagrangeMatrix;
    }
  }
}
