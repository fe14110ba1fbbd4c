/** The part tree of a loaded object and the flat colouring `applyFaceColors` applies to it. */
module Materials {

  /** One node of a loaded object's tree. `color` is the colour of the node's material;
      only mesh nodes have their material replaced. */
  datatype Part = Part(isMesh: bool, color: int, children: seq<Part>)

  /** The traversal at the heart of `applyFaceColors`: every mesh node, at every depth,
      gets a material of colour `c`. */
  function Recolor(p: Part, c: int): (r: Part)
    ensures r.isMesh == p.isMesh && |r.children| == |p.children|
    ensures p.isMesh ==> r.color == c
    ensures !p.isMesh ==> r.color == p.color
  {
    Part(p.isMesh, if p.isMesh then c else p.color,
         seq(|p.children|, i requires 0 <= i < |p.children| => Recolor(p.children[i], c)))
  }

  /** Every mesh node in the tree has colour `c`. */
  predicate MeshesColored(p: Part, c: int) {
    (p.isMesh ==> p.color == c) &&
    forall i :: 0 <= i < |p.children| ==> MeshesColored(p.children[i], c)
  }

  /** `q` has the tree shape of `p`, the same mesh flags, and the same colour on every
      non-mesh node; mesh colours may differ. */
  predicate SameShape(p: Part, q: Part) {
    p.isMesh == q.isMesh &&
    (!p.isMesh ==> p.color == q.color) &&
    |p.children| == |q.children| &&
    forall i :: 0 <= i < |p.children| ==> SameShape(p.children[i], q.children[i])
  }

  /** After recolouring, every mesh carries the selected colour. */
  lemma {:induction false} RecolorColorsMeshes(p: Part, c: int)
    ensures MeshesColored(Recolor(p, c), c)
  {
    forall i | 0 <= i < |p.children| {
      RecolorColorsMeshes(p.children[i], c);
    }
  }

  /** Recolouring touches neither the tree shape nor the non-mesh nodes. */
  lemma {:induction false} RecolorKeepsShape(p: Part, c: int)
    ensures SameShape(p, Recolor(p, c))
  {
    forall i | 0 <= i < |p.children| {
      RecolorKeepsShape(p.children[i], c);
    }
  }

  /** Recolouring is the only tree with both properties: it is fully determined by them. */
  lemma {:induction false} RecolorUnique(p: Part, q: Part, c: int)
    requires SameShape(p, q) && MeshesColored(q, c)
    ensures q == Recolor(p, c)
  {
    var r := Recolor(p, c);
    forall i | 0 <= i < |p.children|
      ensures q.children[i] == r.children[i]
    {
      RecolorUnique(p.children[i], q.children[i], c);
    }
    assert q.children == r.children;
  }

  /** The last colour applied wins; in particular recolouring is idempotent. */
  lemma {:induction false} RecolorLastWins(p: Part, a: int, b: int)
    ensures Recolor(Recolor(p, a), b) == Recolor(p, b)
  {
    var l, r := Recolor(Recolor(p, a), b), Recolor(p, b);
    forall i | 0 <= i < |p.children|
      ensures l.children[i] == r.children[i]
    {
      RecolorLastWins(p.children[i], a, b);
    }
    assert l.children == r.children;
  }

  /** A tree is left as it is exactly when its meshes already have the colour. */
  lemma RecolorFixedPoints(p: Part, c: int)
    ensures Recolor(p, c) == p <==> MeshesColored(p, c)
  {
    if MeshesColored(p, c) {
      SameShapeReflexive(p);
      RecolorUnique(p, p, c);
    } else {
      RecolorColorsMeshes(p, c);
    }
  }

  lemma {:induction false} SameShapeReflexive(p: Part)
    ensures SameShape(p, p)
  {
    forall i | 0 <= i < |p.children| {
      SameShapeReflexive(p.children[i]);
    }
  }
}
