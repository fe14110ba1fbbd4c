/** The scene container: the nodes added with `scene.add`, in insertion order, and the
    loaded objects they may refer to. */
module SceneGraph {
  import opened Materials

  /** A loaded object. Its part tree and its rotation are updated in place, so it is an
      object with identity; rotation is counted in steps of 0.01 rad about each axis. */
  class Object3D {
    var tree: Part
    var rotX: int
    var rotY: int

    constructor (tree: Part)
      ensures this.tree == tree && rotX == 0 && rotY == 0
    {
      this.tree := tree;
      rotX := 0;
      rotY := 0;
    }
  }

  /** The plane a reference grid lies in. */
  datatype Plane = XY | XZ | YZ

  /** A child of the scene: a reference grid, the axes helper, or a loaded object. */
  datatype Node = Grid(plane: Plane) | Axes | Model(obj: Object3D)

  /** The reference geometry `addCartesianGrid` adds, in its order. */
  function CartesianNodes(): seq<Node> {
    [Grid(XY), Grid(XZ), Grid(YZ), Axes]
  }

  /** `Object3D.remove`: the first occurrence of `x` goes; a missing child is ignored. */
  function RemoveFirst<T(==)>(s: seq<T>, x: T): (r: seq<T>)
    ensures x !in s ==> r == s
    ensures x in s ==> |r| == |s| - 1 && multiset(r) == multiset(s) - multiset{x}
  {
    if s == [] then []
    else if s[0] == x then assert s == [s[0]] + s[1..]; s[1..]
    else
      assert s == [s[0]] + s[1..];
      assert multiset(s) == multiset{s[0]} + multiset(s[1..]);
      [s[0]] + RemoveFirst(s[1..], x)
  }

  /** The loaded objects among the nodes, in order. */
  function Models(s: seq<Node>): (r: seq<Object3D>)
    ensures |r| <= |s|
  {
    if s == [] then []
    else (if s[0].Model? then [s[0].obj] else []) + Models(s[1..])
  }

  /** The grids and axes among the nodes, in order. */
  function Helpers(s: seq<Node>): (r: seq<Node>)
    ensures |r| <= |s|
  {
    if s == [] then []
    else (if s[0].Model? then [] else [s[0]]) + Helpers(s[1..])
  }

  /** A loaded object is among the scene's models exactly when its node is in the scene. */
  lemma {:induction false} ModelsMembership(s: seq<Node>, o: Object3D)
    ensures o in Models(s) <==> Model(o) in s
  {
    if s != [] {
      ModelsMembership(s[1..], o);
      assert s == [s[0]] + s[1..];
    }
  }

  /** `scene.remove(o)` for an object that may be missing (`null`). */
  function Detach(s: seq<Node>, o: Object3D?): (r: seq<Node>)
    ensures o == null || Model(o) !in s ==> r == s
    ensures o != null && Model(o) in s ==>
      |r| == |s| - 1 && multiset(r) == multiset(s) - multiset{Model(o)}
  {
    if o == null then s else RemoveFirst(s, Model(o))
  }

  /** Replacing the current object `cur` (if any) by a new `obj`: when `cur` was the
      scene's only loaded object, `obj` is afterwards, and the helpers are untouched. */
  lemma Swap(s: seq<Node>, cur: Object3D?, obj: Object3D)
    requires Models(s) == [] || (cur != null && Models(s) == [cur])
    requires cur != obj
    ensures Models(Detach(s, cur) + [Model(obj)]) == [obj]
    ensures Helpers(Detach(s, cur) + [Model(obj)]) == Helpers(s)
    ensures Model(obj) in Detach(s, cur) + [Model(obj)]
    ensures cur != null ==> Model(cur) !in Detach(s, cur) + [Model(obj)]
  {
    var d := Detach(s, cur);
    if cur != null {
      HelpersRemove(s, cur);
      ModelsRemove(s, cur);
      assert RemoveFirst(Models(s), cur) == [];
    }
    assert Models(d) == [];
    ModelsAppend(d, [Model(obj)]);
    HelpersAppend(d, [Model(obj)]);
    ModelsMembership(d + [Model(obj)], obj);
    if cur != null {
      ModelsMembership(d + [Model(obj)], cur);
    }
  }

  lemma {:induction false} ModelsAppend(s: seq<Node>, t: seq<Node>)
    ensures Models(s + t) == Models(s) + Models(t)
  {
    if s == [] {
      assert s + t == t;
    } else {
      assert (s + t)[0] == s[0];
      assert (s + t)[1..] == s[1..] + t;
      ModelsAppend(s[1..], t);
    }
  }

  lemma {:induction false} HelpersAppend(s: seq<Node>, t: seq<Node>)
    ensures Helpers(s + t) == Helpers(s) + Helpers(t)
  {
    if s == [] {
      assert s + t == t;
    } else {
      assert (s + t)[0] == s[0];
      assert (s + t)[1..] == s[1..] + t;
      HelpersAppend(s[1..], t);
    }
  }

  /** Removing a loaded object from the scene removes it from the loaded objects ... */
  lemma {:induction false} ModelsRemove(s: seq<Node>, o: Object3D)
    ensures Models(RemoveFirst(s, Model(o))) == RemoveFirst(Models(s), o)
  {
    if s == [] {
    } else if s[0] == Model(o) {
      var m := Models(s[1..]);
      assert Models(s) == [o] + m;
      assert ([o] + m)[1..] == m;
    } else {
      var rest := RemoveFirst(s[1..], Model(o));
      var head := if s[0].Model? then [s[0].obj] else [];
      assert RemoveFirst(s, Model(o)) == [s[0]] + rest;
      ModelsRemove(s[1..], o);
      ModelsAppend([s[0]], rest);
      assert Models([s[0]]) == head;
      assert Models(s) == head + Models(s[1..]);
      RemoveFirstSkipsPrefix(head, Models(s[1..]), o);
    }
  }

  /** Removing an element not in a prefix happens in the suffix. */
  lemma {:induction false} RemoveFirstSkipsPrefix<T>(p: seq<T>, s: seq<T>, x: T)
    requires x !in p
    ensures RemoveFirst(p + s, x) == p + RemoveFirst(s, x)
  {
    if p == [] {
      assert p + s == s;
    } else {
      assert (p + s)[0] == p[0];
      assert (p + s)[1..] == p[1..] + s;
      RemoveFirstSkipsPrefix(p[1..], s, x);
    }
  }

  /** ... and leaves the grids and axes as they were. */
  lemma {:induction false} HelpersRemove(s: seq<Node>, o: Object3D)
    ensures Helpers(RemoveFirst(s, Model(o))) == Helpers(s)
  {
    if s == [] {
    } else if s[0] == Model(o) {
      assert Helpers(s) == Helpers(s[1..]);
    } else {
      var rest := RemoveFirst(s[1..], Model(o));
      assert RemoveFirst(s, Model(o)) == [s[0]] + rest;
      HelpersRemove(s[1..], o);
      HelpersAppend([s[0]], rest);
      assert Helpers(s) == Helpers([s[0]]) + Helpers(s[1..]);
    }
  }
}
