/** Runs of the viewer the code admits, driven the way the browser drives it: frame
    callbacks and load callbacks run one at a time, in an order the host chooses. */
module Scenarios {
  import opened Wrappers
  import opened HexColor
  import opened Locator
  import opened Materials
  import opened SceneGraph
  import opened Viewer

  /** The host's frame loop: with animation on, `n` frame callbacks run one
      after another; every callback renders once and turns the current object one step. */
  method RunFrames(v: ModelViewer, n: nat)
    requires v.isAnimating && v.LoopAlive()
    modifies v`pendingTicks, v`renderCount, v.currentObject
    ensures v.LoopAlive() && v.pendingTicks == old(v.pendingTicks)
    ensures v.currentObject == old(v.currentObject)
    ensures v.renderCount == old(v.renderCount) + n
    ensures v.currentObject != null ==>
      v.currentObject.rotX == old(v.currentObject.rotX) + n &&
      v.currentObject.rotY == old(v.currentObject.rotY) + n &&
      v.currentObject.tree == old(v.currentObject.tree)
  {
    var k := 0;
    while k < n
      invariant 0 <= k <= n
      invariant v.LoopAlive() && v.pendingTicks == old(v.pendingTicks)
      invariant v.currentObject == old(v.currentObject)
      invariant v.renderCount == old(v.renderCount) + k
      invariant v.currentObject != null ==>
        v.currentObject.rotX == old(v.currentObject.rotX) + k &&
        v.currentObject.rotY == old(v.currentObject.rotY) + k &&
        v.currentObject.tree == old(v.currentObject.tree)
    {
      v.RunPendingTick();
      k := k + 1;
    }
  }

  /** A fresh component after `ngOnInit`: the grids and the axes in the scene, one render,
      one frame callback queued, the cube requested, nothing loaded. */
  method StartViewer() returns (v: ModelViewer)
    ensures fresh(v) && v.Valid() && v.LoopAlive()
    ensures v.isAnimating && v.currentObject == null && v.selectedColor == DefaultColor
    ensures v.scene == CartesianNodes() && Models(v.scene) == [] && Helpers(v.scene) == CartesianNodes()
    ensures v.renderCount == 1 && v.pendingTicks == 1
    ensures v.pendingLoads == [Endpoint + DefaultShape]
  {
    v := new ModelViewer();
    v.NgOnInit();
    assert Models(CartesianNodes()) == [] && Helpers(CartesianNodes()) == CartesianNodes();
  }

  /** The component after start-up and the cube's response: the object loaded and
      shown unturned, two renders done, one frame callback queued. */
  method LoadedViewer(tree: Part) returns (v: ModelViewer, obj: Object3D)
    ensures fresh(v) && fresh(obj) && v.Valid()
    ensures v.isAnimating && v.currentObject == obj
    ensures v.renderCount == 2 && v.pendingTicks == 1
    ensures obj.rotX == 0 && obj.rotY == 0
  {
    v := StartViewer();
    obj := v.OnLoadSuccess(0, tree);
  }

  /** Stopping and restarting before the queued callback fires leaves two callback
      chains: afterwards each display frame renders twice and turns the object two steps. */
  method StopStartBeforeFrame(tree: Part) returns (pending: nat, renders: nat, steps: int)
    ensures pending == 2
    ensures renders == 5
    ensures steps == 3
  {
    var v, obj := LoadedViewer(tree);
    v.StopAnimation();
    v.StartAnimation();
    assert v.pendingTicks == 2 && obj.rotX == 1;
    v.RunPendingTick();
    v.RunPendingTick();
    pending, renders, steps := v.pendingTicks, v.renderCount, obj.rotX;
  }

  /** With the loop stopped, the queued callback runs without effect and the loop dies
      out; starting again turns the object at once and resumes the loop. */
  method StopThenStart(tree: Part) returns (stoppedRenders: nat, stoppedSteps: int, pending: nat, steps: int)
    ensures stoppedRenders == 2 && stoppedSteps == 0
    ensures pending == 1 && steps == 1
  {
    var v, obj := LoadedViewer(tree);
    v.StopAnimation();
    v.RunPendingTick();
    stoppedRenders, stoppedSteps := v.renderCount, obj.rotX;
    assert v.pendingTicks == 0;
    v.StartAnimation();
    pending, steps := v.pendingTicks, obj.rotX;
  }

  /** Two shape selections after start-up: three OBJ requests are in flight, the
      cube's from `ngOnInit` first, and none has changed the scene yet. */
  method TwoSelections(first: string, second: string) returns (requested: seq<string>, objects: nat)
    ensures requested == [Endpoint + DefaultShape, ObjUrl(Some(first)), ObjUrl(Some(second))]
    ensures objects == 0
  {
    var v := RequestTwoShapes(first, second);
    requested, objects := v.pendingLoads, |Models(v.scene)|;
  }

  /** Two shapes requested one after the other, `first` and then `second` (the cone and
      then the cube, say): the callbacks run in whatever order the responses arrive, and
      the shape whose response comes last is the one shown, alone, whichever was
      requested last. */
  method LateResponseWins(first: string, second: string, firstTree: Part, secondTree: Part)
    returns (shown: Part, objects: nat)
    ensures shown == Recolor(firstTree, DefaultColor)
    ensures objects == 1
  {
    var v := RequestTwoShapes(first, second);
    var firstObj := DeliverNewestFirst(v, firstTree, secondTree);
    shown, objects := Models(v.scene)[0].tree, |Models(v.scene)|;
  }

  /** The viewer after start-up and two shape requests: three loads outstanding, no
      object loaded, the default colour selected. */
  method RequestTwoShapes(first: string, second: string) returns (v: ModelViewer)
    ensures fresh(v) && v.Valid()
    ensures v.pendingLoads == [Endpoint + DefaultShape, ObjUrl(Some(first)), ObjUrl(Some(second))]
    ensures Models(v.scene) == [] && v.selectedColor == DefaultColor
  {
    v := StartViewer();
    label started:
    ghost var cube := v.pendingLoads[0];
    v.ChangeShape(Event(Some(first)));
    assert v.pendingLoads == [cube, ObjUrl(Some(first))];
    v.ChangeShape(Event(Some(second)));
    assert v.pendingLoads == [cube, ObjUrl(Some(first))] + [ObjUrl(Some(second))];
    assert unchanged@started(v`scene, v`currentObject, v`selectedColor);
  }

  /** The third load's response arrives, then the second's: the second's object is the
      one left in the scene. */
  method DeliverNewestFirst(v: ModelViewer, firstTree: Part, secondTree: Part) returns (firstObj: Object3D)
    requires v.Valid() && |v.pendingLoads| == 3
    modifies v`scene, v`currentObject, v`renderCount, v`pendingLoads
    ensures firstObj.tree == Recolor(firstTree, v.selectedColor)
    ensures v.selectedColor == old(v.selectedColor)
    ensures Models(v.scene) == [firstObj]
  {
    var secondObj := v.OnLoadSuccess(2, secondTree);
    assert |v.pendingLoads| == 2;
    firstObj := v.OnLoadSuccess(1, firstTree);
  }

  /** The cube's load fails, then Magenta is selected: the error leaves the scene and
      the counters alone, and a colour change with nothing loaded renders nothing. */
  method FailedLoadChangesNothing() returns (renders: nat, color: int, objects: nat, helpers: seq<Node>)
    ensures renders == 1
    ensures color == 0xff00ff
    ensures objects == 0
    ensures helpers == CartesianNodes()
  {
    var v: ModelViewer := StartViewer();
    label started:
    v.OnLoadError(0);
    PaletteRoundTrip(1);
    v.ChangeColor(ToHex(Palette[1].1, 6));
    assert unchanged@started(v`scene, v`currentObject);
    renders, color, objects, helpers := v.renderCount, v.selectedColor, |Models(v.scene)|, Helpers(v.scene);
  }
}
