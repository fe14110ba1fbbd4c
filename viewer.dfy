/** `ModelViewerComponent`: the viewer's state and the operations that change it.
    Rendering is counted; `requestAnimationFrame` adds a pending tick; an OBJ request
    adds a pending load, which the host later completes with a part tree or fails. */
module Viewer {
  import opened Wrappers
  import opened HexColor
  import opened Locator
  import opened Materials
  import opened SceneGraph

  class ModelViewer {
    var isAnimating: bool
    var currentObject: Object3D?
    var selectedColor: int
    var scene: seq<Node>
    /** Calls of `WebGLRenderer.render`. */
    var renderCount: nat
    /** Frame callbacks scheduled with `requestAnimationFrame` that have not run yet. */
    var pendingTicks: nat
    /** Locators of OBJ requests whose callbacks have not run yet. */
    var pendingLoads: seq<string>

    /** At most one loaded object is in the scene, and it is the current one. */
    predicate Valid()
      reads this`scene, this`currentObject
    {
      Models(scene) == [] || (currentObject != null && Models(scene) == [currentObject])
    }

    /** While animation is on, a frame callback is waiting, so the loop keeps going. */
    predicate LoopAlive()
      reads this`isAnimating, this`pendingTicks
    {
      isAnimating ==> pendingTicks >= 1
    }

    /** One frame's work was done: one render, and one rotation step about x and y of
        the current object, if there is one. */
    twostate predicate FrameDone()
      reads this`currentObject, this`renderCount, currentObject
    {
      currentObject == old(currentObject) &&
      renderCount == old(renderCount) + 1 &&
      (currentObject != null ==>
        currentObject.rotX == old(currentObject.rotX) + 1 &&
        currentObject.rotY == old(currentObject.rotY) + 1 &&
        currentObject.tree == old(currentObject.tree))
    }

    /** No render happened and the current object did not move. */
    twostate predicate NoFrame()
      reads this`currentObject, this`renderCount, currentObject
    {
      currentObject == old(currentObject) &&
      renderCount == old(renderCount) &&
      (currentObject != null ==> unchanged(currentObject))
    }

    /** The field initialisers of the component. */
    constructor ()
      ensures Valid()
      ensures isAnimating && currentObject == null && selectedColor == DefaultColor
      ensures scene == [] && renderCount == 0 && pendingTicks == 0 && pendingLoads == []
    {
      isAnimating := true;
      currentObject := null;
      selectedColor := DefaultColor;
      scene := [];
      renderCount := 0;
      pendingTicks := 0;
      pendingLoads := [];
    }

    /** Sets up the scene, requests the default shape and adds the reference geometry. */
    method NgOnInit()
      requires Valid()
      modifies this`scene, this`pendingTicks, this`renderCount, this`pendingLoads, currentObject
      ensures Valid() && LoopAlive()
      ensures scene == CartesianNodes()
      ensures pendingLoads == old(pendingLoads) + [Endpoint + DefaultShape]
      ensures old(isAnimating) ==> pendingTicks == old(pendingTicks) + 1 && FrameDone()
      ensures !old(isAnimating) ==> pendingTicks == old(pendingTicks) && NoFrame()
    {
      InitThreeJS();
      label initialised:
      ChangeShape(Text("cube"));
      TextArgumentRequestsCube("cube");
      AddCartesianGrid();
      assert unchanged@initialised(this`renderCount, this`pendingTicks, this`currentObject);
      assert currentObject != null ==> unchanged@initialised(currentObject);
    }

    /** Adds the three reference grids and the axes helper. */
    method AddCartesianGrid()
      requires Valid()
      modifies this`scene
      ensures Valid()
      ensures scene == old(scene) + CartesianNodes()
      ensures Models(scene) == Models(old(scene))
      ensures Helpers(scene) == Helpers(old(scene)) + CartesianNodes()
    {
      scene := scene + [Grid(XY)];
      scene := scene + [Grid(XZ)];
      scene := scene + [Grid(YZ)];
      scene := scene + [Axes];
      assert scene == old(scene) + CartesianNodes();
      assert Models(CartesianNodes()) == [];
      ModelsAppend(old(scene), CartesianNodes());
      HelpersAppend(old(scene), CartesianNodes());
    }

    /** Selects the colour spelt by `value` and, if an object is loaded, recolours it
        and renders once, whether or not the animation runs. */
    method ChangeColor(value: string)
      requires IsHexNumeral(value)
      modifies this`selectedColor, this`renderCount, currentObject
      ensures selectedColor == ColorValue(value)
      ensures currentObject == null ==> renderCount == old(renderCount)
      ensures currentObject != null ==>
        renderCount == old(renderCount) + 1 &&
        currentObject.tree == Recolor(old(currentObject.tree), selectedColor) &&
        MeshesColored(currentObject.tree, selectedColor) &&
        SameShape(old(currentObject.tree), currentObject.tree) &&
        currentObject.rotX == old(currentObject.rotX) &&
        currentObject.rotY == old(currentObject.rotY)
    {
      var colorValue := ColorValue(value);
      selectedColor := colorValue;
      if currentObject != null {
        ApplyFaceColors(currentObject);
        RenderScene();
      }
    }

    method RenderScene()
      modifies this`renderCount
      ensures renderCount == old(renderCount) + 1
    {
      renderCount := renderCount + 1;
    }

    /** Creates an empty scene and starts the render loop. */
    method InitThreeJS()
      modifies this`scene, this`pendingTicks, this`renderCount, currentObject
      ensures Valid() && LoopAlive()
      ensures scene == []
      ensures old(isAnimating) ==> pendingTicks == old(pendingTicks) + 1 && FrameDone()
      ensures !old(isAnimating) ==> pendingTicks == old(pendingTicks) && NoFrame()
    {
      scene := [];
      Animate();
    }

    /** One step of the render loop: while animating, schedule the next frame, rotate
        and render; otherwise do nothing. */
    method Animate()
      modifies this`pendingTicks, this`renderCount, currentObject
      ensures old(LoopAlive()) ==> LoopAlive()
      ensures isAnimating ==> pendingTicks == old(pendingTicks) + 1 && FrameDone()
      ensures !isAnimating ==> pendingTicks == old(pendingTicks) && NoFrame()
    {
      if isAnimating {
        pendingTicks := pendingTicks + 1;
        Update();
        renderCount := renderCount + 1;
      }
    }

    /** Rotates the current object, if any, one step about y and one about x. */
    method Update()
      modifies currentObject
      ensures currentObject != null ==>
        currentObject.rotX == old(currentObject.rotX) + 1 &&
        currentObject.rotY == old(currentObject.rotY) + 1 &&
        currentObject.tree == old(currentObject.tree)
    {
      if currentObject != null {
        currentObject.rotY := currentObject.rotY + 1;
        currentObject.rotX := currentObject.rotX + 1;
      }
    }

    /** Requests the shape named by the argument's `value`. */
    method ChangeShape(arg: ShapeArg)
      modifies this`pendingLoads
      ensures pendingLoads == old(pendingLoads) + [ObjUrl(ValueOf(arg))]
    {
      LoadObj(ValueOf(arg));
    }

    /** Issues the OBJ request; nothing else happens until its callback runs. */
    method LoadObj(shapeType: Option<string>)
      modifies this`pendingLoads
      ensures pendingLoads == old(pendingLoads) + [ObjUrl(shapeType)]
    {
      var objUrl := ObjUrl(shapeType);
      pendingLoads := pendingLoads + [objUrl];
    }

    /** The success callback of the pending load `i`, with the parsed part tree: the
        previous object leaves the scene, the new one is coloured, made current, added,
        and the scene is rendered once. */
    method OnLoadSuccess(i: nat, tree: Part) returns (obj: Object3D)
      requires Valid() && i < |pendingLoads|
      modifies this`scene, this`currentObject, this`renderCount, this`pendingLoads
      ensures Valid()
      ensures fresh(obj) && currentObject == obj
      ensures obj.tree == Recolor(tree, selectedColor) && obj.rotX == 0 && obj.rotY == 0
      ensures scene == Detach(old(scene), old(currentObject)) + [Model(obj)]
      ensures Models(scene) == [obj]
      ensures old(currentObject) != null ==> Model(old(currentObject)) !in scene
      ensures Helpers(scene) == Helpers(old(scene))
      ensures MeshesColored(obj.tree, selectedColor) && SameShape(tree, obj.tree)
      ensures renderCount == old(renderCount) + 1
      ensures pendingLoads == old(pendingLoads[..i] + pendingLoads[i + 1..])
    {
      pendingLoads := pendingLoads[..i] + pendingLoads[i + 1..];
      obj := new Object3D(tree);
      Swap(scene, currentObject, obj);
      if currentObject != null {
        scene := RemoveFirst(scene, Model(currentObject));
      }
      ApplyFaceColors(obj);
      currentObject := obj;
      scene := scene + [Model(obj)];
      RenderScene();
    }

    /** The error callback of the pending load `i`: the failure is logged and nothing
        in the viewer changes. */
    method OnLoadError(i: nat)
      requires i < |pendingLoads|
      modifies this`pendingLoads
      ensures pendingLoads == old(pendingLoads[..i] + pendingLoads[i + 1..])
    {
      pendingLoads := pendingLoads[..i] + pendingLoads[i + 1..];
    }

    /** Gives every mesh of `obj` a material of the selected colour. */
    method ApplyFaceColors(obj: Object3D)
      modifies obj
      ensures obj.tree == Recolor(old(obj.tree), selectedColor)
      ensures MeshesColored(obj.tree, selectedColor) && SameShape(old(obj.tree), obj.tree)
      ensures obj.rotX == old(obj.rotX) && obj.rotY == old(obj.rotY)
    {
      RecolorColorsMeshes(obj.tree, selectedColor);
      RecolorKeepsShape(obj.tree, selectedColor);
      obj.tree := Recolor(obj.tree, selectedColor);
    }

    method StopAnimation()
      modifies this`isAnimating
      ensures !isAnimating
    {
      isAnimating := false;
    }

    /** Restarts the loop if it was stopped, running one tick at once; otherwise a no-op. */
    method StartAnimation()
      modifies this`isAnimating, this`pendingTicks, this`renderCount, currentObject
      ensures isAnimating
      ensures old(LoopAlive()) ==> LoopAlive()
      ensures old(isAnimating) ==> pendingTicks == old(pendingTicks) && NoFrame()
      ensures !old(isAnimating) ==> LoopAlive() && pendingTicks == old(pendingTicks) + 1 && FrameDone()
    {
      if !isAnimating {
        isAnimating := true;
        Animate();
      }
    }

    /** The host runs one scheduled frame callback, which is a call of `animate`. */
    method RunPendingTick()
      requires pendingTicks > 0
      modifies this`pendingTicks, this`renderCount, currentObject
      ensures old(LoopAlive()) ==> LoopAlive()
      ensures isAnimating ==> pendingTicks == old(pendingTicks) && FrameDone()
      ensures !isAnimating ==> pendingTicks == old(pendingTicks) - 1 && NoFrame()
    {
      pendingTicks := pendingTicks - 1;
      Animate();
    }
  }
}
