/** A scene (src/Classes/Scene.cpp): game objects stored by name, a camera
    and an active flag. Rendering draws every object, in map order, with the
    camera's view and projection. The camera's own numerics are not part of
    this model: its view and projection are the matrices it holds. */
module Scenes {
  import opened Linear
  import opened Ordering
  import opened GameObjects

  class Camera {
    var view: Mat4
    var projection: Mat4

    constructor(view: Mat4, projection: Mat4)
      ensures this.view == view && this.projection == projection
    {
      this.view := view;
      this.projection := projection;
    }
  }

  /** Every object can be drawn: it has a mesh and a material, and its model
      matrix matches its transform. */
  ghost predicate Drawable(objects: map<string, GameObject>)
    reads objects.Values
  {
    forall n :: n in objects ==> objects[n].Valid() && objects[n].mesh != null && objects[n].material != null
  }

  class Scene {
    var gameObjects: map<string, GameObject>
    var camera: Camera?
    var isActive: bool

    /** An active scene without objects. The camera is never initialised, so
        it starts out arbitrary. */
    constructor()
      ensures gameObjects == map[] && isActive
    {
      gameObjects := map[];
      var undefined: Camera? := *;
      camera := undefined;
      isActive := true;
    }

    constructor WithCamera(newCamera: Camera?)
      ensures gameObjects == map[] && camera == newCamera && isActive
    {
      gameObjects := map[];
      camera := newCamera;
      isActive := true;
    }

    /** Stores `obj` under `name`, replacing any object already there. */
    method AddGameObject(name: string, obj: GameObject)
      modifies this
      ensures gameObjects == old(gameObjects)[name := obj]
      ensures camera == old(camera) && isActive == old(isActive)
    {
      gameObjects := gameObjects[name := obj];
    }

    /** The scene's objects as they are now. */
    function GetGameObjects(): (objects: map<string, GameObject>)
      reads this
      ensures objects == gameObjects
    {
      gameObjects
    }

    method SetCamera(cam: Camera?)
      modifies this
      ensures camera == cam && gameObjects == old(gameObjects) && isActive == old(isActive)
    {
      camera := cam;
    }

    function GetCamera(): (cam: Camera?)
      reads this
      ensures cam == camera
    {
      camera
    }

    /** The scene can be rendered: its objects can be drawn, and it has a
        camera when it has objects (the camera is dereferenced once per
        object). */
    ghost predicate Renderable()
      reads this, gameObjects.Values
    {
      Drawable(gameObjects) && (gameObjects != map[] ==> camera != null)
    }

    /** `calls` draws every object once, in ascending name order, with the
        camera's view and projection. */
    ghost predicate DrawnBy(calls: seq<DrawCall>)
      requires Renderable()
      reads this, camera, gameObjects.Values
    {
      var names := SortedNames(gameObjects.Keys);
      |calls| == |names|
      && forall i :: 0 <= i < |calls| ==>
           names[i] in gameObjects && camera != null
           && calls[i] == gameObjects[names[i]].Draw(camera.view, camera.projection)
    }

    /** Draws every object once, in ascending name order, with the camera's
        view and projection. */
    method RenderScene() returns (calls: seq<DrawCall>)
      requires Renderable()
      ensures |calls| == |gameObjects| && DrawnBy(calls)
    {
      var names := SortedNames(gameObjects.Keys);
      calls := [];
      for i := 0 to |names|
        invariant |calls| == i
        invariant forall j :: 0 <= j < i ==> camera != null && calls[j] == gameObjects[names[j]].Draw(camera.view, camera.projection)
      {
        var obj := gameObjects[names[i]];
        calls := calls + [obj.Draw(camera.view, camera.projection)];
      }
    }
  }

  /** The names a scene is drawn in are ascending and distinct, and name every
      object of the scene, so each object is drawn exactly once. */
  lemma RenderOrder(objects: map<string, GameObject>)
    ensures |SortedNames(objects.Keys)| == |objects|
    ensures forall n :: n in objects <==> n in SortedNames(objects.Keys)
    ensures forall j, k :: 0 <= j < k < |objects| ==>
              Below(SortedNames(objects.Keys)[j], SortedNames(objects.Keys)[k])
  {
    SortedNamesIncreasing(objects.Keys);
    assert objects.Keys == set n | n in objects;
  }
}
