/** The resource locator `loadOBJ` requests: the remote shape endpoint followed by
    the lower-cased shape id, or `cube` when the id is undefined or empty. */
module Locator {
  import opened Wrappers
  import opened Ascii

  const Endpoint: string := "https://fastapi-app-79bt.onrender.com/shapes/"

  /** The shape the locator falls back to. */
  const DefaultShape: string := "cube"

  /** The shapes offered to the shape selector. */
  const Shapes: seq<string> := ["cube", "cone"]

  /** What `changeShape({ value })` receives: a selector event, whose `value` may be
      missing, or a bare string, as `ngOnInit` passes. */
  datatype ShapeArg = Text(text: string) | Event(value: Option<string>)

  /** The `value` the destructuring pattern extracts; a string has no `value` property. */
  function ValueOf(arg: ShapeArg): (v: Option<string>)
    ensures arg.Text? ==> v == None
    ensures arg.Event? ==> v == arg.value
  {
    match arg
    case Text(_) => None
    case Event(v) => v
  }

  /** The path segment naming the shape; an undefined or empty id is falsy and picks the default. */
  function ShapePath(shapeType: Option<string>): (path: string)
    ensures path != [] && NoUpper(path)
    ensures shapeType == None || shapeType == Some("") ==> path == DefaultShape
    ensures shapeType != None && shapeType != Some("") ==> path == Lower(shapeType.value)
  {
    LowerHasNoUpper(if shapeType.Some? then shapeType.value else "");
    if shapeType.None? || shapeType.value == "" then DefaultShape else Lower(shapeType.value)
  }

  function ObjUrl(shapeType: Option<string>): (url: string)
    ensures |url| > |Endpoint| && url[..|Endpoint|] == Endpoint
  {
    Endpoint + ShapePath(shapeType)
  }

  /** Two requests hit the same locator exactly when they name the same path. */
  lemma UrlDeterminesPath(a: Option<string>, b: Option<string>)
    ensures ObjUrl(a) == ObjUrl(b) <==> ShapePath(a) == ShapePath(b)
  {
    if ObjUrl(a) == ObjUrl(b) {
      assert ShapePath(a) == ObjUrl(a)[|Endpoint|..];
      assert ShapePath(b) == ObjUrl(b)[|Endpoint|..];
    }
  }

  /** Every offered shape is requested under its own name. */
  lemma KnownShapesRequestThemselves(k: nat)
    requires k < |Shapes|
    ensures ShapePath(Some(Shapes[k])) == Shapes[k]
  {
    LowerFixedPoints(Shapes[k]);
  }

  /** The case in which a shape id is written does not change the request. */
  lemma PathIgnoresCase(s: string)
    ensures ShapePath(Some(Lower(s))) == ShapePath(Some(s))
  {
    LowerIdempotent(s);
  }

  /** A bare string passed to `changeShape` is not an event: whatever it says, the cube is requested. */
  lemma TextArgumentRequestsCube(s: string)
    ensures ObjUrl(ValueOf(Text(s))) == Endpoint + DefaultShape
  {
  }
}
