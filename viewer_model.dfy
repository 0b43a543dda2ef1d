// packages/viewer/python/itkviewer/model.py: the configuration records behind
// the Python viewer, with their defaults. Pydantic's validation of untyped
// input is not modelled; the record types fix the field sets, so no extra
// field can be present.
module ViewerModel {
  import opened JsCommon

  /** The actions that can be taken when an actor receives an unknown event. */
  datatype UnknownEventAction = Ignore | Warn | Error

  /** The string value of each member (the enum derives from `str`). */
  function ActionValue(a: UnknownEventAction): (s: string)
    ensures |s| >= 4
  {
    match a
    case Ignore => "Ignore"
    case Warn => "Warn"
    case Error => "Error"
  }

  /** Looking a member up by value: exactly the three values name a member. */
  function ParseAction(s: string): (r: Option<UnknownEventAction>)
    ensures r.Some? <==> s in {"Ignore", "Warn", "Error"}
  {
    if s == "Ignore" then Some(Ignore)
    else if s == "Warn" then Some(Warn)
    else if s == "Error" then Some(Error)
    else None
  }

  /** The value of a member names that member, and a value that names a member is its value. */
  lemma ActionRoundTrip(a: UnknownEventAction, s: string)
    ensures ParseAction(ActionValue(a)) == Some(a)
    ensures ParseAction(s).Some? ==> ActionValue(ParseAction(s).value) == s
  {
  }

  /** The Zarr store parameters an image may come from, each with its literal `type` tag. */
  datatype StoreModel =
    | Store
    | DirectoryStore(path: string)
    | FSStore(url: string)

  function StoreType(s: StoreModel): string {
    match s
    case Store => "StoreModel"
    case DirectoryStore(_) => "DirectoryStore"
    case FSStore(_) => "FSStore"
  }

  /** Image data: both fields are optional, and nothing makes them exclusive. */
  datatype ImageData = ImageData(imageJson: Option<string>, store: Option<StoreModel>)

  datatype DataManager = DataManager(images: seq<ImageData>, unknownEventAction: Option<UnknownEventAction>)

  datatype Viewer = Viewer(
    title: Option<string>,
    dataManager: Option<DataManager>,
    unknownEventAction: Option<UnknownEventAction>)

  datatype Viewport = Viewport(width: int, height: int, unknownEventAction: Option<UnknownEventAction>)

  datatype Renderer = Renderer(
    viewport: Viewport,
    width: int,
    height: int,
    unknownEventAction: Option<UnknownEventAction>)

  /** The event classes, each fixing its own literal `type` tag. */
  datatype Event =
    | BaseEvent
    | ViewerEvent
    | SetImageEvent(name: Option<string>)
    | RendererEvent
    | RenderEvent

  function EventType(e: Event): string {
    match e
    case BaseEvent => "Event"
    case ViewerEvent => "ViewerEvent"
    case SetImageEvent(_) => "SetImageEvent"
    case RendererEvent => "RendererEvent"
    case RenderEvent => "RenderEvent"
  }

  /** The tags tell the event classes apart, and so do the store tags. */
  lemma TagsDistinct(a: Event, b: Event, s: StoreModel, t: StoreModel)
    ensures EventType(a) == EventType(b) <==>
      (a.BaseEvent? == b.BaseEvent? && a.ViewerEvent? == b.ViewerEvent? && a.SetImageEvent? == b.SetImageEvent?
       && a.RendererEvent? == b.RendererEvent? && a.RenderEvent? == b.RenderEvent?)
    ensures StoreType(s) == StoreType(t) <==>
      (s.Store? == t.Store? && s.DirectoryStore? == t.DirectoryStore? && s.FSStore? == t.FSStore?)
  {
  }

  /** `ImageData()`: no JSON and no store. */
  function DefaultImageData(): (d: ImageData)
    ensures d.imageJson.None? && d.store.None?
  {
    ImageData(None, None)
  }

  /** `DataManager()`: no images. */
  function DefaultDataManager(): (d: DataManager)
    ensures d.images == [] && d.unknownEventAction.None?
  {
    DataManager([], None)
  }

  /** `Viewer()`: the title default is the quoted string "ITK Viewer", quotes included. */
  function DefaultViewer(): (v: Viewer)
    ensures v.title == Some("\"ITK Viewer\"")
    ensures v.dataManager.None? && v.unknownEventAction.None?
  {
    Viewer(Some("\"ITK Viewer\""), None, None)
  }

  /** `Viewport()`: 640 by 480 pixels. */
  function DefaultViewport(): (v: Viewport)
    ensures v.width == 640 && v.height == 480 && v.unknownEventAction.None?
  {
    Viewport(640, 480, None)
  }

  /** `Renderer(viewport=...)`: the viewport is required; the canvas defaults to 640 by 480. */
  function MakeRenderer(viewport: Viewport): (r: Renderer)
    ensures r.viewport == viewport && r.width == 640 && r.height == 480
    ensures r.unknownEventAction.None?
  {
    Renderer(viewport, 640, 480, None)
  }
}
