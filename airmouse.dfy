/** The airmouse controller of the PDF viewer: orientation samples from the sensor
    pan the document while the palm faces down and zoom it while the palm faces
    up. Each sample is compared with the previous one (the origin); a change of
    palm direction or a click only resets the origin. Floats are idealised as
    reals. */
module Airmouse {
  import opened Sdk

  const MAX_ZOOM: real := 14.0
  const MIN_ZOOM: real := 1.0
  const ZOOM_THRESHOLD: real := 0.01
  const PAN_FACTOR: real := 25.0
  const ZOOM_FACTOR: real := 0.025

  /** What the controller asks of the PDF view. */
  datatype ViewOp =
    | MoveRelativeTo(dx: real, dy: real)
    | ZoomCenteredRelativeTo(dzoom: real, pivotX: int, pivotY: int)
    | Invalidate
    | LoadPages

  /** The PDF view: the requests it receives, and its zoom, which a centred
      relative zoom scales by its factor. The size is the viewer library's. */
  class PdfView {
    var zoom: real
    var width: nat
    var height: nat
    var ops: seq<ViewOp>

    constructor (w: nat, h: nat, z: real)
      ensures zoom == z && width == w && height == h && ops == []
    {
      zoom, width, height, ops := z, w, h, [];
    }

    method Apply(op: ViewOp)
      modifies this
      ensures ops == old(ops) + [op]
      ensures op.ZoomCenteredRelativeTo? ==> zoom == old(zoom) * op.dzoom
      ensures !op.ZoomCenteredRelativeTo? ==> zoom == old(zoom)
      ensures width == old(width) && height == old(height)
    {
      ops := ops + [op];
      if op.ZoomCenteredRelativeTo? {
        zoom := zoom * op.dzoom;
      }
    }
  }

  /** `wrapDx`: the horizontal angle difference taken the short way round when the
      angle wraps between -180 and 180 degrees. */
  function WrapDx(dx: real): (r: real)
    ensures -360.0 <= dx <= 360.0 ==> -180.0 <= r <= 180.0
    ensures -180.0 <= dx <= 180.0 ==> r == dx
    ensures r == dx || r == dx - 360.0 || r == dx + 360.0
  {
    if dx > 180.0 then dx - 360.0
    else if dx < -180.0 then dx + 360.0
    else dx
  }

  /** The zoom guard of `onMove`: a step `zoom` (the view is scaled by `1 - zoom`)
      is applied only if it is larger than the threshold and moves away from the
      bound the current zoom has reached. */
  function ZoomApplies(zoom: real, current: real): (applies: bool)
    ensures applies <==>
      && (zoom > ZOOM_THRESHOLD || zoom < -ZOOM_THRESHOLD)
      && (1.0 - zoom < 1.0 ==> current > MIN_ZOOM)
      && (1.0 - zoom > 1.0 ==> current < MAX_ZOOM)
  {
    (zoom > ZOOM_THRESHOLD && current > MIN_ZOOM) || (zoom < -ZOOM_THRESHOLD && current < MAX_ZOOM)
  }

  /** What a sample does to the view, by palm direction: pan (down), zoom if the
      guard allows (up), nothing (sideways, inconclusive). `dx`, `dy` are the
      differences from the origin. */
  function Dispatch(palm: PalmDirection, dx: real, dy: real, current: real, width: nat, height: nat): (ops: seq<ViewOp>)
    ensures |ops| <= 1
    ensures (ops != [] && ops[0].MoveRelativeTo?) <==> palm == Downwards
    ensures (ops != [] && ops[0].ZoomCenteredRelativeTo?) <==>
              palm == Upwards && ZoomApplies(dy * ZOOM_FACTOR, current)
    ensures palm == Sideways || palm == Inconclusive ==> ops == []
    ensures ops != [] && ops[0].MoveRelativeTo? ==>
              ops[0] == MoveRelativeTo(dx * -1.0 * PAN_FACTOR, dy * PAN_FACTOR)
    ensures ops != [] && ops[0].ZoomCenteredRelativeTo? ==>
              ops[0] == ZoomCenteredRelativeTo(1.0 - dy * ZOOM_FACTOR, width / 2, height / 2)
  {
    match palm
    case Downwards => [MoveRelativeTo(dx * -1.0 * PAN_FACTOR, dy * PAN_FACTOR)]
    case Upwards =>
      var zoom := dy * ZOOM_FACTOR;
      if ZoomApplies(zoom, current) then [ZoomCenteredRelativeTo(1.0 - zoom, width / 2, height / 2)] else []
    case Sideways => []
    case Inconclusive => []
  }

  /** A zoom-out step (positive) applies only above MIN_ZOOM and lowers the zoom,
      possibly past MIN_ZOOM; a zoom-in step (negative) applies only below MAX_ZOOM
      and raises it, possibly past MAX_ZOOM. At or past a bound, steps further
      past it no longer apply. */
  lemma ZoomStepDirection(zoom: real, current: real)
    requires current > 0.0
    ensures ZoomApplies(zoom, current) && zoom > 0.0 ==>
              current > MIN_ZOOM && current * (1.0 - zoom) < current
    ensures ZoomApplies(zoom, current) && zoom < 0.0 ==>
              current < MAX_ZOOM && current * (1.0 - zoom) > current
    ensures current <= MIN_ZOOM && zoom > 0.0 ==> !ZoomApplies(zoom, current)
    ensures current >= MAX_ZOOM && zoom < 0.0 ==> !ZoomApplies(zoom, current)
  {
    if ZoomApplies(zoom, current) && zoom > 0.0 {
      assert current * zoom > 0.0;
    }
    if ZoomApplies(zoom, current) && zoom < 0.0 {
      assert current * -zoom > 0.0;
    }
  }

  class PDFViewAirmouseAdapter {
    const engine: Engine
    const view: PdfView
    /** Whether (`airmouseX`, `airmouseY`, `airmouseMode`) is an origin to compare with. */
    var valid: bool
    var x: real
    var y: real
    var mode: PalmDirection
    /** `airmouseActive`; `isAirmouseActive()` returns it, and callers read it directly here. */
    var active: bool
    /** A `loadPages` refresh is posted and has not run yet. */
    var refreshPending: bool

    constructor (e: Engine, v: PdfView)
      ensures engine == e && view == v
      ensures !valid && mode == Inconclusive && !active && !refreshPending
    {
      engine := e;
      view := v;
      valid := false;
      x, y := 0.0, 0.0;
      mode := Inconclusive;
      active := false;
      refreshPending := false;
    }

    /** `setAirmouseActive`: start or stop the airmouse, issuing a command only
        when the state actually changes. */
    method SetAirmouseActive(on: bool)
      modifies this, engine
      ensures active == on
      ensures valid == old(valid) && x == old(x) && y == old(y) && mode == old(mode)
      ensures refreshPending == old(refreshPending)
      ensures engine.connection == old(engine.connection) && engine.sensor == old(engine.sensor)
      ensures on == old(active) ==> engine.log == old(engine.log)
      ensures on && !old(active) ==> engine.log == old(engine.log) + [StartAirmouse]
      ensures !on && old(active) ==> engine.log == old(engine.log) + [StopAirmouse]
    {
      if on == active {
        return;
      }
      if on {
        active := true;
        engine.Issue(StartAirmouse);
      } else {
        active := false;
        engine.Issue(StopAirmouse);
      }
    }

    /** Registered while the hosting activity is resumed. */
    method RegisterListeners()
      modifies engine
      ensures engine.log == old(engine.log) + [Register(Listener(AirmouseListener, this))]
    {
      engine.Issue(Register(Listener(AirmouseListener, this)));
    }

    /** Unregistered when it pauses. */
    method UnregisterListeners()
      modifies engine
      ensures engine.log == old(engine.log) + [Unregister(Listener(AirmouseListener, this))]
    {
      engine.Issue(Unregister(Listener(AirmouseListener, this)));
    }

    /** `refreshWhenIdle`: replace any posted refresh by a new one. */
    method RefreshWhenIdle()
      modifies this
      ensures refreshPending
      ensures valid == old(valid) && x == old(x) && y == old(y) && mode == old(mode) && active == old(active)
    {
      refreshPending := true;
    }

    /** The posted refresh runs: the view reloads its pages. */
    method RunRefresher()
      requires refreshPending
      modifies this, view
      ensures !refreshPending && view.ops == old(view.ops) + [LoadPages]
      ensures view.zoom == old(view.zoom) && view.width == old(view.width) && view.height == old(view.height)
      ensures valid == old(valid) && x == old(x) && y == old(y) && mode == old(mode) && active == old(active)
    {
      view.Apply(LoadPages);
      refreshPending := false;
    }

    /** `onMove`: a new sample. Without an origin, or when the palm direction
        changed, the sample only becomes the origin; otherwise the difference to the
        origin pans or zooms the view and the sample becomes the new origin. */
    method OnMove(nx: real, ny: real, palm: PalmDirection)
      modifies this, view
      ensures x == nx && y == ny && valid && mode == palm && active == old(active)
      ensures view.width == old(view.width) && view.height == old(view.height)
      ensures !old(valid) || palm != old(mode) ==>
                view.ops == old(view.ops) + [Invalidate] && refreshPending == old(refreshPending)
                && view.zoom == old(view.zoom)
      ensures old(valid) && palm == old(mode) ==>
                var ops := Dispatch(palm, WrapDx(old(x) - nx), old(y) - ny, old(view.zoom), view.width, view.height);
                && view.ops == old(view.ops) + ops + [Invalidate]
                && refreshPending == (old(refreshPending) || ops != [])
                && view.zoom == (if ops != [] && ops[0].ZoomCenteredRelativeTo? then old(view.zoom) * ops[0].dzoom
                                 else old(view.zoom))
    {
      if !valid || palm != mode {
        x := nx;
        y := ny;
        valid := true;
        mode := palm;
        view.Apply(Invalidate);
        return;
      }
      var dx := WrapDx(x - nx);
      var dy := y - ny;
      match palm {
        case Downwards =>
          view.Apply(MoveRelativeTo(dx * -1.0 * PAN_FACTOR, dy * PAN_FACTOR));
          RefreshWhenIdle();
        case Upwards =>
          var zoom := dy * ZOOM_FACTOR;
          if (zoom > ZOOM_THRESHOLD && view.zoom > MIN_ZOOM) || (zoom < -ZOOM_THRESHOLD && view.zoom < MAX_ZOOM) {
            view.Apply(ZoomCenteredRelativeTo(1.0 - zoom, view.width / 2, view.height / 2));
            RefreshWhenIdle();
          }
        case Sideways =>
        case Inconclusive =>
      }
      x := nx;
      y := ny;
      view.Apply(Invalidate);
    }

    /** `onClick`: the origin is dropped and the airmouse restarted, which resets
        the sensor's origin; the next sample only sets the new origin. */
    method OnClick()
      modifies this, engine
      ensures !valid && x == old(x) && y == old(y) && mode == old(mode) && active == old(active)
      ensures refreshPending == old(refreshPending)
      ensures engine.log == old(engine.log) + [StartAirmouse]
    {
      valid := false;
      engine.Issue(StartAirmouse);
    }
  }
}
