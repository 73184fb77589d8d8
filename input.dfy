/**
 * The classification of raw browser events into abstract UI events
 * (`getAbstractUIEvent` in game.js): a moment ("start" for a press, "end"
 * for a release) and either a key code or the pointer coordinates.
 */
module Input {
  import opened Basics

  /** The DOM event types the game listens to; anything else is `Other`. */
  datatype EventType = MouseDown | MouseUp | TouchStart | TouchEnd | KeyDown | KeyUp | Other

  /**
   * The parts of a DOM event the game reads: its type, whether its target is
   * the canvas, `keyCode`, `layerX`/`layerY`, and the client coordinates of
   * `changedTouches[0]`.
   */
  datatype RawEvent = RawEvent(
    kind: EventType,
    onCanvas: bool,
    keyCode: int,
    layerX: real,
    layerY: real,
    touchX: real,
    touchY: real)

  /** The `moment` of an abstract event: "start" (a press) or "end" (a release). */
  datatype Moment = Start | End

  /** The abstract event: `{type: "keyboard", data.keyCode}` or `{type: "mousetouch", data.coords}`. */
  datatype AbstractEvent =
    | Keyboard(moment: Moment, keyCode: int)
    | MouseTouch(moment: Moment, x: real, y: real)

  predicate IsPress(k: EventType) {
    k == MouseDown || k == TouchStart || k == KeyDown
  }

  predicate IsRelease(k: EventType) {
    k == MouseUp || k == TouchEnd || k == KeyUp
  }

  predicate IsKey(k: EventType) {
    k == KeyDown || k == KeyUp
  }

  /**
   * `getAbstractUIEvent`: `null` for any other event type; presses are
   * "start" and releases "end"; key events keep their key code; a touch end
   * takes its coordinates from the changed touch, every other pointer event
   * from `layerX`/`layerY`.
   */
  function GetAbstractUIEvent(e: RawEvent): (ae: Option<AbstractEvent>)
    ensures ae.None? <==> e.kind == Other
    ensures ae.Some? ==> (ae.value.moment == Start <==> IsPress(e.kind))
    ensures ae.Some? ==> (ae.value.Keyboard? <==> IsKey(e.kind))
    ensures ae.Some? && ae.value.Keyboard? ==> ae.value.keyCode == e.keyCode
    ensures ae.Some? && ae.value.MouseTouch? ==>
      (ae.value.x, ae.value.y) == if e.kind == TouchEnd then (e.touchX, e.touchY) else (e.layerX, e.layerY)
  {
    var moment :=
      if IsPress(e.kind) then Some(Start)
      else if IsRelease(e.kind) then Some(End)
      else None;
    match moment
    case None => None
    case Some(m) =>
      if IsKey(e.kind) then Some(Keyboard(m, e.keyCode))
      else if e.kind == TouchEnd then Some(MouseTouch(m, e.touchX, e.touchY))
      else Some(MouseTouch(m, e.layerX, e.layerY))
  }

  /** The release that ends each kind of press. */
  function ReleaseOf(k: EventType): EventType {
    match k
    case MouseDown => MouseUp
    case TouchStart => TouchEnd
    case KeyDown => KeyUp
    case _ => Other
  }

  /**
   * A press and its matching release are classified alike, as the same kind
   * of abstract event with opposite moments, and the six listened-to types
   * are exactly the presses and their releases.
   */
  lemma PressReleasePair(press: RawEvent, release: RawEvent)
    requires IsPress(press.kind) && release.kind == ReleaseOf(press.kind)
    ensures GetAbstractUIEvent(press).Some? && GetAbstractUIEvent(release).Some?
    ensures GetAbstractUIEvent(press).value.moment == Start
    ensures GetAbstractUIEvent(release).value.moment == End
    ensures GetAbstractUIEvent(press).value.Keyboard? == GetAbstractUIEvent(release).value.Keyboard?
  {
  }

  /** The keys that act as a press of the button or a flap: Enter, Space, Up arrow and W. */
  predicate AcceptedKey(code: int) {
    code == 13 || code == 32 || code == 38 || code == 87
  }

  /**
   * The first guard of `onUIEvent`: a pointer event counts only when it
   * targets the canvas, a key event only for an accepted key.
   */
  predicate Accepted(e: RawEvent, ae: AbstractEvent) {
    match ae
    case MouseTouch(_, _, _) => e.onCanvas
    case Keyboard(_, code) => AcceptedKey(code)
  }
}
