/**
 * The list renderer `Alerts` (`components/Alerts.tsx`): its prop
 * defaults, the screen anchor chosen by `position`, and how each stored
 * alert becomes the props of one `Alert` item.
 */
module AlertsComponent {
  import opened Wrappers
  import opened AlertContext
  import opened AlertComponent

  /** The six screen anchors of the list. */
  datatype Position = TopLeft | TopRight | BottomLeft | BottomRight | CenterTop | CenterBottom

  /** A CSS length used by the anchor styles: `0` or a percentage. */
  datatype Length = Zero | Percent(p: nat)

  /** The CSS transform used by the centred anchors. */
  const CenterTransform: string := "translateX(-50%)"

  /** The anchor part of the container style; an unset property is `None`. */
  datatype PositionStyle = PositionStyle(
    top: Option<Length>,
    bottom: Option<Length>,
    left: Option<Length>,
    right: Option<Length>,
    transform: Option<string>)

  predicate IsTop(p: Position) { p == TopLeft || p == TopRight || p == CenterTop }
  predicate IsLeft(p: Position) { p == TopLeft || p == BottomLeft }
  predicate IsRight(p: Position) { p == TopRight || p == BottomRight }
  predicate IsCenter(p: Position) { p == CenterTop || p == CenterBottom }

  /** `positionStyle`: the anchor properties for each position. */
  function PositionStyleOf(p: Position): (s: PositionStyle)
    // exactly one vertical edge, at 0
    ensures s.top == (if IsTop(p) then Some(Zero) else None)
    ensures s.bottom == (if IsTop(p) then None else Some(Zero))
    // "*-left" and "*-right" pin that edge; the centred ones sit at 50% shifted back
    ensures s.left == (if IsLeft(p) then Some(Zero) else if IsCenter(p) then Some(Percent(50)) else None)
    ensures s.right == (if IsRight(p) then Some(Zero) else None)
    ensures s.transform == (if IsCenter(p) then Some(CenterTransform) else None)
    ensures s.left.Some? != s.right.Some?
  {
    match p
    case BottomLeft => PositionStyle(None, Some(Zero), Some(Zero), None, None)
    case BottomRight => PositionStyle(None, Some(Zero), None, Some(Zero), None)
    case TopLeft => PositionStyle(Some(Zero), None, Some(Zero), None, None)
    case TopRight => PositionStyle(Some(Zero), None, None, Some(Zero), None)
    case CenterTop => PositionStyle(Some(Zero), None, Some(Percent(50)), None, Some(CenterTransform))
    case CenterBottom => PositionStyle(None, Some(Zero), Some(Percent(50)), None, Some(CenterTransform))
  }

  /** The props `Alerts` receives; an omitted optional prop is `None`. */
  datatype AlertsProps = AlertsProps(
    position: Option<Position>,
    direction: Option<Direction>,
    timer: Option<int>)

  /** The props after the destructuring defaults have been applied. */
  datatype AlertsConfig = AlertsConfig(position: Position, direction: Direction, timer: int)

  /** Destructuring with `position = "top-right"`, `direction = "right"`, `timer = 3000`. */
  function ListWithDefaults(p: AlertsProps): (c: AlertsConfig)
    ensures p.position.None? ==> c.position == TopRight
    ensures p.position.Some? ==> c.position == p.position.value
    ensures p.direction.None? ==> c.direction == Right
    ensures p.direction.Some? ==> c.direction == p.direction.value
    ensures p.timer.None? ==> c.timer == 3000
    ensures p.timer.Some? ==> c.timer == p.timer.value
  {
    AlertsConfig(p.position.GetOr(TopRight), p.direction.GetOr(Right), p.timer.GetOr(3000))
  }

  /** What one `<Alert>` element receives: its React key and its props. */
  datatype ItemElement = ItemElement(key: int, props: AlertProps)

  /** The element for the alert at index `i` of the store. */
  function ItemFor(a: Alert, i: int, direction: Direction, timer: int): ItemElement {
    ItemElement(a.id, AlertProps(a.id, a.title, a.message, i, Some(a.kind), Some(timer), Some(direction)))
  }

  /**
   * `alerts.map((alert, i) => <Alert ... />)`: one element per stored
   * alert, in store order, each told its index, its id and the shared
   * direction and timer.
   */
  function RenderItems(alerts: seq<Alert>, direction: Direction, timer: int): (items: seq<ItemElement>)
    ensures |items| == |alerts|
    ensures forall i :: 0 <= i < |alerts| ==>
      && items[i].key == alerts[i].id
      && items[i].props.idElement == alerts[i].id
      && items[i].props.idDelay == i
      && items[i].props.title == alerts[i].title
      && items[i].props.message == alerts[i].message
      && items[i].props.kind == Some(alerts[i].kind)
      && items[i].props.duration == Some(timer)
      && items[i].props.direction == Some(direction)
    decreases |alerts|
  {
    if alerts == [] then []
    else
      var n := |alerts| - 1;
      RenderItems(alerts[..n], direction, timer) + [ItemFor(alerts[n], n, direction, timer)]
  }

  /**
   * On one render, the timer that the item at index `i` schedules has
   * delay `timer + i * 500` ms and removes its own alert's id; the item
   * shows that alert's title, message and category.
   */
  lemma DismissalSchedule(alerts: seq<Alert>, props: AlertsProps, i: int)
    requires 0 <= i < |alerts|
    ensures var c := ListWithDefaults(props);
            var item := WithDefaults(RenderItems(alerts, c.direction, c.timer)[i].props);
            && DismissTimer(item) == Timer(c.timer + i * 500, alerts[i].id)
            && item.title == alerts[i].title && item.message == alerts[i].message
            && item.kind == alerts[i].kind
            && item.direction == c.direction
  {
  }

  /**
   * Adding an alert leaves the elements of the earlier alerts as they were
   * (same key, same index, same timer) and adds one element at the end.
   */
  lemma RenderAfterAppend(alerts: seq<Alert>, a: Alert, direction: Direction, timer: int)
    ensures RenderItems(Appended(alerts, a), direction, timer)
            == RenderItems(alerts, direction, timer) + [ItemFor(a, |alerts|, direction, timer)]
  {
  }
}
