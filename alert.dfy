/**
 * The per-item rules of the `Alert` component (`components/Alert.tsx`):
 * prop defaults, the dismissal timer its effect schedules (delay and the
 * id it removes), the category colour and the animation offsets.
 */
module AlertComponent {
  import opened Wrappers
  import opened AlertContext

  /** The side an alert slides in from and out to. */
  datatype Direction = Left | Right | Top | Bottom

  /** Defaults of the optional props. */
  const DefaultKind: AlertType := Success
  const DefaultDuration: int := 3000
  const DefaultDirection: Direction := Right

  /** Extra delay, in milliseconds, per position of the item in the list. */
  const Stagger: int := 500

  /** The props an `Alert` receives; an omitted optional prop is `None`. */
  datatype AlertProps = AlertProps(
    idElement: int,
    title: string,
    message: string,
    idDelay: int,
    kind: Option<AlertType>,
    duration: Option<int>,
    direction: Option<Direction>)

  /** The props after the destructuring defaults have been applied. */
  datatype ResolvedProps = ResolvedProps(
    idElement: int,
    title: string,
    message: string,
    idDelay: int,
    kind: AlertType,
    duration: int,
    direction: Direction)

  /** Destructuring with `type = "success"`, `duration = 3000`, `direction = "right"`. */
  function WithDefaults(p: AlertProps): (r: ResolvedProps)
    ensures r.idElement == p.idElement && r.title == p.title
    ensures r.message == p.message && r.idDelay == p.idDelay
    ensures p.kind.None? ==> r.kind == Success
    ensures p.kind.Some? ==> r.kind == p.kind.value
    ensures p.duration.None? ==> r.duration == 3000
    ensures p.duration.Some? ==> r.duration == p.duration.value
    ensures p.direction.None? ==> r.direction == Right
    ensures p.direction.Some? ==> r.direction == p.direction.value
  {
    ResolvedProps(p.idElement, p.title, p.message, p.idDelay,
                  p.kind.GetOr(DefaultKind), p.duration.GetOr(DefaultDuration),
                  p.direction.GetOr(DefaultDirection))
  }

  // ---------------------------------------------------------------------
  // Auto-dismissal
  // ---------------------------------------------------------------------

  /** The delay handed to `setTimeout`: the base duration plus the stagger. */
  function DismissDelay(duration: int, idDelay: int): (d: int)
    ensures idDelay >= 0 ==> d >= duration
    ensures idDelay > 0 ==> d > duration
    ensures idDelay == 0 ==> d == duration
  {
    duration + idDelay * Stagger
  }

  /** Each further position delays the dismissal by a further 500 ms. */
  lemma DismissDelayIncreasing(duration: int, i: int, j: int)
    requires i < j
    ensures DismissDelay(duration, i) < DismissDelay(duration, j)
    ensures DismissDelay(duration, j) - DismissDelay(duration, i) == (j - i) * 500
  {
  }

  /** A one-shot removal: after `delay` ms, `removeAlert(target)`. */
  datatype Timer = Timer(delay: int, target: int)

  /** The timer the mount effect schedules for one item. */
  function DismissTimer(p: ResolvedProps): (t: Timer)
    ensures t.target == p.idElement
    ensures t.delay == DismissDelay(p.duration, p.idDelay)
    ensures p.idDelay >= 0 ==> t.delay >= p.duration
  {
    Timer(DismissDelay(p.duration, p.idDelay), p.idElement)
  }

  /**
   * The timer's callback: `removeAlert(idElement)` on the store that
   * `useAlert` returned. No cleanup cancels it, so it may run after the
   * item has left the list.
   */
  method FireTimer(store: AlertStore, t: Timer)
    modifies store
    ensures store.alerts == Removed(old(store.alerts), t.target)
    ensures forall a :: a in store.alerts <==> a in old(store.alerts) && a.id != t.target
  {
    store.RemoveAlert(t.target);
  }

  /**
   * When an item's timer fires, only the records with the item's own id
   * leave the store; every other record stays, in order.
   */
  lemma TimerRemovesOwnId(alerts: seq<Alert>, p: ResolvedProps, before: seq<Alert>, after: seq<Alert>)
    requires alerts == before + after
    ensures var r := Removed(alerts, DismissTimer(p).target);
            && (forall a :: a in r ==> a.id != p.idElement)
            && r == Removed(before, p.idElement) + Removed(after, p.idElement)
  {
    RemovedConcat(before, after, p.idElement);
  }

  // ---------------------------------------------------------------------
  // Colour
  // ---------------------------------------------------------------------

  /** `colorOfAlert`: the background colour for each category. */
  function ColorOf(kind: AlertType): (c: string)
    ensures |c| == 7 && c[0] == '#'
    ensures forall i :: 1 <= i < |c| ==> c[i] in "0123456789abcdef"
  {
    match kind
    case Success => "#16a34a"
    case Error => "#ef4444"
    case Warning => "#facc15"
    case Info => "#0ea5e9"
  }

  /** The four categories get four different colours. */
  lemma ColorOfInjective(k1: AlertType, k2: AlertType)
    requires k1 != k2
    ensures ColorOf(k1) != ColorOf(k2)
  {
  }

  // ---------------------------------------------------------------------
  // Animation offsets
  // ---------------------------------------------------------------------

  /** A one-axis motion offset: `{ x: n }` or `{ y: n }`. */
  datatype Offset = X(x: int) | Y(y: int)

  /** The signed amount of an offset, whichever its axis. */
  function Amount(o: Offset): int {
    match o
    case X(v) => v
    case Y(v) => v
  }

  /** `directionOfAlert`: where the item enters from and exits to. */
  function EntryOffset(d: Direction): (o: Offset)
    ensures o.X? <==> (d == Left || d == Right)
    ensures Amount(o) == 100 || Amount(o) == -100
    ensures Amount(o) < 0 <==> (d == Left || d == Top)
  {
    match d
    case Left => X(-100)
    case Right => X(100)
    case Top => Y(-100)
    case Bottom => Y(100)
  }

  /** `directionOfAlertXY`: the resting position, on the entry axis. */
  function RestingOffset(d: Direction): (o: Offset)
    ensures o.X? <==> EntryOffset(d).X?
    ensures Amount(o) == 0
  {
    match d
    case Left => X(0)
    case Right => X(0)
    case Top => Y(0)
    case Bottom => Y(0)
  }

  /** A framer-motion target: an offset with an opacity of 0 or 1. */
  datatype MotionState = MotionState(offset: Offset, opacity: int)

  /** `initial`: off-screen on the entry side, transparent. */
  function InitialState(d: Direction): MotionState {
    MotionState(EntryOffset(d), 0)
  }

  /** `animate`: at rest, opaque. */
  function AnimateState(d: Direction): MotionState {
    MotionState(RestingOffset(d), 1)
  }

  /** `exit`: back to where it entered from, transparent. */
  function ExitState(d: Direction): MotionState {
    MotionState(EntryOffset(d), 0)
  }

  /**
   * The item leaves the way it came: the exit state is the initial state,
   * and the resting state differs from it on the same axis only.
   */
  lemma ExitMirrorsEntry(d: Direction)
    ensures ExitState(d) == InitialState(d)
    ensures AnimateState(d).offset.X? == InitialState(d).offset.X?
    ensures AnimateState(d).offset != InitialState(d).offset
    ensures InitialState(d).opacity == 0 && AnimateState(d).opacity == 1
  {
  }
}
