/**
 * The alert store of `AlertContext.tsx`: one state cell holding the ordered
 * list of active alerts, overwritten by `addAlert`, `removeAlert` and
 * `clearAlerts`, and the `useAlert` accessor that fails outside a provider.
 *
 * Each update of the cell is a pure function of the previous list (the
 * functional form of `setAlerts`); the class `AlertStore` holds the cell and
 * its methods replace it by those functions.
 */
module AlertContext {
  import opened Wrappers

  /** The four alert categories; `type` in the source. */
  datatype AlertType = Success | Error | Warning | Info

  /**
   * One alert record. `id` is the millisecond timestamp taken when the
   * alert was added, so two records may share it.
   */
  datatype Alert = Alert(id: int, title: string, message: string, kind: AlertType)

  /** Message of the error thrown by `useAlert` outside a provider. */
  const MissingProviderMessage: string := "useAlert must be used within an AlertProvider"

  // ---------------------------------------------------------------------
  // Pure updates of the list
  // ---------------------------------------------------------------------

  /** The record `addAlert(title, message, kind)` creates at time `now`. */
  function NewAlert(now: int, title: string, message: string, kind: AlertType): (a: Alert)
    ensures a.id == now && a.title == title && a.message == message && a.kind == kind
  {
    Alert(id := now, message := message, kind := kind, title := title)
  }

  /** The list after `addAlert`: the previous list with `a` spread-appended. */
  function Appended(alerts: seq<Alert>, a: Alert): (r: seq<Alert>)
    ensures |r| == |alerts| + 1
    ensures r[..|alerts|] == alerts
    ensures r[|alerts|] == a
  {
    alerts + [a]
  }

  /**
   * The list after `removeAlert(id)`: the previous list filtered to the
   * records whose id differs from `id`.
   */
  function Removed(alerts: seq<Alert>, id: int): (r: seq<Alert>)
    ensures |r| <= |alerts|
    ensures forall a :: a in r <==> a in alerts && a.id != id
    decreases |alerts|
  {
    if alerts == [] then []
    else (if alerts[0].id != id then [alerts[0]] else []) + Removed(alerts[1..], id)
  }

  /** The list after `clearAlerts`, and the store's initial list. */
  function Cleared(): (r: seq<Alert>)
    ensures |r| == 0
  {
    []
  }

  /** How many records carry `id`. */
  function CountId(alerts: seq<Alert>, id: int): (n: nat)
    ensures n <= |alerts|
    ensures n == 0 <==> forall a :: a in alerts ==> a.id != id
    decreases |alerts|
  {
    if alerts == [] then 0
    else (if alerts[0].id == id then 1 else 0) + CountId(alerts[1..], id)
  }

  /** `sub` can be obtained from `s` by deleting elements (matched greedily). */
  predicate IsSubsequence(sub: seq<Alert>, s: seq<Alert>)
    decreases |s|
  {
    sub == [] ||
    (s != [] &&
     if sub[0] == s[0] then IsSubsequence(sub[1..], s[1..]) else IsSubsequence(sub, s[1..]))
  }

  // ---------------------------------------------------------------------
  // The provider's state cell
  // ---------------------------------------------------------------------

  /** The `alerts` state cell of one `AlertProvider`. */
  class AlertStore {
    var alerts: seq<Alert>

    /** A provider mounts with the empty list. */
    constructor ()
      ensures alerts == []
    {
      alerts := [];
    }

    /** `addAlert(title, message, kind)` with `Date.now()` supplied as `now`. */
    method AddAlert(title: string, message: string, kind: AlertType, now: int)
      modifies this
      ensures alerts == Appended(old(alerts), NewAlert(now, title, message, kind))
      ensures |alerts| == |old(alerts)| + 1 && alerts[..|old(alerts)|] == old(alerts)
      ensures alerts[|old(alerts)|] == Alert(now, title, message, kind)
    {
      var newAlert := NewAlert(now, title, message, kind);
      alerts := Appended(alerts, newAlert);
    }

    /** `removeAlert(id)`: drops every record with that id, keeps the rest in order. */
    method RemoveAlert(id: int)
      modifies this
      ensures alerts == Removed(old(alerts), id)
      ensures forall a :: a in alerts <==> a in old(alerts) && a.id != id
      ensures |alerts| == |old(alerts)| - CountId(old(alerts), id)
    {
      RemovedLength(alerts, id);
      alerts := Removed(alerts, id);
    }

    /** `clearAlerts()`: the list becomes empty whatever it held. */
    method ClearAlerts()
      modifies this
      ensures alerts == Cleared() && alerts == []
    {
      alerts := Cleared();
    }
  }

  /**
   * `useAlert()`: the value of the nearest provider, or the usage error
   * when there is none.
   */
  function UseAlert(context: Option<AlertStore>): (r: Result<AlertStore, string>)
    ensures r.Err? <==> context.None?
    ensures context.Some? ==> r == Ok(context.value)
    ensures r.Err? ==> r.error == MissingProviderMessage
  {
    match context
    case None => Err(MissingProviderMessage)
    case Some(store) => Ok(store)
  }

  // ---------------------------------------------------------------------
  // Properties of the updates
  // ---------------------------------------------------------------------

  /** Removal distributes over concatenation: relative order is kept exactly. */
  lemma {:induction false} RemovedConcat(xs: seq<Alert>, ys: seq<Alert>, id: int)
    ensures Removed(xs + ys, id) == Removed(xs, id) + Removed(ys, id)
    decreases |xs|
  {
    if xs == [] {
      assert xs + ys == ys;
    } else {
      assert (xs + ys)[1..] == xs[1..] + ys;
      RemovedConcat(xs[1..], ys, id);
    }
  }

  /** The length drops by exactly the number of records carrying `id`. */
  lemma {:induction false} RemovedLength(alerts: seq<Alert>, id: int)
    ensures |Removed(alerts, id)| == |alerts| - CountId(alerts, id)
    decreases |alerts|
  {
    if alerts != [] {
      RemovedLength(alerts[1..], id);
    }
  }

  /** With exactly one record carrying `id`, removal shortens the list by one. */
  lemma RemovedUniqueShortensByOne(alerts: seq<Alert>, id: int)
    requires CountId(alerts, id) == 1
    ensures |Removed(alerts, id)| == |alerts| - 1
  {
    RemovedLength(alerts, id);
  }

  /** Removing an id that no record carries leaves the list unchanged. */
  lemma {:induction false} RemovedAbsent(alerts: seq<Alert>, id: int)
    requires forall a :: a in alerts ==> a.id != id
    ensures Removed(alerts, id) == alerts
    decreases |alerts|
  {
    if alerts != [] {
      assert alerts[0] in alerts;
      assert forall a :: a in alerts[1..] ==> a in alerts;
      RemovedAbsent(alerts[1..], id);
      assert alerts == [alerts[0]] + alerts[1..];
    }
  }

  /** Applying `removeAlert(id)` twice is the same as applying it once. */
  lemma RemovedIdempotent(alerts: seq<Alert>, id: int)
    ensures Removed(Removed(alerts, id), id) == Removed(alerts, id)
  {
    RemovedAbsent(Removed(alerts, id), id);
  }

  /** The filtered list is a subsequence of the original one. */
  lemma {:induction false} RemovedIsSubsequence(alerts: seq<Alert>, id: int)
    ensures IsSubsequence(Removed(alerts, id), alerts)
    decreases |alerts|
  {
    if alerts != [] {
      var rest := Removed(alerts[1..], id);
      RemovedIsSubsequence(alerts[1..], id);
      if alerts[0].id != id {
        assert Removed(alerts, id) == [alerts[0]] + rest;
        assert ([alerts[0]] + rest)[1..] == rest;
      } else {
        assert Removed(alerts, id) == rest;
        if rest != [] {
          assert rest[0] in rest;
          assert rest[0] != alerts[0];
        }
      }
    }
  }

  /**
   * Every record is kept as often as it occurred, unless it carries `id`,
   * in which case no copy is left.
   */
  lemma {:induction false} RemovedMultiplicity(alerts: seq<Alert>, id: int, a: Alert)
    ensures multiset(Removed(alerts, id))[a] == if a.id == id then 0 else multiset(alerts)[a]
    decreases |alerts|
  {
    if alerts != [] {
      RemovedMultiplicity(alerts[1..], id, a);
      assert alerts == [alerts[0]] + alerts[1..];
      assert multiset(alerts) == multiset([alerts[0]]) + multiset(alerts[1..]);
    }
  }

  /** Appending a record and removing its id equals removing the id beforehand. */
  lemma RemoveAfterAppend(alerts: seq<Alert>, a: Alert)
    ensures Removed(Appended(alerts, a), a.id) == Removed(alerts, a.id)
  {
    RemovedConcat(alerts, [a], a.id);
  }

  /**
   * Two `addAlert` calls in the same millisecond give two records with one
   * id, both kept in order; one `removeAlert` with that id deletes both.
   */
  lemma SameTimestampRemovedTogether(alerts: seq<Alert>, now: int,
                                     t1: string, m1: string, k1: AlertType,
                                     t2: string, m2: string, k2: AlertType)
    ensures var twice := Appended(Appended(alerts, NewAlert(now, t1, m1, k1)), NewAlert(now, t2, m2, k2));
            && |twice| == |alerts| + 2
            && twice[|alerts|].id == twice[|alerts| + 1].id == now
            && CountId(twice, now) == CountId(alerts, now) + 2
            && Removed(twice, now) == Removed(alerts, now)
  {
    var a1, a2 := NewAlert(now, t1, m1, k1), NewAlert(now, t2, m2, k2);
    var twice := Appended(Appended(alerts, a1), a2);
    assert twice == alerts + [a1, a2];
    RemovedConcat(alerts, [a1, a2], now);
    RemovedLength(twice, now);
    RemovedLength(alerts, now);
  }

  /**
   * `addAlert("T1", "M1", success)` then `addAlert("T2", "M2", error)` on
   * an empty store give exactly those two records, in call order.
   */
  lemma TwoAddsKeepCallOrder(now1: int, now2: int)
    ensures var s := Appended(Appended(Cleared(), NewAlert(now1, "T1", "M1", Success)),
                              NewAlert(now2, "T2", "M2", Error));
            && |s| == 2
            && s[0] == Alert(now1, "T1", "M1", Success)
            && s[1] == Alert(now2, "T2", "M2", Error)
  {
  }

  /**
   * A dismissal timer that fires after `clearAlerts` (it is never
   * cancelled) is harmless: when no later record reuses its id, the list
   * is left as it is.
   */
  lemma LateRemovalAfterClear(later: seq<Alert>, stale: int)
    requires forall a :: a in later ==> a.id != stale
    ensures Removed(Cleared() + later, stale) == later
  {
    assert Cleared() + later == later;
    RemovedAbsent(later, stale);
  }
}
