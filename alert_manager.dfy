/** The alert store and notifier: a set of accepted alerts and an ordered list of listeners.
    Listener callbacks are recorded: every `onAlert` call as a Notification in `notifications`,
    and every call that threw (and was caught and reported) in `errors`. */
module AlertManagement {
  import opened Wrappers
  import opened Records
  import opened Seqs

  /** A registered listener, identified as the list compares it. */
  datatype Listener = Listener(id: nat)

  /** One `onAlert(alert)` call made on `listener`. */
  datatype Notification = Notification(listener: Listener, alert: Alert)

  const NullAlertMessage := "Alert cannot be null"

  /** The calls made when `a` is announced to the listeners `ls`, in list order. */
  function Deliveries(ls: seq<Listener>, a: Alert): seq<Notification>
  {
    if ls == [] then [] else Deliveries(ls[..|ls| - 1], a) + [Notification(ls[|ls| - 1], a)]
  }

  /** The calls among those that threw, given the listeners that throw on this alert. */
  function Failures(ls: seq<Listener>, failing: set<Listener>, a: Alert): seq<Notification>
  {
    if ls == [] then []
    else Failures(ls[..|ls| - 1], failing, a)
         + (if ls[|ls| - 1] in failing then [Notification(ls[|ls| - 1], a)] else [])
  }

  /** The k-th call goes to the k-th listener: registration order is delivery order. */
  lemma {:induction false} DeliveriesInOrder(ls: seq<Listener>, a: Alert)
    ensures |Deliveries(ls, a)| == |ls|
    ensures forall k :: 0 <= k < |ls| ==> Deliveries(ls, a)[k] == Notification(ls[k], a)
  {
    if ls != [] {
      DeliveriesInOrder(ls[..|ls| - 1], a);
    }
  }

  /** A listener is called once per registration, and one that is not registered is never called. */
  lemma {:induction false} DeliveryCount(ls: seq<Listener>, a: Alert, l: Listener)
    ensures multiset(Deliveries(ls, a))[Notification(l, a)] == multiset(ls)[l]
  {
    if ls != [] {
      var n := |ls| - 1;
      DeliveryCount(ls[..n], a, l);
      assert ls == ls[..n] + [ls[n]];
      assert multiset(ls) == multiset(ls[..n]) + multiset{ls[n]};
    }
  }

  /** `List.remove(Object)`: drop the first occurrence, keep the rest in order. */
  function RemoveFirst(ls: seq<Listener>, l: Listener): seq<Listener>
  {
    if ls == [] then []
    else if ls[0] == l then ls[1..]
    else [ls[0]] + RemoveFirst(ls[1..], l)
  }

  /** The position of the first occurrence of `l`. */
  function IndexOf(ls: seq<Listener>, l: Listener): (k: nat)
    requires l in ls
    ensures k < |ls| && ls[k] == l && l !in ls[..k]
  {
    if ls[0] == l then 0 else 1 + IndexOf(ls[1..], l)
  }

  /** Removing a listener cuts out exactly its first occurrence. */
  lemma {:induction false} RemoveFirstAt(ls: seq<Listener>, l: Listener)
    requires l in ls
    ensures RemoveFirst(ls, l) == ls[..IndexOf(ls, l)] + ls[IndexOf(ls, l) + 1..]
  {
    if ls[0] != l {
      RemoveFirstAt(ls[1..], l);
      var k := IndexOf(ls[1..], l);
      assert ls[..k + 1] == [ls[0]] + ls[1..][..k];
      assert ls[k + 2..] == ls[1..][k + 1..];
    }
  }

  /** Removing a listener that is not registered changes nothing. */
  lemma {:induction false} RemoveFirstAbsent(ls: seq<Listener>, l: Listener)
    requires l !in ls
    ensures RemoveFirst(ls, l) == ls
  {
    if ls != [] {
      RemoveFirstAbsent(ls[1..], l);
      assert ls == [ls[0]] + ls[1..];
    }
  }

  /** Exactly one registration of `l` goes, when there is one. */
  lemma RemoveFirstMultiset(ls: seq<Listener>, l: Listener)
    ensures multiset(RemoveFirst(ls, l)) == multiset(ls) - multiset{l}
  {
    if l in ls {
      RemoveFirstAt(ls, l);
      var k := IndexOf(ls, l);
      assert ls == ls[..k] + [ls[k]] + ls[k + 1..];
      assert multiset(ls) == multiset(ls[..k]) + multiset{l} + multiset(ls[k + 1..]);
    } else {
      RemoveFirstAbsent(ls, l);
    }
  }

  /** A listener registered once and then removed is not called for a later alert. */
  lemma RemovedListenerNotNotified(ls: seq<Listener>, l: Listener, a: Alert)
    requires multiset(ls)[l] == 1
    ensures Notification(l, a) !in Deliveries(RemoveFirst(ls, l), a)
  {
    RemoveFirstMultiset(ls, l);
    DeliveryCount(RemoveFirst(ls, l), a, l);
  }

  class AlertManager {
    /** Compared as values; the source compares alerts by reference. */
    var alerts: set<Alert>
    var listeners: seq<Listener>
    var notifications: seq<Notification>
    var errors: seq<Notification>

    constructor ()
      ensures alerts == {} && listeners == [] && notifications == [] && errors == []
    {
      alerts, listeners := {}, [];
      notifications, errors := [], [];
    }

    /** Accepts an alert not seen before and calls every listener once, in order; a listener
        that throws (one in `failing`) is reported and the remaining ones are still called. */
    method HandleAlert(alert: Option<Alert>, failing: set<Listener>) returns (r: Result<()>)
      modifies this
      ensures listeners == old(listeners)
      ensures alert.None? ==> r == Err(IllegalArgument(NullAlertMessage))
      ensures alert.None? || alert.value in old(alerts) ==>
                alerts == old(alerts) && notifications == old(notifications) && errors == old(errors)
      ensures alert.Some? ==> r == Ok(()) && alerts == old(alerts) + {alert.value}
      ensures alert.Some? && alert.value !in old(alerts) ==>
                notifications == old(notifications) + Deliveries(listeners, alert.value)
                && errors == old(errors) + Failures(listeners, failing, alert.value)
    {
      if alert.None? {
        return Err(IllegalArgument(NullAlertMessage));
      }
      var a := alert.value;
      if a !in alerts {
        alerts := alerts + {a};
        NotifyListeners(a, failing);
      }
      r := Ok(());
    }

    method AddListener(listener: Listener)
      modifies this`listeners
      ensures listeners == old(listeners) + [listener]
    {
      listeners := listeners + [listener];
    }

    method RemoveListener(listener: Listener)
      modifies this`listeners
      ensures listeners == RemoveFirst(old(listeners), listener)
    {
      listeners := RemoveFirst(listeners, listener);
    }

    /** A copy of the accepted alerts, each once. */
    method GetAllAlerts() returns (r: seq<Alert>)
      ensures forall a :: a in r <==> a in alerts
      ensures Distinct(r) && |r| == |alerts|
    {
      r := [];
      var remaining := alerts;
      while remaining != {}
        invariant remaining <= alerts
        invariant forall a :: a in r <==> a in alerts && a !in remaining
        invariant Distinct(r)
        invariant |r| + |remaining| == |alerts|
        decreases remaining
      {
        var a :| a in remaining;
        r := r + [a];
        remaining := remaining - {a};
      }
    }

    /** The accepted alerts of one patient, each once. */
    method GetAlertsForPatient(patientId: int) returns (r: seq<Alert>)
      ensures forall a :: a in r <==> a in alerts && a.patientId == patientId
      ensures Distinct(r)
    {
      r := [];
      var remaining := alerts;
      while remaining != {}
        invariant remaining <= alerts
        invariant forall a :: a in r <==> a in alerts && a !in remaining && a.patientId == patientId
        invariant Distinct(r)
        decreases remaining
      {
        var a :| a in remaining;
        if a.patientId == patientId {
          r := r + [a];
        }
        remaining := remaining - {a};
      }
    }

    method ClearAlerts()
      modifies this`alerts
      ensures alerts == {}
    {
      alerts := {};
    }

    method NotifyListeners(alert: Alert, failing: set<Listener>)
      modifies this`notifications, this`errors
      ensures notifications == old(notifications) + Deliveries(listeners, alert)
      ensures errors == old(errors) + Failures(listeners, failing, alert)
    {
      var i := 0;
      while i < |listeners|
        invariant 0 <= i <= |listeners|
        invariant notifications == old(notifications) + Deliveries(listeners[..i], alert)
        invariant errors == old(errors) + Failures(listeners[..i], failing, alert)
      {
        var listener := listeners[i];
        assert listeners[..i + 1][..i] == listeners[..i];
        notifications := notifications + [Notification(listener, alert)];
        if listener in failing {
          errors := errors + [Notification(listener, alert)];
        }
        i := i + 1;
      }
      assert listeners[..i] == listeners;
    }
  }
}
