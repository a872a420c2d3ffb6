/**
 * Alert-aware chasing: a chase task whose priority is forced high while the
 * latest signal that reached one of its listeners was "alert". All the
 * task's listeners share one flag, and a signal sent before the first poll
 * has registered a listener changes nothing.
 * Each priority poll registers the two signal listeners on every alert
 * caller again, without removing duplicates.
 */
module AlertableChase {
  import opened Wrappers

  type EntityId = nat

  /** An entity of the world as the poll sees it: its identity and its type tag (None for null). */
  datatype WorldEntity = WorldEntity(id: EntityId, entityType: Option<string>)

  datatype Signal = Alert | UnAlert

  /** A listener registered on an entity's event handler for one signal. */
  datatype Listener = Listener(entity: EntityId, signal: Signal)

  const AlertCallerType := "AlertCaller"

  /** The priority reported while alerted. */
  const AlertedPriority := 10

  /** The type tag is non-null and equals "AlertCaller". */
  predicate IsAlertCaller(e: WorldEntity)
  {
    e.entityType == Some(AlertCallerType)
  }

  /** The two listeners one poll adds to an entity. */
  function ListenersFor(e: WorldEntity): seq<Listener>
  {
    if IsAlertCaller(e) then [Listener(e.id, Alert), Listener(e.id, UnAlert)] else []
  }

  /** The listeners one poll adds, in the order of the entity enumeration. */
  function Registrations(entities: seq<WorldEntity>): seq<Listener>
  {
    if entities == [] then []
    else Registrations(entities[..|entities| - 1]) + ListenersFor(entities[|entities| - 1])
  }

  /** Only alert callers receive listeners in a poll, and each receives both. */
  lemma {:induction false} RegistrationsFromAlertCallers(entities: seq<WorldEntity>)
    ensures forall l :: l in Registrations(entities) ==>
              exists e :: e in entities && IsAlertCaller(e) && l.entity == e.id
    ensures forall e :: e in entities && IsAlertCaller(e) ==>
              Listener(e.id, Alert) in Registrations(entities) && Listener(e.id, UnAlert) in Registrations(entities)
  {
    if entities != [] {
      var init := entities[..|entities| - 1];
      RegistrationsFromAlertCallers(init);
      assert forall e :: e in init ==> e in entities;
      assert entities == init + [entities[|entities| - 1]];
    }
  }

  /** Registering one more entity of the enumeration appends that entity's listeners. */
  lemma RegistrationsStep(entities: seq<WorldEntity>, i: int)
    requires 0 <= i < |entities|
    ensures Registrations(entities[..i + 1]) == Registrations(entities[..i]) + ListenersFor(entities[i])
  {
    assert entities[..i + 1][..i] == entities[..i];
  }

  /** The number of alert callers among the entities. */
  function AlertCallerCount(entities: seq<WorldEntity>): nat
  {
    if entities == [] then 0
    else AlertCallerCount(entities[..|entities| - 1]) + (if IsAlertCaller(entities[|entities| - 1]) then 1 else 0)
  }

  /** One poll adds exactly two listeners per alert caller. */
  lemma {:induction false} RegistrationsCount(entities: seq<WorldEntity>)
    ensures |Registrations(entities)| == 2 * AlertCallerCount(entities)
  {
    if entities != [] {
      RegistrationsCount(entities[..|entities| - 1]);
    }
  }

  /** Polling n times over the same entities leaves 2 * n * k more listeners, k the number of alert callers. */
  function RepeatedRegistrations(entities: seq<WorldEntity>, polls: nat): seq<Listener>
  {
    if polls == 0 then [] else RepeatedRegistrations(entities, polls - 1) + Registrations(entities)
  }

  lemma {:induction false} RepeatedRegistrationsCount(entities: seq<WorldEntity>, polls: nat)
    ensures |RepeatedRegistrations(entities, polls)| == polls * (2 * AlertCallerCount(entities))
  {
    if polls > 0 {
      var perPoll := 2 * AlertCallerCount(entities);
      RepeatedRegistrationsCount(entities, polls - 1);
      RegistrationsCount(entities);
      assert (polls - 1) * perPoll + perPoll == polls * perPoll;
    }
  }

  /** The flag after one handler runs: alerted() sets it, unAlerted() clears it. */
  function Handle(alerted: bool, s: Signal): bool
  {
    s == Alert
  }

  /** The flag after a sequence of signals is delivered, in order. */
  function AlertedAfter(alerted: bool, signals: seq<Signal>): bool
    decreases signals
  {
    if signals == [] then alerted else AlertedAfter(Handle(alerted, signals[0]), signals[1..])
  }

  /** The last signal delivered decides the flag. */
  lemma {:induction false} LastSignalWins(alerted: bool, signals: seq<Signal>)
    requires signals != []
    ensures AlertedAfter(alerted, signals) == (signals[|signals| - 1] == Alert)
    decreases signals
  {
    if |signals| > 1 {
      LastSignalWins(Handle(alerted, signals[0]), signals[1..]);
    }
  }

  class AlertableChaseTask {
    var alerted: bool
    /** The listeners this task has added to entities' event handlers, in order. */
    var listeners: seq<Listener>

    constructor ()
      ensures !alerted && listeners == []
    {
      alerted := false;
      listeners := [];
    }

    /** The "alert" handler. */
    method Alerted()
      modifies this`alerted
      ensures alerted == Handle(old(alerted), Alert)
    {
      alerted := true;
    }

    /** The "unAlert" handler. */
    method UnAlerted()
      modifies this`alerted
      ensures alerted == Handle(old(alerted), UnAlert)
    {
      alerted := false;
    }

    /**
     * Registers both listeners on every alert caller, then reports 10 when
     * alerted and the inherited chase priority otherwise.
     */
    method GetPriority(entities: seq<WorldEntity>, chasePriority: int) returns (p: int)
      modifies this`listeners
      ensures listeners == old(listeners) + Registrations(entities)
      ensures alerted ==> p == AlertedPriority
      ensures !alerted ==> p == chasePriority
    {
      var i := 0;
      while i < |entities|
        invariant 0 <= i <= |entities|
        invariant listeners == old(listeners) + Registrations(entities[..i])
      {
        var entity := entities[i];
        RegistrationsStep(entities, i);
        if entity.entityType != None && entity.entityType.value == AlertCallerType {
          listeners := listeners + [Listener(entity.id, Alert)];
          listeners := listeners + [Listener(entity.id, UnAlert)];
        }
        i := i + 1;
      }
      assert entities[..i] == entities;
      if alerted {
        return AlertedPriority;
      }
      return chasePriority;
    }

    /**
     * An entity triggers a signal: each of this task's listeners registered
     * on it for that signal runs its handler, however many duplicates there are.
     */
    method Trigger(entity: EntityId, s: Signal)
      modifies this`alerted
      ensures alerted == if Listener(entity, s) in listeners then Handle(old(alerted), s) else old(alerted)
    {
      var i := 0;
      while i < |listeners|
        invariant 0 <= i <= |listeners|
        invariant alerted == if Listener(entity, s) in listeners[..i] then Handle(old(alerted), s) else old(alerted)
      {
        if listeners[i] == Listener(entity, s) {
          if s == Alert {
            Alerted();
          } else {
            UnAlerted();
          }
        }
        assert listeners[..i + 1] == listeners[..i] + [listeners[i]];
        i := i + 1;
      }
      assert listeners[..i] == listeners;
    }
  }
}
