/** The actor registry: a process-wide dictionary from actor object to the
    record the compute shader reads, bounded at four entries, and the
    derivation of that record from an actor's type and settings.

    The static dictionary and the change delegate become one value, `Registry`,
    passed explicitly; an actor object is identified by an `ActorId`. */
module UniverseActor {
  import opened Datatypes

  /** The hard limit on the number of registered actors. */
  const ActorCountLimit: nat := 4

  /** The identity of an actor object (its reference). */
  type ActorId = nat

  /** The dictionary plus whether any listener is subscribed to the
      change delegate (the delegate may be null). */
  datatype Registry = Registry(actors: map<ActorId, ActorData>, hasListener: bool)

  /** How a call to DictUpdate ended. */
  datatype Outcome =
    | Added           // registered a new actor
    | AlreadyPresent  // enable on an actor already registered: nothing happens
    | LimitReached    // enable while the dictionary is full: a warning is logged
    | Removed         // disable on a registered actor
    | NotPresent      // disable on an actor that is not registered: nothing happens

  datatype UpdateResult = UpdateResult(registry: Registry, outcome: Outcome, notified: bool)

  /** Whether an outcome changed the dictionary. */
  predicate Changes(o: Outcome) {
    o == Added || o == Removed
  }

  predicate WithinLimit(r: Registry) {
    |r.actors| <= ActorCountLimit
  }

  /** The record an actor registers: its position, a force vector that is
      forward * force for a LinearForce actor and zero otherwise, and a mass
      that is +mass for an Attractor, -mass for a Repeller and 0 for a
      LinearForce actor. */
  function Init(kind: ActorType, position: Vec3, forward: Vec3, force: real, mass: real): (a: ActorData)
    ensures a.position == position
    ensures kind == LinearForce ==> a.force == forward.Scale(force)
    ensures kind != LinearForce ==> a.force == Zero3
    ensures kind == Attractor ==> a.mass == mass
    ensures kind == Repeller ==> a.mass == -mass
    ensures kind == LinearForce ==> a.mass == 0.0
  {
    var forceVector := if kind == LinearForce then forward.Scale(force) else Zero3;
    var m := if kind == Attractor || kind == Repeller then mass else 0.0;
    var m' := m * (if kind == Repeller then -1.0 else 1.0);
    ActorData(position, forceVector, m')
  }

  /** An Attractor and a Repeller set up with the same settings are mirror
      images: same position, no force vector, and opposite masses. */
  lemma RepellerMirrorsAttractor(position: Vec3, forward: Vec3, force: real, mass: real)
    ensures Init(Repeller, position, forward, force, mass).position
            == Init(Attractor, position, forward, force, mass).position
    ensures Init(Repeller, position, forward, force, mass).force
            == Init(Attractor, position, forward, force, mass).force == Zero3
    ensures Init(Repeller, position, forward, force, mass).mass
            == -Init(Attractor, position, forward, force, mass).mass
  {
  }

  /** Registers (`enable`) or deregisters (`!enable`) the actor `self` with
      the record `data`, and notifies the listener when the dictionary changed. */
  function DictUpdate(r: Registry, self: ActorId, data: ActorData, enable: bool): (u: UpdateResult)
    ensures u.registry.hasListener == r.hasListener
    ensures enable && self !in r.actors && |r.actors| < ActorCountLimit ==>
              u.outcome == Added && u.registry.actors == r.actors[self := data]
    ensures enable && self !in r.actors && |r.actors| >= ActorCountLimit ==>
              u.outcome == LimitReached && u.registry.actors == r.actors
    ensures enable && self in r.actors ==>
              u.outcome == AlreadyPresent && u.registry.actors == r.actors
    ensures !enable && self in r.actors ==>
              u.outcome == Removed && u.registry.actors == r.actors - {self}
    ensures !enable && self !in r.actors ==>
              u.outcome == NotPresent && u.registry.actors == r.actors
    ensures u.notified <==> Changes(u.outcome) && r.hasListener
  {
    var (actors, outcome) :=
      if enable then
        if self in r.actors then (r.actors, AlreadyPresent)
        else if |r.actors| >= ActorCountLimit then (r.actors, LimitReached)
        else (r.actors[self := data], Added)
      else
        if self in r.actors then (r.actors - {self}, Removed)
        else (r.actors, NotPresent);
    var changed := outcome == Added || outcome == Removed;
    UpdateResult(Registry(actors, r.hasListener), outcome, changed && r.hasListener)
  }

  /** No call ever takes the dictionary past the limit. */
  lemma DictUpdateKeepsLimit(r: Registry, self: ActorId, data: ActorData, enable: bool)
    requires WithinLimit(r)
    ensures WithinLimit(DictUpdate(r, self, data, enable).registry)
  {
    var u := DictUpdate(r, self, data, enable);
    if u.outcome == Removed {
      assert u.registry.actors.Keys == r.actors.Keys - {self};
    }
  }

  /** The outcome says "changed" exactly when the dictionary is a different
      map afterwards; so, with a listener, the notification fires if and only
      if the dictionary changed. */
  lemma NotifiedIffChanged(r: Registry, self: ActorId, data: ActorData, enable: bool)
    requires r.hasListener
    ensures (DictUpdate(r, self, data, enable).notified
             <==> DictUpdate(r, self, data, enable).registry.actors != r.actors)
  {
    var u := DictUpdate(r, self, data, enable);
    if u.outcome == Added {
      assert self in u.registry.actors && self !in r.actors;
    } else if u.outcome == Removed {
      assert self !in u.registry.actors && self in r.actors;
    }
  }

  /** Re-registering an actor keeps the record it registered first: its
      stored data is not refreshed. */
  lemma ReRegisterKeepsData(r: Registry, self: ActorId, data: ActorData)
    requires self in r.actors && r.actors[self] != data
    ensures DictUpdate(r, self, data, true).registry.actors[self] == r.actors[self]
    ensures !DictUpdate(r, self, data, true).notified
  {
  }

  /** One OnEnable (true) or OnDisable (false) event of an actor. */
  datatype Event = Event(self: ActorId, data: ActorData, enable: bool)

  /** The registry after a sequence of enable/disable events. */
  function Replay(r: Registry, events: seq<Event>): Registry
    decreases |events|
  {
    if |events| == 0 then r
    else
      var e := events[0];
      Replay(DictUpdate(r, e.self, e.data, e.enable).registry, events[1..])
  }

  /** The limit is an invariant of every history of enables and disables. */
  lemma {:induction false} ReplayKeepsLimit(r: Registry, events: seq<Event>)
    requires WithinLimit(r)
    ensures WithinLimit(Replay(r, events))
    decreases |events|
  {
    if |events| > 0 {
      var e := events[0];
      DictUpdateKeepsLimit(r, e.self, e.data, e.enable);
      ReplayKeepsLimit(DictUpdate(r, e.self, e.data, e.enable).registry, events[1..]);
    }
  }

  /** With the limit reached, no enable can get a new actor in, whoever asks. */
  lemma {:induction false} FullRegistryRejects(r: Registry, events: seq<Event>)
    requires |r.actors| == ActorCountLimit
    requires forall i :: 0 <= i < |events| ==> events[i].enable
    ensures Replay(r, events).actors == r.actors
    decreases |events|
  {
    if |events| > 0 {
      var e := events[0];
      FullRegistryRejects(DictUpdate(r, e.self, e.data, e.enable).registry, events[1..]);
    }
  }
}
