/**
  `comandosPendentes` is a plain object literal, so reading
  `comandosPendentes[deviceId]` finds not only the mailboxes stored under
  that key but also every member the object inherits from `Object.prototype`.
  This module models the lock/unlock and poll handlers as they are written
  against such an object, and relates them to the own-key mailbox model of
  `Commands`, which is the behaviour the handlers evidently intend.
 */
module PrototypeLookup {
  import opened Commands

  /** Names of the methods an object literal inherits from `Object.prototype`. */
  const InheritedNames: set<string> := {
    "constructor", "hasOwnProperty", "isPrototypeOf", "propertyIsEnumerable",
    "toLocaleString", "toString", "valueOf",
    "__defineGetter__", "__defineSetter__", "__lookupGetter__", "__lookupSetter__"
  }

  /**
    The accessor key: reading it yields `Object.prototype` itself, and
    assigning to it replaces the object's prototype instead of storing a key.
   */
  const ProtoKey: string := "__proto__"

  /**
    The value of `comandosPendentes[key]` while the object still has
    `Object.prototype` as its prototype: a stored list, an inherited method,
    the prototype object itself, or `undefined`.
   */
  datatype Value = List(cmds: seq<Command>) | InheritedMethod | PrototypeObject | Undefined

  function Lookup(own: Mailboxes, key: string): Value {
    if key == ProtoKey then PrototypeObject
    else if key in own then List(own[key])
    else if key in InheritedNames then InheritedMethod
    else Undefined
  }

  /** JavaScript truthiness: every array (even an empty one), function and object is truthy. */
  predicate Truthy(v: Value) {
    !v.Undefined?
  }

  /** A lock/unlock request either stores its command or throws ("push is not a function"). */
  datatype Outcome = Stored(own: Mailboxes) | TypeError

  /**
    The lock/unlock handler as written: create the mailbox when the lookup
    is falsy, then push onto whatever the lookup yields.
   */
  function EnqueueAsWritten(own: Mailboxes, key: string, c: Command): (r: Outcome)
    ensures r.TypeError? <==> key == ProtoKey || (key !in own && key in InheritedNames)
    ensures r.Stored? ==> r.own == Enqueue(own, key, c)
  {
    var own1 := if !Truthy(Lookup(own, key)) then own[key := []] else own;
    match Lookup(own1, key)
    case List(cs) => Stored(own1[key := cs + [c]])
    case _ => TypeError
  }

  /**
    What a poll as written answers in `comandos`, and the object it leaves;
    or, for `__proto__`, the answer and the fact that the object's prototype
    has become an array (the model follows the object no further).
   */
  datatype Polled = Polled(comandos: Value, rest: Mailboxes) | Reparented(comandos: Value)

  /**
    The poll handler as written: `comandosPendentes[key] || []`, then an
    empty list is assigned to `key`. For an inherited name the answer is a
    function, for `__proto__` the prototype object: neither is a list of
    commands.
   */
  function DrainAsWritten(own: Mailboxes, key: string): (r: Polled)
    ensures r.Reparented? <==> key == ProtoKey
    ensures r.comandos.List? <==> !(key == ProtoKey || (key !in own && key in InheritedNames))
    ensures r.comandos.List? ==> r.comandos.cmds == Drain(own, key).comandos
    ensures r.Polled? ==> r.rest == Drain(own, key).rest
  {
    var v := Lookup(own, key);
    var answer := if Truthy(v) then v else List([]);
    if key == ProtoKey then Reparented(answer) else Polled(answer, own[key := []])
  }

  /**
    The discrepancy: a lock request for a device whose id is "constructor"
    throws instead of queueing, while the own-key model queues it.
   */
  lemma LockOnConstructorThrows(now: int)
    ensures EnqueueAsWritten(map[], "constructor", Command(Bloquear, now)) == TypeError
    ensures Pending(Enqueue(map[], "constructor", Command(Bloquear, now)), "constructor") == [Command(Bloquear, now)]
  {
    assert "constructor" in InheritedNames;
  }

  /**
    The handlers as written and the own-key model agree on every id other
    than `__proto__` that is not an inherited name or already has a mailbox.
   */
  lemma AsWrittenMatchesModel(own: Mailboxes, key: string, c: Command)
    requires key != ProtoKey
    requires key in own || key !in InheritedNames
    ensures EnqueueAsWritten(own, key, c) == Stored(Enqueue(own, key, c))
    ensures DrainAsWritten(own, key) == Polled(List(Drain(own, key).comandos), Drain(own, key).rest)
  {
  }

  /**
    An id named like an inherited method can be locked once it has polled:
    the poll stores an own empty list that hides the inherited method.
   */
  lemma LockWorksAfterPoll(own: Mailboxes, key: string, c: Command)
    requires key != ProtoKey
    ensures DrainAsWritten(own, key).Polled?
    ensures EnqueueAsWritten(DrainAsWritten(own, key).rest, key, c)
         == Stored(Enqueue(Drain(own, key).rest, key, c))
  {
  }

  /**
    While the object's prototype is still `Object.prototype` (before any poll
    on `__proto__`), a lock on `__proto__` throws whatever is stored, and a
    poll of it does not answer a list of commands.
   */
  lemma LockOnProtoKeyThrows(own: Mailboxes, c: Command)
    ensures EnqueueAsWritten(own, ProtoKey, c) == TypeError
    ensures !DrainAsWritten(own, ProtoKey).comandos.List?
  {
  }
}
