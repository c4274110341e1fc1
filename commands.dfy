/**
  The per-device command mailbox held in `comandosPendentes`: a map from
  device id to the FIFO list of commands that device has not yet collected.
  Lock and unlock requests append to it; a poll drains it.
 */
module Commands {

  /** The `tipo` of a pending command: 'BLOQUEAR' (lock) or 'DESBLOQUEAR' (unlock). */
  datatype Tipo = Bloquear | Desbloquear

  /** One `{ tipo, timestamp }` entry; the timestamp is the `Date.now()` reading of the request. */
  datatype Command = Command(tipo: Tipo, timestamp: int)

  type Mailboxes = map<string, seq<Command>>

  /** The commands waiting for `id`; a device without a mailbox has none. */
  function Pending(m: Mailboxes, id: string): seq<Command> {
    if id in m then m[id] else []
  }

  /**
    Appends `c` to the mailbox of `id`, creating the mailbox first when it is
    missing. Defined for every id, known to the registry or not.
   */
  function Enqueue(m: Mailboxes, id: string, c: Command): (m': Mailboxes)
    ensures m'.Keys == m.Keys + {id}
    ensures |Pending(m', id)| == |Pending(m, id)| + 1
    ensures Pending(m', id)[..|Pending(m, id)|] == Pending(m, id)
    ensures Pending(m', id)[|Pending(m, id)|] == c
    ensures forall d :: d != id ==> Pending(m', d) == Pending(m, d)
  {
    m[id := Pending(m, id) + [c]]
  }

  /** What a poll answers and the mailboxes it leaves behind. */
  datatype Drained = Drained(comandos: seq<Command>, rest: Mailboxes)

  /**
    A poll: hands over everything pending for `id`, in order, and leaves an
    empty mailbox for `id` (created if there was none).
   */
  function Drain(m: Mailboxes, id: string): (r: Drained)
    ensures r.comandos == Pending(m, id)
    ensures r.rest.Keys == m.Keys + {id}
    ensures id in r.rest && r.rest[id] == []
    ensures forall d :: d != id ==> Pending(r.rest, d) == Pending(m, d)
  {
    Drained(Pending(m, id), m[id := []])
  }

  /** The state after the requests `cs` for `id`, issued in that order. */
  function EnqueueAll(m: Mailboxes, id: string, cs: seq<Command>): Mailboxes
    decreases |cs|
  {
    if cs == [] then m else EnqueueAll(Enqueue(m, id, cs[0]), id, cs[1..])
  }

  lemma {:induction false} EnqueueAllAppends(m: Mailboxes, id: string, cs: seq<Command>)
    ensures Pending(EnqueueAll(m, id, cs), id) == Pending(m, id) + cs
    decreases |cs|
  {
    if cs != [] {
      var m1 := Enqueue(m, id, cs[0]);
      assert Pending(m1, id) == Pending(m, id) + [cs[0]];
      EnqueueAllAppends(m1, id, cs[1..]);
      assert [cs[0]] + cs[1..] == cs;
    }
  }

  lemma {:induction false} EnqueueAllIsolated(m: Mailboxes, id: string, cs: seq<Command>, other: string)
    requires other != id
    ensures Pending(EnqueueAll(m, id, cs), other) == Pending(m, other)
    decreases |cs|
  {
    if cs != [] {
      EnqueueAllIsolated(Enqueue(m, id, cs[0]), id, cs[1..], other);
    }
  }

  /**
    FIFO delivery: after the requests `cs` on a device with nothing pending, a
    poll returns exactly `cs` in the order they were issued, leaves the
    mailbox empty, and a second poll returns nothing.
   */
  lemma FifoDrain(m: Mailboxes, id: string, cs: seq<Command>)
    requires Pending(m, id) == []
    ensures Drain(EnqueueAll(m, id, cs), id).comandos == cs
    ensures Pending(Drain(EnqueueAll(m, id, cs), id).rest, id) == []
    ensures Drain(Drain(EnqueueAll(m, id, cs), id).rest, id).comandos == []
    ensures forall d :: d != id ==> Pending(Drain(EnqueueAll(m, id, cs), id).rest, d) == Pending(m, d)
  {
    EnqueueAllAppends(m, id, cs);
    forall d | d != id
      ensures Pending(Drain(EnqueueAll(m, id, cs), id).rest, d) == Pending(m, d)
    {
      EnqueueAllIsolated(m, id, cs, d);
    }
  }

  /**
    A poll is destructive: a second poll with no request in between answers
    `[]`, and so does a poll for a device that never had a mailbox.
   */
  lemma DrainIsDestructive(m: Mailboxes, id: string)
    ensures Drain(Drain(m, id).rest, id).comandos == []
    ensures Drain(Drain(m, id).rest, id).rest == Drain(m, id).rest
    ensures id !in m ==> Drain(m, id).comandos == [] && Drain(m, id).rest == m[id := []]
  {
  }

  /** Requests for different devices do not interfere: their order does not matter. */
  lemma EnqueueCommutes(m: Mailboxes, a: string, ca: Command, b: string, cb: Command)
    requires a != b
    ensures Enqueue(Enqueue(m, a, ca), b, cb) == Enqueue(Enqueue(m, b, cb), a, ca)
  {
  }

  /** A request for one device does not change what a poll of another device returns. */
  lemma DrainIgnoresOtherEnqueue(m: Mailboxes, id: string, other: string, c: Command)
    requires other != id
    ensures Drain(Enqueue(m, other, c), id).comandos == Drain(m, id).comandos
  {
  }
}
