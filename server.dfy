/**
  The server's in-memory state and its route handlers. `App` owns the two
  process-wide stores, `dispositivos` and `comandosPendentes`, and each handler
  is a method that updates them in place. Clock readings are parameters in
  milliseconds; HTTP plumbing is not part of the model.
 */
module Server {
  import Decimal
  import opened Commands
  import opened Registry

  class App {
    var dispositivos: seq<Device>
    var comandosPendentes: Mailboxes

    /** A freshly started process: no devices, no mailboxes. */
    constructor ()
      ensures dispositivos == [] && comandosPendentes == map[]
    {
      dispositivos := [];
      comandosPendentes := map[];
    }

    /**
      POST /api/registrar. The id is the text of the clock reading `idClock`;
      the last contact is the separate reading `contactClock`.
     */
    method Registrar(nome: Option<string>, modelo: Option<string>, androidVersion: Option<string>,
                     idClock: int, contactClock: int)
      returns (deviceId: string)
      modifies this
      ensures deviceId == Decimal.FormatInt(idClock)
      ensures dispositivos == Register(old(dispositivos), deviceId, nome, modelo, androidVersion, contactClock)
      ensures comandosPendentes == old(comandosPendentes)
    {
      deviceId := Decimal.FormatInt(idClock);
      dispositivos := dispositivos + [NewDevice(deviceId, nome, modelo, androidVersion, contactClock)];
    }

    /** GET /api/comandos/:deviceId: returns and clears the device's pending commands. */
    method Comandos(deviceId: string) returns (comandos: seq<Command>)
      modifies this
      ensures comandos == Drain(old(comandosPendentes), deviceId).comandos
      ensures comandosPendentes == Drain(old(comandosPendentes), deviceId).rest
      ensures dispositivos == old(dispositivos)
    {
      comandos := if deviceId in comandosPendentes then comandosPendentes[deviceId] else [];
      comandosPendentes := comandosPendentes[deviceId := []];
    }

    /** Appends one command of kind `tipo` to the mailbox of `deviceId`, creating it if missing. */
    method Push(deviceId: string, tipo: Tipo, now: int)
      modifies this
      ensures comandosPendentes == Enqueue(old(comandosPendentes), deviceId, Command(tipo, now))
      ensures dispositivos == old(dispositivos)
    {
      if deviceId !in comandosPendentes {
        comandosPendentes := comandosPendentes[deviceId := []];
      }
      comandosPendentes := comandosPendentes[deviceId := comandosPendentes[deviceId] + [Command(tipo, now)]];
    }

    /** POST /api/bloquear/:deviceId. */
    method Bloquear(deviceId: string, now: int)
      modifies this
      ensures comandosPendentes == Enqueue(old(comandosPendentes), deviceId, Command(Commands.Bloquear, now))
      ensures dispositivos == old(dispositivos)
    {
      Push(deviceId, Commands.Bloquear, now);
    }

    /** POST /api/desbloquear/:deviceId. */
    method Desbloquear(deviceId: string, now: int)
      modifies this
      ensures comandosPendentes == Enqueue(old(comandosPendentes), deviceId, Command(Commands.Desbloquear, now))
      ensures dispositivos == old(dispositivos)
    {
      Push(deviceId, Commands.Desbloquear, now);
    }

    /**
      GET /api/dispositivos: rewrites every record's status for time `agora`,
      one record at a time, and returns the updated list.
     */
    method Dispositivos(agora: int) returns (lista: seq<Device>)
      modifies this
      ensures dispositivos == RefreshAll(old(dispositivos), agora)
      ensures lista == dispositivos
      ensures comandosPendentes == old(comandosPendentes)
    {
      ghost var before := dispositivos;
      var i := 0;
      while i < |dispositivos|
        invariant |dispositivos| == |before|
        invariant 0 <= i <= |dispositivos|
        invariant dispositivos[..i] == RefreshAll(before[..i], agora)
        invariant dispositivos[i..] == before[i..]
        invariant comandosPendentes == old(comandosPendentes)
      {
        var d := dispositivos[i];
        var diff := (agora - d.ultimoContato) as real / 1000.0;
        dispositivos := dispositivos[i := d.(status := if diff < 60.0 then Online else Offline)];
        assert before[..i + 1][..i] == before[..i];
        assert dispositivos[..i + 1] == dispositivos[..i] + [dispositivos[i]];
        i := i + 1;
      }
      assert before[..|before|] == before;
      assert dispositivos[..|dispositivos|] == dispositivos;
      lista := dispositivos;
    }
  }

  /**
    A lock and an unlock for one device, then two polls: the first poll
    returns both commands in the order they were requested, the second none.
   */
  method LockUnlockThenPoll(deviceId: string, t1: int, t2: int)
    returns (first: seq<Command>, second: seq<Command>)
    ensures first == [Command(Commands.Bloquear, t1), Command(Commands.Desbloquear, t2)]
    ensures second == []
  {
    var app := new App();
    app.Bloquear(deviceId, t1);
    app.Desbloquear(deviceId, t2);
    first := app.Comandos(deviceId);
    second := app.Comandos(deviceId);
  }

  /**
    A device registers and the list is read `elapsed` ms later: the list
    holds that one device under the returned id, named as supplied (or
    'Dispositivo Android' for an empty name), online
    while fewer than 60 seconds have passed and offline afterwards.
   */
  method RegisterThenList(nome: string, modelo: string, androidVersion: string,
                          now: int, elapsed: int)
    returns (deviceId: string, lista: seq<Device>)
    ensures |deviceId| >= 1
    ensures |lista| == 1 && lista[0].id == deviceId
    ensures nome != "" ==> lista[0].nome == nome
    ensures nome == "" ==> lista[0].nome == DefaultNome
    ensures lista[0].modelo == Some(modelo) && lista[0].androidVersion == Some(androidVersion)
    ensures lista[0].status == Online <==> elapsed < OnlineWindowMs
  {
    var app := new App();
    deviceId := app.Registrar(Some(nome), Some(modelo), Some(androidVersion), now, now);
    lista := app.Dispositivos(now + elapsed);
    RefreshAllAt(Register([], deviceId, Some(nome), Some(modelo), Some(androidVersion), now), now + elapsed, 0);
  }
}
