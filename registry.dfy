/**
  The device registry held in `dispositivos`: an append-only list of device
  records. A record's `status` is written as online at registration and
  recomputed from the time since `ultimoContato` whenever the list is read.
 */
module Registry {

  datatype Option<T> = None | Some(value: T)

  datatype Status = Online | Offline

  /** A registered device; `modelo` and `androidVersion` are absent when the request omits them. */
  datatype Device = Device(
    id: string,
    nome: string,
    modelo: Option<string>,
    androidVersion: Option<string>,
    status: Status,
    ultimoContato: int)

  const DefaultNome: string := "Dispositivo Android"

  /** Milliseconds after the last contact from which a device counts as offline. */
  const OnlineWindowMs: int := 60000

  /** A supplied name that JavaScript treats as false: missing or empty. */
  predicate Falsy(nome: Option<string>) {
    nome == None || nome == Some("")
  }

  /** `nome || 'Dispositivo Android'`. */
  function NomeOrDefault(nome: Option<string>): string {
    if Falsy(nome) then DefaultNome else nome.value
  }

  /**
    The status shown at time `agora` (milliseconds) for a device last heard
    from at `ultimoContato`: the elapsed time is converted to seconds and
    compared with 60. Online exactly when fewer than 60000 ms have passed.
   */
  function StatusAt(ultimoContato: int, agora: int): (s: Status)
    ensures s == Online <==> agora - ultimoContato < OnlineWindowMs
  {
    var diff := (agora - ultimoContato) as real / 1000.0;
    if diff < 60.0 then Online else Offline
  }

  /** The record a registration stores. */
  function NewDevice(id: string, nome: Option<string>, modelo: Option<string>,
                     androidVersion: Option<string>, agora: int): Device
  {
    Device(id, NomeOrDefault(nome), modelo, androidVersion, Online, agora)
  }

  /** One record with its status recomputed for time `agora`. */
  function Refresh(d: Device, agora: int): Device {
    d.(status := StatusAt(d.ultimoContato, agora))
  }

  /** The whole list with every status recomputed, in the same order. */
  function RefreshAll(ds: seq<Device>, agora: int): (r: seq<Device>)
    ensures |r| == |ds|
  {
    if ds == [] then [] else RefreshAll(ds[..|ds| - 1], agora) + [Refresh(ds[|ds| - 1], agora)]
  }

  /** Two records that agree on everything but `status`. */
  predicate SameButStatus(a: Device, b: Device) {
    a.(status := Online) == b.(status := Online)
  }

  /**
    Listing keeps length and order and changes no field but `status`, which
    becomes online exactly when fewer than 60 seconds have passed since
    `ultimoContato`.
   */
  lemma {:induction false} RefreshAllAt(ds: seq<Device>, agora: int, k: nat)
    requires k < |ds|
    ensures |RefreshAll(ds, agora)| == |ds|
    ensures SameButStatus(RefreshAll(ds, agora)[k], ds[k])
    ensures RefreshAll(ds, agora)[k].status == Online <==> agora - ds[k].ultimoContato < OnlineWindowMs
  {
    if k < |ds| - 1 {
      RefreshAllAt(ds[..|ds| - 1], agora, k);
    }
  }

  /** Recomputing twice at the same instant gives what recomputing once gives. */
  lemma {:induction false} RefreshAllIdempotent(ds: seq<Device>, agora: int)
    ensures RefreshAll(RefreshAll(ds, agora), agora) == RefreshAll(ds, agora)
  {
    if ds != [] {
      var r := RefreshAll(ds, agora);
      assert r[..|r| - 1] == RefreshAll(ds[..|ds| - 1], agora);
      RefreshAllIdempotent(ds[..|ds| - 1], agora);
    }
  }

  /**
    The refreshed list depends only on the time and the stored fields other
    than `status`: a stale status is never shown.
   */
  lemma {:induction false} RefreshAllIgnoresStatus(ds: seq<Device>, es: seq<Device>, agora: int)
    requires |ds| == |es|
    requires forall k :: 0 <= k < |ds| ==> SameButStatus(ds[k], es[k])
    ensures RefreshAll(ds, agora) == RefreshAll(es, agora)
  {
    if ds != [] {
      RefreshAllIgnoresStatus(ds[..|ds| - 1], es[..|es| - 1], agora);
    }
  }

  /** Registration appends one record at the end; the existing records are kept as they were. */
  function Register(ds: seq<Device>, id: string, nome: Option<string>, modelo: Option<string>,
                    androidVersion: Option<string>, agora: int): (r: seq<Device>)
    ensures |r| == |ds| + 1
    ensures r[..|ds|] == ds
    ensures r[|ds|].id == id && r[|ds|].status == Online && r[|ds|].ultimoContato == agora
    ensures Falsy(nome) ==> r[|ds|].nome == DefaultNome
    ensures !Falsy(nome) ==> r[|ds|].nome == nome.value
    ensures r[|ds|].modelo == modelo && r[|ds|].androidVersion == androidVersion
  {
    ds + [NewDevice(id, nome, modelo, androidVersion, agora)]
  }

  /**
    The last contact is written only at registration, so a registered device
    is listed online for its first 60 seconds and offline at every later
    listing, however often it polls.
   */
  lemma RegisteredDeviceStatus(ds: seq<Device>, id: string, nome: Option<string>, modelo: Option<string>,
                               androidVersion: Option<string>, registeredAt: int, agora: int)
    ensures var r := RefreshAll(Register(ds, id, nome, modelo, androidVersion, registeredAt), agora);
      |r| == |ds| + 1 && r[|ds|].id == id &&
      (r[|ds|].status == Online <==> agora - registeredAt < OnlineWindowMs)
  {
    RefreshAllAt(Register(ds, id, nome, modelo, androidVersion, registeredAt), agora, |ds|);
  }

  /** Once a device is listed offline it stays offline at every later listing. */
  lemma OfflineIsPermanent(u: int, t1: int, t2: int)
    requires t1 <= t2
    ensures StatusAt(u, t1) == Offline ==> StatusAt(u, t2) == Offline
  {
  }
}
