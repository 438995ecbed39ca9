/**
 The host service: local files served over HTTP to renderers.  On each network interface there is at most
 one server; it holds the files hosted there, each with the clients that asked for it, and numbers them.
 */
module HostModel {
  import opened Options
  import Decimal

  /** `number`: the value of the server's counter when the file was added. */
  datatype File = File(number: nat, clients: seq<string>, path: string)

  datatype Server = Server(files: map<string, File>, counter: nat, port: nat)

  type Servers = map<string, Server>

  const ROOT := "/rendererserviceupnp/"
  const WRAP := 0x1_0000_0000

  // ---------- paths and addresses ----------

  /** printf's %d of an unsigned int. */
  function Signed(number: nat): string {
    var id := number % WRAP;
    if id < 0x8000_0000 then Decimal.Digits(id) else "-" + Decimal.Digits(WRAP - id)
  }

  /** From the last dot of the file name, wherever it is; nothing if there is none. */
  function Extension(file: string): (r: string)
    ensures r == [] <==> '.' !in file
    ensures r != [] ==> r[0] == '.' && '.' !in r[1..] && |r| <= |file| && r == file[|file|-|r|..]
  {
    if file == [] then ""
    else if '.' in file[1..] then Extension(file[1..])
    else if file[0] == '.' then file
    else ""
  }

  function Path(number: nat, file: string): string {
    ROOT + Signed(number) + Extension(file)
  }

  function Url(dev: string, port: nat, path: string): string {
    "http://" + dev + ":" + Decimal.Digits(port) + path
  }

  // ---------- operations ----------

  function IndexOf(clients: seq<string>, client: string): (r: nat)
    ensures r <= |clients| && (r < |clients| ==> clients[r] == client)
    ensures client !in clients[..r]
  {
    if clients == [] || clients[0] == client then 0 else 1 + IndexOf(clients[1..], client)
  }

  function With(clients: seq<string>, client: string): seq<string> {
    if client in clients then clients else clients + [client]
  }

  function Without(clients: seq<string>, client: string): seq<string> {
    var i := IndexOf(clients, client);
    if i < |clients| then clients[..i] + clients[i + 1..] else clients
  }

  /** prv_add_new_file: a file that is not there yet takes a number even if it turns out not to be `usable`,
      that is a regular file with a MIME type. */
  function AddFile(s: Server, client: string, file: string, usable: bool): Server {
    if file in s.files then
      var hf := s.files[file];
      s.(files := s.files[file := hf.(clients := With(hf.clients, client))])
    else if usable then
      s.(files := s.files[file := File(s.counter, [client], Path(s.counter, file))], counter := s.counter + 1)
    else
      s.(counter := s.counter + 1)
  }

  /** `port`: that of the server created if there is none on the interface; none if it cannot be created. */
  function ServerFor(ss: Servers, dev: string, port: Option<nat>): Option<Server> {
    if dev in ss then Some(ss[dev])
    else if port.Some? then Some(Server(map[], 0, port.value))
    else None
  }

  function Add(ss: Servers, dev: string, client: string, file: string, port: Option<nat>, usable: bool): Servers {
    match ServerFor(ss, dev, port)
    case None => ss
    case Some(s) => ss[dev := AddFile(s, client, file, usable)]
  }

  function UrlOf(ss: Servers, dev: string, file: string): Option<string> {
    if dev in ss && file in ss[dev].files then Some(Url(dev, ss[dev].port, ss[dev].files[file].path)) else None
  }

  /** A client leaves a file; a file without clients is dropped. */
  function DropClient(s: Server, client: string, file: string): Server
    requires file in s.files
  {
    var hf := s.files[file];
    var rest := Without(hf.clients, client);
    if client !in hf.clients then s
    else if rest == [] then s.(files := s.files - {file})
    else s.(files := s.files[file := hf.(clients := rest)])
  }

  predicate Has(ss: Servers, dev: string, client: string, file: string) {
    dev in ss && file in ss[dev].files && client in ss[dev].files[file].clients
  }

  /** A server without files is shut down when a client has left one. */
  function Remove(ss: Servers, dev: string, client: string, file: string): Servers {
    if !Has(ss, dev, client, file) then ss else
      var s := DropClient(ss[dev], client, file);
      if s.files == map[] then ss - {dev} else ss[dev := s]
  }

  function LostFile(hf: File, client: string): File {
    hf.(clients := Without(hf.clients, client))
  }

  predicate Keeps(hf: File, client: string) {
    client !in hf.clients || Without(hf.clients, client) != []
  }

  function LostServer(s: Server, client: string): Server {
    s.(files := map f | f in s.files && Keeps(s.files[f], client) :: LostFile(s.files[f], client))
  }

  /** The client has gone: it leaves every file, and servers without files are shut down. */
  function LostClient(ss: Servers, client: string): Servers {
    map d | d in ss && LostServer(ss[d], client).files != map[] :: LostServer(ss[d], client)
  }

  datatype Event =
    | Added(dev: string, client: string, file: string, port: Option<nat>, usable: bool)
    | Removed(dev: string, client: string, file: string)
    | ClientLost(client: string)

  function Step(ss: Servers, e: Event): Servers {
    match e
    case Added(dev, client, file, port, usable) => Add(ss, dev, client, file, port, usable)
    case Removed(dev, client, file) => Remove(ss, dev, client, file)
    case ClientLost(client) => LostClient(ss, client)
  }

  predicate Run(sss: seq<Servers>, es: seq<Event>) {
    && |sss| == |es| + 1 && sss[0] == map[]
    && forall n :: 0 <= n < |es| ==> sss[n + 1] == Step(sss[n], es[n])
  }

  // ---------- the invariant ----------

  predicate NoDup(clients: seq<string>) {
    forall i, j :: 0 <= i < j < |clients| ==> clients[i] != clients[j]
  }

  predicate FileInv(hf: File, file: string, counter: nat) {
    hf.number < counter && hf.path == Path(hf.number, file) && hf.clients != [] && NoDup(hf.clients)
  }

  predicate ServerInv(s: Server) {
    && (forall f :: f in s.files ==> FileInv(s.files[f], f, s.counter))
    && (forall f, g :: f in s.files && g in s.files && s.files[f].number == s.files[g].number ==> f == g)
  }

  predicate Inv(ss: Servers) {
    forall d :: d in ss ==> ServerInv(ss[d])
  }

  lemma WithoutFacts(clients: seq<string>, client: string)
    requires NoDup(clients)
    ensures NoDup(Without(clients, client))
    ensures forall c :: c in Without(clients, client) <==> c in clients && c != client
  {
    var i := IndexOf(clients, client);
    var rest := Without(clients, client);
    if i < |clients| {
      assert forall j :: 0 <= j < |rest| ==> rest[j] == clients[if j < i then j else j + 1];
      forall c | c in clients && c != client
        ensures c in rest
      {
        var j :| 0 <= j < |clients| && clients[j] == c;
        assert rest[if j < i then j else j - 1] == c;
      }
    }
  }

  lemma AddFileKeeps(s: Server, client: string, file: string, usable: bool)
    requires ServerInv(s)
    ensures ServerInv(AddFile(s, client, file, usable))
  {
    hide Path;
  }

  lemma DropClientKeeps(s: Server, client: string, file: string)
    requires ServerInv(s) && file in s.files
    ensures ServerInv(DropClient(s, client, file))
  {
    hide Path, Without;
    WithoutFacts(s.files[file].clients, client);
  }

  lemma LostServerKeeps(s: Server, client: string)
    requires ServerInv(s)
    ensures ServerInv(LostServer(s, client))
  {
    hide Path, Without;
    var s' := LostServer(s, client);
    forall f | f in s'.files
      ensures FileInv(s'.files[f], f, s'.counter)
    {
      WithoutFacts(s.files[f].clients, client);
      NotThere(s.files[f].clients, client);
    }
  }

  lemma NotThere(clients: seq<string>, client: string)
    ensures client !in clients ==> Without(clients, client) == clients
  {}

  lemma StepKeepsInv(ss: Servers, e: Event)
    requires Inv(ss)
    ensures Inv(Step(ss, e))
  {
    hide ServerInv, AddFile, DropClient, LostServer;
    match e
    case Added(dev, client, file, port, usable) =>
      var s := ServerFor(ss, dev, port);
      if s.Some? {
        NewServerInv(port);
        AddFileKeeps(s.value, client, file, usable);
      }
    case Removed(dev, client, file) =>
      if Has(ss, dev, client, file) { DropClientKeeps(ss[dev], client, file); }
    case ClientLost(client) =>
      forall d | d in ss ensures ServerInv(LostServer(ss[d], client)) { LostServerKeeps(ss[d], client); }
  }

  lemma NewServerInv(port: Option<nat>)
    ensures port.Some? ==> ServerInv(Server(map[], 0, port.value))
  {}

  lemma {:induction false} RunKeepsInv(sss: seq<Servers>, es: seq<Event>, n: nat)
    requires Run(sss, es) && n < |sss|
    ensures Inv(sss[n])
    decreases n
  {
    hide Inv, Step;
    if n == 0 {
      NothingInv();
    } else {
      RunKeepsInv(sss, es, n - 1);
      StepKeepsInv(sss[n - 1], es[n - 1]);
    }
  }

  lemma NothingInv()
    ensures Inv(map[])
  {}
}
