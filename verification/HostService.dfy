/** The host service with its tables changed in place. */
module HostService {
  import opened Options
  import opened HostModel
  import opened HostTheorems
  import HostAddresses

  /** The loop with which a client is looked up in a file's list. */
  method FindClient(clients: seq<string>, client: string) returns (i: nat)
    ensures i <= |clients| && (i < |clients| ==> clients[i] == client)
    ensures i == IndexOf(clients, client)
    ensures i == |clients| <==> client !in clients
  {
    i := 0;
    while i < |clients| && clients[i] != client
      invariant 0 <= i <= |clients|
      invariant client !in clients[..i]
    {
      assert clients[..i + 1] == clients[..i] + [clients[i]];
      i := i + 1;
    }
    IndexOfIs(clients, client, i);
    assert clients[..|clients|] == clients;
  }

  lemma {:induction false} IndexOfIs(clients: seq<string>, client: string, i: nat)
    requires i <= |clients| && (i < |clients| ==> clients[i] == client) && client !in clients[..i]
    ensures IndexOf(clients, client) == i
  {
    if i > 0 {
      assert clients[..i][0] == clients[0] && clients[1..][..i - 1] == clients[..i][1..];
      IndexOfIs(clients[1..], client, i - 1);
    }
  }

  lemma HostPath(s: Server, client: string, file: string, usable: bool)
    requires ServerInv(s) && file in AddFile(s, client, file, usable).files
    ensures
      var path := AddFile(s, client, file, usable).files[file].path;
      path != [] && path[0] == '/'
  {
    hide AddFile, Path;
    AddFileKeeps(s, client, file, usable);
    HostAddresses.PathStarts(AddFile(s, client, file, usable).files[file].number, file);
  }

  class Service {
    var servers: Servers

    constructor ()
      ensures servers == map[]
    {
      servers := map[];
    }

    /** Read by a reader of addresses, the text names the interface, the port of its server and the path of the file. */
    predicate Names(dev: string, file: string, text: string)
      reads this
    {
      dev in servers && file in servers[dev].files &&
      (':' !in dev ==>
        HostAddresses.Read(text)
          == Some(HostAddresses.Address(dev, servers[dev].port, servers[dev].files[file].path)))
    }

    /** rsu_host_service_add.  `port`: where a new server would listen, none if it cannot be created;
        `usable`: the file exists, is regular and has a MIME type. */
    method Add(dev: string, client: string, file: string, port: Option<nat>, usable: bool) returns (url: Option<string>)
      modifies this
      ensures servers == HostModel.Add(old(servers), dev, client, file, port, usable)
      ensures url == UrlOf(servers, dev, file)
      ensures Inv(old(servers)) && url.Some? ==> Names(dev, file, url.value)
    {
      hide Path, ServerInv, Url, AddFile, HostAddresses.Read;
      if dev !in servers {
        if port.None? {
          return None;
        }
        NewServerInv(port);
        servers := servers[dev := Server(map[], 0, port.value)];
      }
      url := AddNewFile(dev, client, file, usable);
    }

    /** prv_add_new_file. */
    method AddNewFile(dev: string, client: string, file: string, usable: bool) returns (url: Option<string>)
      requires dev in servers
      modifies this
      ensures servers == old(servers)[dev := AddFile(old(servers)[dev], client, file, usable)]
      ensures url == UrlOf(servers, dev, file)
      ensures Inv(old(servers)) && url.Some? ==> Names(dev, file, url.value)
    {
      hide Path, ServerInv, Url, HostAddresses.Read;
      var s := servers[dev];
      if file !in s.files {
        var number := s.counter;
        s := s.(counter := s.counter + 1);
        servers := servers[dev := s];
        if !usable {
          return None;
        }
        s := s.(files := s.files[file := File(number, [client], Path(number, file))]);
      } else {
        var hf := s.files[file];
        var i := FindClient(hf.clients, client);
        if i == |hf.clients| {
          hf := hf.(clients := hf.clients + [client]);
        }
        s := s.(files := s.files[file := hf]);
      }
      servers := servers[dev := s];
      url := Some(Url(dev, s.port, s.files[file].path));
      if Inv(old(servers)) && ':' !in dev {
        HostPath(old(servers)[dev], client, file, usable);
        HostAddresses.ReadsBack(dev, s.port, s.files[file].path);
      }
    }

    /** prv_remove_client. */
    static method RemoveClient(hf: File, client: string) returns (ok: bool, hf': File)
      ensures ok <==> client in hf.clients
      ensures hf' == LostFile(hf, client)
    {
      var i := FindClient(hf.clients, client);
      if i == |hf.clients| {
        return false, hf;
      }
      return true, hf.(clients := hf.clients[..i] + hf.clients[i + 1..]);
    }

    /** rsu_host_service_remove. */
    method Remove(dev: string, client: string, file: string) returns (ok: bool)
      modifies this
      ensures servers == HostModel.Remove(old(servers), dev, client, file)
      ensures ok <==> Has(old(servers), dev, client, file)
    {
      hide Without;
      if dev !in servers || file !in servers[dev].files {
        return false;
      }
      var s := servers[dev];
      var hf: File;
      ok, hf := RemoveClient(s.files[file], client);
      if !ok {
        return;
      }
      s := s.(files := if hf.clients == [] then s.files - {file} else s.files[file := hf]);
      if s.files == map[] {
        servers := servers - {dev};
      } else {
        servers := servers[dev := s];
      }
    }

    /** The inner loop of rsu_host_service_lost_client: the files of one server. */
    static method LeaveServer(s: Server, client: string) returns (s': Server)
      ensures s' == LostServer(s, client)
    {
      hide Without;
      s' := s;
      var todo := s.files.Keys;
      while todo != {}
        invariant todo <= s.files.Keys
        invariant s'.counter == s.counter && s'.port == s.port
        invariant forall f :: f in s'.files <==> f in s.files && (f in todo || Keeps(s.files[f], client))
        invariant forall f :: f in s'.files ==>
          s'.files[f] == if f in todo then s.files[f] else LostFile(s.files[f], client)
        decreases |todo|
      {
        var f :| f in todo;
        todo := todo - {f};
        NotThere(s.files[f].clients, client);
        var ok, hf := RemoveClient(s.files[f], client);
        if ok {
          s' := s'.(files := if hf.clients == [] then s'.files - {f} else s'.files[f := hf]);
        }
      }
      assert s'.files == LostServer(s, client).files;
    }

    /** rsu_host_service_lost_client. */
    method LostClient(client: string)
      modifies this
      ensures servers == HostModel.LostClient(old(servers), client)
    {
      hide LostServer;
      var todo := servers.Keys;
      while todo != {}
        invariant todo <= old(servers).Keys
        invariant forall d :: d in servers <==>
          d in old(servers) && (d in todo || LostServer(old(servers)[d], client).files != map[])
        invariant forall d :: d in servers ==>
          servers[d] == if d in todo then old(servers)[d] else LostServer(old(servers)[d], client)
        decreases |todo|
      {
        var d :| d in todo;
        todo := todo - {d};
        var s := LeaveServer(servers[d], client);
        servers := if s.files == map[] then servers - {d} else servers[d := s];
      }
    }
  }

  /** prv_host_server_find_file; `order` is the order in which the files are walked through. */
  method Find(s: Server, order: seq<string>, path: string) returns (file: Option<string>)
    requires Lists(s, order)
    ensures file == FindFile(s, order, path)
    ensures file.None? ==> forall f :: f in s.files ==> s.files[f].path != path
    ensures file.Some? ==> file.value in s.files && s.files[file.value].path == path
  {
    var n := 0;
    FindFileFinds(s, order, path);
    while n < |order|
      invariant 0 <= n <= |order|
      invariant FindFile(s, order, path) == FindFile(s, order[n..], path)
    {
      if s.files[order[n]].path == path {
        return Some(order[n]);
      }
      assert order[n..][1..] == order[n + 1..];
      n := n + 1;
    }
    file := None;
  }
}
