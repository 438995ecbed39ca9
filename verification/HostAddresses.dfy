/**
 The addresses that the host service hands out, as a reader of addresses takes them apart: they name the interface,
 the port of the server on it, and a path under which that server finds the file.
 */
module HostAddresses {
  import opened Options
  import opened HostModel
  import opened HostTheorems
  import Decimal
  import Text

  // ---------- reading an address ----------

  datatype Address = Address(host: string, port: nat, path: string)

  /** What comes before the first c. */
  function UpTo(s: string, c: char): string {
    if s == [] || s[0] == c then [] else [s[0]] + UpTo(s[1..], c)
  }

  /** Scheme, host, colon, port in decimal, and a path that starts with a slash. */
  function Read(text: string): Option<Address> {
    if !("http://" <= text) then None else
      var rest := text[7..];
      var host := UpTo(rest, ':');
      if |host| >= |rest| then None else
        var after := rest[|host| + 1..];
        var port := Text.LeadingDigits(after);
        if port == [] || |port| >= |after| || after[|port|] != '/' then None
        else Some(Address(host, Decimal.Number(port), after[|port|..]))
  }

  lemma {:induction false} UpToFirst(a: string, t: string, c: char)
    requires c !in a
    ensures UpTo(a + [c] + t, c) == a
  {
    var s := a + [c] + t;
    if a != [] {
      UpToFirst(a[1..], t, c);
      assert s[1..] == a[1..] + [c] + t;
    }
  }

  lemma ReadsBack(dev: string, port: nat, path: string)
    requires ':' !in dev && path != [] && path[0] == '/'
    ensures Read(Url(dev, port, path)) == Some(Address(dev, port, path))
  {
    hide Text.LeadingDigits, Decimal.Digits, Decimal.Number;
    var text, digits := Url(dev, port, path), Decimal.Digits(port);
    var rest := dev + [':'] + (digits + path);
    assert text == "http://" + rest && text[7..] == rest;
    UpToFirst(dev, digits + path, ':');
    assert rest[|dev| + 1..] == digits + path;
    Text.LeadingPart(digits, path);
    assert (digits + path)[|digits|..] == path;
    Decimal.NumberOfDigits(port);
  }

  // ---------- the addresses handed out ----------

  lemma PathStarts(number: nat, file: string)
    ensures "/rendererserviceupnp/" <= Path(number, file) && Path(number, file)[0] == '/'
  {
    hide Signed, Extension;
    assert Path(number, file) == ROOT + (Signed(number) + Extension(file));
  }

  /** The address of a hosted file, read by its reader, names the interface and the port of the server there, and
      the server finds the file under the path, in whatever order it looks. */
  lemma AddressLeadsToFile(
      sss: seq<Servers>, es: seq<Event>, n: nat, dev: string, file: string, order: seq<string>)
    requires Run(sss, es) && n < |sss| && UrlOf(sss[n], dev, file).Some?
    requires ':' !in dev && sss[n][dev].counter <= WRAP && Lists(sss[n][dev], order)
    ensures
      var r := Read(UrlOf(sss[n], dev, file).value);
      && r.Some? && r.value.host == dev && r.value.port == sss[n][dev].port
      && "/rendererserviceupnp/" <= r.value.path && FindFile(sss[n][dev], order, r.value.path) == Some(file)
  {
    hide Run, ServerInv, Path, Url, Read;
    RunKeepsInv(sss, es, n);
    AddressesResolve(sss, es, n, dev, file, order);
    NumberBelow(sss[n], dev, file);
    var s := sss[n][dev];
    PathStarts(s.files[file].number, file);
    ReadsBack(dev, s.port, s.files[file].path);
  }

  /** A server comes only when a file is to be hosted on an interface without one, with the port it was given; it
      keeps that while it runs; and it counts every file that it did not host yet, usable or not. */
  lemma ServersCome(sss: seq<Servers>, es: seq<Event>, n: nat, dev: string)
    requires Run(sss, es) && n < |es| && dev in sss[n + 1]
    ensures
      var ss, e, s := sss[n], es[n], sss[n + 1][dev];
      var adds := e.Added? && e.dev == dev && (dev !in ss || e.file !in ss[dev].files);
      if dev in ss then s.port == ss[dev].port && s.counter == ss[dev].counter + if adds then 1 else 0
      else adds && e.port == Some(s.port) && s.counter == 1
  {
    hide With, Without, Path;
  }

  /** The address of the first file hosted on an interface. */
  lemma FirstAddress(client: string)
    ensures
      var ss := Add(map[], "192.168.1.2", client, "/music/a.mp3", Some(4004), true);
      UrlOf(ss, "192.168.1.2", "/music/a.mp3") == Some("http://192.168.1.2:4004/rendererserviceupnp/0.mp3")
  {
    hide Path, Url;
    FirstPath();
    FirstUrl();
  }

  lemma FirstPath()
    ensures Path(0, "/music/a.mp3") == "/rendererserviceupnp/0.mp3"
  {
    hide Extension, Decimal.Digits;
    LastDot("/music/a", "mp3");
    assert "/music/a" + "." + "mp3" == "/music/a.mp3";
    FourDigits();
  }

  lemma FirstUrl()
    ensures Url("192.168.1.2", 4004, "/rendererserviceupnp/0.mp3")
         == "http://192.168.1.2:4004/rendererserviceupnp/0.mp3"
  {
    hide Decimal.Digits;
    FourDigits();
    var path := "/rendererserviceupnp/0.mp3";
    assert "http://" + "192.168.1.2" == "http://192.168.1.2";
    assert "http://192.168.1.2" + ":" == "http://192.168.1.2:";
    assert "http://192.168.1.2:" + "4004" == "http://192.168.1.2:4004";
    assert "http://192.168.1.2:4004" + path == "http://192.168.1.2:4004/rendererserviceupnp/0.mp3";
  }

  lemma FourDigits()
    ensures Decimal.Digits(4004) == "4004" && Decimal.Digits(0) == "0"
  {
    assert Decimal.Digits(4) == "4" && Decimal.Digits(40) == "40" && Decimal.Digits(400) == "400";
  }

  lemma LastDot(s: string, t: string)
    requires '.' !in t
    ensures Extension(s + "." + t) == "." + t
  {
    hide Extension;
    var u := s + "." + t;
    assert u[|s|] == '.';
    var p := |u| - |Extension(u)|;
    EarlierDot(s, t, p);
    LaterDot(s, t, p);
    assert u[|s|..] == "." + t;
  }

  lemma EarlierDot(s: string, t: string, p: nat)
    requires p <= |s| + 1 + |t|
    ensures p < |s| ==> '.' in (s + "." + t)[p..][1..]
  {
    var u := s + "." + t;
    if p < |s| {
      assert u[p..][1..][|s| - p - 1] == u[|s|];
    }
  }

  lemma LaterDot(s: string, t: string, p: nat)
    requires p <= |s| + 1 + |t| && '.' !in t
    ensures |s| < p < |s| + 1 + |t| ==> (s + "." + t)[p..][0] != '.'
  {
    var u := s + "." + t;
    if |s| < p < |u| {
      assert u[p..][0] == t[p - |s| - 1];
    }
  }
}
