/** What the host service is for: it is a set of (interface, client, file) triples, and the addresses it hands
    out lead to the right file. */
module HostTheorems {
  import opened Options
  import opened HostModel
  import Decimal

  // ---------- a set of triples ----------

  /** Hosting a file adds one triple if it succeeds and nothing otherwise; it succeeds if there is a server or
      one can be created, and the file is hosted already or usable; and then an address is returned. */
  lemma AddingInserts(ss: Servers, dev: string, client: string, file: string, port: Option<nat>, usable: bool)
    requires Inv(ss)
    ensures
      var ss' := Add(ss, dev, client, file, port, usable);
      var done := (dev in ss || port.Some?) && ((dev in ss && file in ss[dev].files) || usable);
      && (UrlOf(ss', dev, file).Some? <==> done)
      && forall d, c, f :: Has(ss', d, c, f) <==> Has(ss, d, c, f) || (done && d == dev && c == client && f == file)
  {
    hide ServerInv;
  }

  /** Removing takes exactly the triple away that was asked for, if it is there. */
  lemma RemovingDeletes(ss: Servers, dev: string, client: string, file: string)
    requires Inv(ss)
    ensures
      var ss' := Remove(ss, dev, client, file);
      forall d, c, f :: Has(ss', d, c, f) <==> Has(ss, d, c, f) && !(d == dev && c == client && f == file)
  {
    hide Has, Remove;
    forall d, c, f
      ensures Has(Remove(ss, dev, client, file), d, c, f) <==>
        Has(ss, d, c, f) && !(d == dev && c == client && f == file)
    {
      RemovingOne(ss, dev, client, file, d, c, f);
    }
  }

  predicate Hosts(s: Server, c: string, f: string) {
    f in s.files && c in s.files[f].clients
  }

  lemma DroppingOne(s: Server, client: string, file: string, c: string, f: string)
    requires ServerInv(s) && Hosts(s, client, file)
    ensures Hosts(DropClient(s, client, file), c, f) <==> Hosts(s, c, f) && !(c == client && f == file)
  {
    hide Without, Path;
    WithoutFacts(s.files[file].clients, client);
  }

  lemma RemovingOne(ss: Servers, dev: string, client: string, file: string, d: string, c: string, f: string)
    requires Inv(ss)
    ensures Has(Remove(ss, dev, client, file), d, c, f) <==> Has(ss, d, c, f) && !(d == dev && c == client && f == file)
  {
    hide DropClient, ServerInv;
    if Has(ss, dev, client, file) && d == dev {
      DroppingOne(ss[dev], client, file, c, f);
    }
  }

  /** Losing a client takes exactly its triples away. */
  lemma LosingDeletesAll(ss: Servers, client: string)
    requires Inv(ss)
    ensures forall d, c, f :: Has(LostClient(ss, client), d, c, f) <==> Has(ss, d, c, f) && c != client
  {
    forall d, c, f
      ensures Has(LostClient(ss, client), d, c, f) <==> Has(ss, d, c, f) && c != client
    {
      if d in ss && f in ss[d].files {
        LosingOne(ss, client, d, c, f);
      }
    }
  }

  lemma LosingOne(ss: Servers, client: string, d: string, c: string, f: string)
    requires Inv(ss) && d in ss && f in ss[d].files
    ensures Has(LostClient(ss, client), d, c, f) <==> Has(ss, d, c, f) && c != client
  {
    hide Without;
    assert FileInv(ss[d].files[f], f, ss[d].counter);
    WithoutFacts(ss[d].files[f].clients, client);
    NotThere(ss[d].files[f].clients, client);
    if c in Without(ss[d].files[f].clients, client) {
      assert f in LostServer(ss[d], client).files;
    }
  }

  // ---------- servers without files ----------

  predicate Idle(ss: Servers, dev: string) {
    dev in ss && ss[dev].files == map[]
  }

  /** A server without files comes about only where adding a file fails after the server was found or created;
      losing any client sweeps such servers away, removing a file the one on its interface. */
  lemma WhenServersIdle(ss: Servers, e: Event, dev: string)
    requires Inv(ss)
    ensures Idle(Step(ss, e), dev) <==>
      match e
      case Added(d, _, _, port, usable) =>
        if d == dev then !usable && (Idle(ss, dev) || (dev !in ss && port.Some?)) else Idle(ss, dev)
      case Removed(_, _, _) => Idle(ss, dev)
      case ClientLost(_) => false
  {
    hide ServerInv, Without;
    match e
    case Added(d, client, file, port, usable) =>
      if d == dev && d in Step(ss, e) && (usable || (d in ss && file in ss[d].files)) {
        assert file in Step(ss, e)[d].files;
      }
    case Removed(d, client, file) =>
      assert Has(ss, d, client, file) ==> file in ss[d].files;
    case ClientLost(_) =>
  }

  /** Such a server comes about: nothing is hosted yet, and the first file to be hosted is not usable. */
  lemma IdleServerExists(dev: string, client: string, file: string, port: nat)
      returns (sss: seq<Servers>, es: seq<Event>)
    ensures Run(sss, es) && |es| == 1 && Idle(sss[1], dev)
    ensures forall d, c, f :: !Has(sss[1], d, c, f)
  {
    var e := Added(dev, client, file, Some(port), false);
    sss, es := [map[], Step(map[], e)], [e];
  }

  // ---------- addresses ----------

  lemma SignedText(number: nat)
    ensures Signed(number) != []
    ensures number % WRAP < 0x8000_0000 ==> Signed(number) == Decimal.Digits(number % WRAP) && Signed(number)[0] != '-'
    ensures number % WRAP >= 0x8000_0000 ==>
      Signed(number)[0] == '-' && Signed(number)[1..] == Decimal.Digits(WRAP - number % WRAP)
  {
    hide Decimal.Digits;
  }

  lemma SameSigned(m: nat, n: nat, s: string, t: string)
    requires Signed(m) + s == Signed(n) + t
    requires s == [] || s[0] == '.'
    requires t == [] || t[0] == '.'
    ensures m % WRAP == n % WRAP && s == t
  {
    hide Signed, Decimal.Digits;
    SignedText(m);
    SignedText(n);
    var a, b := Signed(m), Signed(n);
    assert a[0] == (a + s)[0] == (b + t)[0] == b[0];
    if m % WRAP < 0x8000_0000 {
      Decimal.DigitsPrefix(m % WRAP, n % WRAP, s, t);
    } else {
      assert a[1..] + s == (a + s)[1..] && b[1..] + t == (b + t)[1..];
      Decimal.DigitsPrefix(WRAP - m % WRAP, WRAP - n % WRAP, s, t);
    }
  }

  /** Two paths are the same exactly if the numbers are, as far as an int goes, and the extensions. */
  lemma SamePath(m: nat, n: nat, f: string, g: string)
    ensures Path(m, f) == Path(n, g) <==> m % WRAP == n % WRAP && Extension(f) == Extension(g)
  {
    hide Signed, Extension;
    assert Path(m, f)[|ROOT|..] == Signed(m) + Extension(f);
    assert Path(n, g)[|ROOT|..] == Signed(n) + Extension(g);
    if Path(m, f) == Path(n, g) {
      SameSigned(m, n, Extension(f), Extension(g));
    } else if m % WRAP == n % WRAP {
      SignedOf(m, n);
    }
  }

  lemma SignedOf(m: nat, n: nat)
    requires m % WRAP == n % WRAP
    ensures Signed(m) == Signed(n)
  {}

  /** Files on one server have different paths until its counter wraps. */
  lemma PathsDiffer(s: Server, f: string, g: string)
    requires ServerInv(s) && s.counter <= WRAP && f in s.files && g in s.files && f != g
    ensures s.files[f].path != s.files[g].path
  {
    hide Path;
    SamePath(s.files[f].number, s.files[g].number, f, g);
  }

  /** An order in which a server's files may be walked through. */
  ghost predicate Lists(s: Server, order: seq<string>) {
    forall f :: f in s.files <==> f in order
  }

  /** prv_host_server_find_file: the first file with the path. */
  function FindFile(s: Server, order: seq<string>, path: string): Option<string>
    requires forall f :: f in order ==> f in s.files
  {
    if order == [] then None
    else if s.files[order[0]].path == path then Some(order[0])
    else FindFile(s, order[1..], path)
  }

  lemma {:induction false} FindFileFinds(s: Server, order: seq<string>, path: string)
    requires forall f :: f in order ==> f in s.files
    ensures var r := FindFile(s, order, path);
      if r.Some? then r.value in order && s.files[r.value].path == path
      else forall f :: f in order ==> s.files[f].path != path
  {
    if order != [] && s.files[order[0]].path != path {
      FindFileFinds(s, order[1..], path);
    }
  }

  /** The address returned for a file leads back to it, in whatever order the files are walked through. */
  lemma AddressesResolve(sss: seq<Servers>, es: seq<Event>, n: nat, dev: string, file: string, order: seq<string>)
    requires Run(sss, es) && n < |sss| && UrlOf(sss[n], dev, file).Some?
    requires sss[n][dev].counter <= WRAP && Lists(sss[n][dev], order)
    ensures var s := sss[n][dev];
      UrlOf(sss[n], dev, file) == Some(Url(dev, s.port, s.files[file].path)) &&
        FindFile(s, order, s.files[file].path) == Some(file)
  {
    hide Run, ServerInv;
    RunKeepsInv(sss, es, n);
    var s := sss[n][dev];
    var found := FindFile(s, order, s.files[file].path);
    FindFileFinds(s, order, s.files[file].path);
    if found != Some(file) {
      PathsDiffer(s, file, found.value);
    }
  }

  // ---------- over time ----------

  /** While a server runs, its port stays, its counter only goes up, and a file that is still there has kept
      its path, one that is new has a new number. */
  predicate Follows(s: Server, s': Server) {
    && s'.port == s.port && s.counter <= s'.counter
    && forall f :: f in s'.files ==>
         if f in s.files && s'.files[f].number < s.counter then
           s'.files[f].path == s.files[f].path && s'.files[f].number == s.files[f].number
         else s.counter <= s'.files[f].number
  }

  lemma StepFollows(ss: Servers, e: Event, dev: string)
    requires Inv(ss) && dev in ss && dev in Step(ss, e)
    ensures Follows(ss[dev], Step(ss, e)[dev])
    ensures forall f :: f in ss[dev].files && f in Step(ss, e)[dev].files ==>
      Step(ss, e)[dev].files[f].number == ss[dev].files[f].number
  {
    hide AddFile, DropClient, LostServer, Follows, ServerInv;
    var s := ss[dev];
    FollowsSelf(s);
    match e
    case Added(_, client, file, _, usable) => AddFileFollows(s, client, file, usable);
    case Removed(_, client, file) => if file in s.files { DropFollows(s, client, file); }
    case ClientLost(client) => LostFollows(s, client);
  }

  lemma FollowsSelf(s: Server)
    requires ServerInv(s)
    ensures Follows(s, s)
  {
    hide Path;
  }

  lemma AddFileFollows(s: Server, client: string, file: string, usable: bool)
    requires ServerInv(s)
    ensures Follows(s, AddFile(s, client, file, usable))
    ensures var files := AddFile(s, client, file, usable).files;
      forall f :: f in s.files && f in files ==> files[f].number == s.files[f].number
  {
    hide Path;
  }

  lemma DropFollows(s: Server, client: string, file: string)
    requires ServerInv(s) && file in s.files
    ensures Follows(s, DropClient(s, client, file))
    ensures var files := DropClient(s, client, file).files;
      forall f :: f in files ==> f in s.files && files[f].number == s.files[f].number
  {
    hide Path, Without;
  }

  lemma LostFollows(s: Server, client: string)
    requires ServerInv(s)
    ensures Follows(s, LostServer(s, client))
    ensures var files := LostServer(s, client).files;
      forall f :: f in files ==> f in s.files && files[f].number == s.files[f].number
  {
    hide Path, Without;
  }

  predicate Runs(sss: seq<Servers>, dev: string, m: nat, n: nat)
    requires m <= n < |sss|
  {
    forall k :: m <= k <= n ==> dev in sss[k]
  }

  /** A file that stays hosted keeps its address: asking for it again gives the same one. */
  lemma {:induction false} AddressStays(sss: seq<Servers>, es: seq<Event>, dev: string, file: string, m: nat, n: nat)
    requires Run(sss, es) && m <= n < |sss|
    requires forall k :: m <= k <= n ==> dev in sss[k] && file in sss[k][dev].files
    ensures UrlOf(sss[n], dev, file) == UrlOf(sss[m], dev, file)
    ensures sss[n][dev].files[file].number == sss[m][dev].files[file].number
    decreases n
  {
    hide Inv, Step, Path;
    if m < n {
      AddressStays(sss, es, dev, file, m, n - 1);
      RunKeepsInv(sss, es, n - 1);
      assert sss[(n - 1) + 1] == Step(sss[n - 1], es[n - 1]);
      StepFollows(sss[n - 1], es[n - 1], dev);
      NumberBelow(sss[n - 1], dev, file);
    }
  }

  lemma NumberBelow(ss: Servers, dev: string, file: string)
    requires Inv(ss) && dev in ss && file in ss[dev].files
    ensures ss[dev].files[file].number < ss[dev].counter &&
      ss[dev].files[file].path == Path(ss[dev].files[file].number, file)
  {
    assert ServerInv(ss[dev]);
  }

  lemma {:induction false} CountersGrow(sss: seq<Servers>, es: seq<Event>, dev: string, file: string, m: nat, n: nat)
    requires Run(sss, es) && m <= n < |sss| && Runs(sss, dev, m, n) && file in sss[n][dev].files
    ensures sss[m][dev].counter <= sss[n][dev].counter
    ensures sss[n][dev].files[file].number < sss[m][dev].counter ==>
      file in sss[m][dev].files && sss[m][dev].files[file].number == sss[n][dev].files[file].number
    decreases n
  {
    hide Inv, Step, Path;
    if m < n {
      RunKeepsInv(sss, es, n - 1);
      assert sss[(n - 1) + 1] == Step(sss[n - 1], es[n - 1]);
      StepFollows(sss[n - 1], es[n - 1], dev);
      if file in sss[n - 1][dev].files {
        CountersGrow(sss, es, dev, file, m, n - 1);
      } else {
        CounterGrows(sss, es, dev, m, n - 1);
      }
    }
  }

  lemma {:induction false} CounterGrows(sss: seq<Servers>, es: seq<Event>, dev: string, m: nat, n: nat)
    requires Run(sss, es) && m <= n < |sss| && Runs(sss, dev, m, n)
    ensures sss[m][dev].counter <= sss[n][dev].counter
    decreases n
  {
    hide Inv, Step;
    if m < n {
      CounterGrows(sss, es, dev, m, n - 1);
      RunKeepsInv(sss, es, n - 1);
      assert sss[(n - 1) + 1] == Step(sss[n - 1], es[n - 1]);
      StepFollows(sss[n - 1], es[n - 1], dev);
    }
  }

  /** An address once handed out never comes to mean another file while the server runs: what is found
      under it later is that file, or nothing. */
  lemma NoAddressIsReused(sss: seq<Servers>, es: seq<Event>, dev: string, f: string, g: string, m: nat, n: nat)
    requires Run(sss, es) && m <= n < |sss| && Runs(sss, dev, m, n) && sss[n][dev].counter <= WRAP
    requires f in sss[m][dev].files && g in sss[n][dev].files
    requires sss[m][dev].files[f].path == sss[n][dev].files[g].path
    ensures f == g
  {
    hide Step, Path, Run, Inv, Follows, Runs, Extension;
    RunsThere(sss, dev, m, n);
    RunKeepsInv(sss, es, m);
    RunKeepsInv(sss, es, n);
    NumberBelow(sss[m], dev, f);
    NumberBelow(sss[n], dev, g);
    CountersGrow(sss, es, dev, g, m, n);
    CounterGrows(sss, es, dev, m, n);
    SamePath(sss[m][dev].files[f].number, sss[n][dev].files[g].number, f, g);
    assert g in sss[m][dev].files;
    OwnNumber(sss[m], dev, f, g);
  }

  lemma RunsThere(sss: seq<Servers>, dev: string, m: nat, n: nat)
    requires m <= n < |sss| && Runs(sss, dev, m, n)
    ensures dev in sss[m] && dev in sss[n]
  {}

  lemma OwnNumber(ss: Servers, dev: string, f: string, g: string)
    requires Inv(ss) && dev in ss && f in ss[dev].files && g in ss[dev].files
    ensures ss[dev].files[f].number == ss[dev].files[g].number ==> f == g
  {
    assert ServerInv(ss[dev]);
  }
}
