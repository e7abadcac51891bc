/** The two-index store of live endpoints. */
module Endpoints {
  import opened Prelude

  datatype AllocatedApp = AllocatedApp(name: string, containerIp: Ipv4)

  /** The store as a value; `EndpointStore` is the object holding it. */
  datatype Store = Store(byName: map<string, AllocatedApp>, byIp: map<Ipv4, AllocatedApp>) {

    /** The two indexes are inverse views of one set of endpoints. */
    ghost predicate Coherent() {
      && (forall n :: n in byName ==>
            byName[n].name == n && byName[n].containerIp in byIp && byIp[byName[n].containerIp] == byName[n])
      && (forall ip :: ip in byIp ==>
            byIp[ip].containerIp == ip && byIp[ip].name in byName && byName[byIp[ip].name] == byIp[ip])
    }

    function Insert(app: AllocatedApp): Store {
      Store(byName[app.name := app], byIp[app.containerIp := app])
    }

    function Remove(name: string): Store {
      if name !in byName then this
      else Store(byName - {name}, byIp - {byName[name].containerIp})
    }

    /** An insert may overwrite: the indexes stay inverse exactly when it overwrites only itself. */
    lemma InsertCoherent(app: AllocatedApp)
      requires Coherent()
      ensures Insert(app).Coherent() <==>
                && (app.name in byName ==> byName[app.name].containerIp == app.containerIp)
                && (app.containerIp in byIp ==> byIp[app.containerIp].name == app.name)
    {
      var s := Insert(app);
      if app.name in byName && byName[app.name].containerIp != app.containerIp {
        var stale := byName[app.name].containerIp;
        assert stale in s.byIp && s.byName[s.byIp[stale].name] != s.byIp[stale];
      }
      if app.containerIp in byIp && byIp[app.containerIp].name != app.name {
        var stale := byIp[app.containerIp].name;
        assert stale in s.byName && s.byIp[s.byName[stale].containerIp] != s.byName[stale];
      }
    }

    lemma RemoveCoherent(name: string)
      requires Coherent()
      ensures Remove(name).Coherent() && name !in Remove(name).byName
      ensures name in byName ==> byName[name].containerIp !in Remove(name).byIp
    {
    }

    /** No two live endpoints share an address. */
    lemma AddressesDistinct(n: string, m: string)
      requires Coherent() && n in byName && m in byName && byName[n].containerIp == byName[m].containerIp
      ensures n == m
    {
    }
  }

  class EndpointStore {
    var byName: map<string, AllocatedApp>
    var byIp: map<Ipv4, AllocatedApp>

    constructor ()
      ensures View() == Store(map[], map[]) && View().Coherent()
    {
      byName, byIp := map[], map[];
    }

    ghost function View(): Store
      reads this
    {
      Store(byName, byIp)
    }

    /** Overwrites whatever has the name or the address; the indexes survive that only if it is the same endpoint. */
    method Insert(app: AllocatedApp)
      modifies this
      ensures View() == old(View()).Insert(app)
      ensures old(View()).Coherent() ==>
                (View().Coherent() <==>
                   && (app.name in old(byName) ==> old(byName)[app.name].containerIp == app.containerIp)
                   && (app.containerIp in old(byIp) ==> old(byIp)[app.containerIp].name == app.name))
    {
      byName := byName[app.name := app];
      byIp := byIp[app.containerIp := app];
      if old(View()).Coherent() { old(View()).InsertCoherent(app); }
    }

    /** Afterwards neither the name nor the address it had finds anything, and every other endpoint is untouched. */
    method RemoveByName(name: string) returns (app: Option<AllocatedApp>)
      modifies this
      ensures View() == old(View()).Remove(name)
      ensures app == if name in old(byName) then Some(old(byName)[name]) else None
      ensures old(View()).Coherent() ==>
                && View().Coherent() && name !in byName && (app.Some? ==> app.value.containerIp !in byIp)
                && forall n :: n != name && n in old(byName) ==>
                     && n in byName && byName[n] == old(byName)[n]
                     && byName[n].containerIp in byIp && byIp[byName[n].containerIp] == byName[n]
    {
      if name !in byName {
        return None;
      }
      app := Some(byName[name]);
      byName := byName - {name};
      byIp := byIp - {app.value.containerIp};
    }

    /** What the DNS handler sees is the endpoint registered under the app's own name. */
    method LookupByIp(ip: Ipv4) returns (app: Option<AllocatedApp>)
      requires View().Coherent()
      ensures app.Some? <==> exists n :: n in byName && byName[n].containerIp == ip
      ensures app.Some? ==>
                app.value.containerIp == ip && app.value.name in byName && byName[app.value.name] == app.value
    {
      app := if ip in byIp then Some(byIp[ip]) else None;
    }
  }
}
