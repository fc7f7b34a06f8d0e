/** The program of click-hooks/accounts.cpp with its loops: each method is proved to do what
    the function of the same name in `Hooks` says. Directory and account listings are visited
    in an arbitrary order. */
module ClickHook {
  import opened Names
  import opened Settings
  import opened H = Hooks

  class Hook {
    const world: World
    const hooks: seq<HookFile>
    var docs: map<Key, Doc>
    var stamps: map<string, Time>
    var accounts: map<nat, Account>
    var acl: set<(string, nat)>
    var writes: nat

    function State(): Store
      reads this
    {
      Store(docs, stamps, accounts, acl, writes)
    }

    constructor (world: World, hooks: seq<HookFile>, s: Store)
      ensures State() == s && this.world == world && this.hooks == hooks
    {
      this.world, this.hooks := world, hooks;
      docs, stamps, accounts, acl, writes := s.docs, s.stamps, s.accounts, s.acl, s.writes;
    }

    // ----- removing what is stale -----

    method DisableService(id: string, profile: string)
      modifies this`accounts, this`acl
      ensures State() == H.DisableService(world, old(State()), id, profile)
    {
      var service := world.service(id);
      if service.None? {
        NothingToDisable(world, State(), id, profile);
        return;
      }
      ghost var start := State();
      var rest := set a | a in accounts && accounts[a].enabled;
      DisablingBegins(world, start, rest, id, profile);
      while rest != {}
        invariant Disabling(world, start, State(), rest, id, profile)
        decreases |rest|
      {
        var a :| a in rest;
        DisablingOne(world, start, State(), rest, id, profile, a);
        rest := rest - {a};
        var account := accounts[a];
        if account.provider != service.value {
          continue;
        }
        if id in account.services {
          accounts := accounts[a := account.(services := account.services - {id})];
          acl := acl + {(StripVersion(profile), account.credentialsId)};
        }
      }
      DisablingEnds(world, start, State(), id, profile);
    }

    method RemoveStaleAccounts(provider: string)
      modifies this`accounts
      ensures State() == RemoveAccounts(old(State()), provider)
    {
      ghost var start := accounts;
      var rest := accounts.Keys;
      while rest != {}
        invariant rest <= start.Keys
        invariant forall a :: a in accounts <==> a in start && (a in rest || start[a].provider != provider)
        invariant forall a :: a in accounts ==> accounts[a] == start[a]
        decreases |rest|
      {
        var a :| a in rest;
        rest := rest - {a};
        if accounts[a].provider == provider {
          accounts := accounts - {a};
        }
      }
      assert accounts == RemoveAccounts(old(State()), provider).accounts;
    }

    /** The body of the loop of removeStaleFiles, for a file that is there. */
    method RemoveIfStale(k: Key)
      requires k in docs
      modifies this`docs, this`accounts, this`acl
      ensures State() == SweepOne(world, hooks, old(State()), k)
    {
      var file := docs[k];
      if !file.ours {
        return;
      }
      if HasHook(hooks, file.profile) {
        return;
      }
      if k.kind == Service {
        DisableService(k.name, file.profile);
      } else if k.kind == Provider {
        RemoveStaleAccounts(k.name);
      }
      docs := docs - {k};
    }

    method RemoveStaleFiles()
      modifies this`docs, this`accounts, this`acl
      ensures State() == Sweep(world, hooks, old(State()))
    {
      var fileTypes := [Service, Provider, Application];
      ghost var start := State();
      ghost var done: set<Key> := {};
      SweptNone(world, hooks, start);
      for i := 0 to |fileTypes|
        invariant State() == Swept(world, hooks, start, done) && done <= start.docs.Keys
        invariant forall k :: k in start.docs ==> (k in done <==> Rank(k.kind) < i)
      {
        assert forall kind: Kind :: kind == fileTypes[i] <==> Rank(kind) == i;
        var rest := set k | k in docs && k.kind == fileTypes[i];
        while rest != {}
          invariant State() == Swept(world, hooks, start, done) && done <= start.docs.Keys && rest !! done
          invariant forall k :: k in rest ==> k in start.docs && Rank(k.kind) == i
          invariant forall k :: k in start.docs && k !in rest ==> (k in done <==> Rank(k.kind) <= i)
          decreases |rest|
        {
          var k :| k in rest;
          SweptDocs(world, hooks, start, done, k);
          SweptOne(world, hooks, start, done, k);
          RemoveIfStale(k);
          rest, done := rest - {k}, done + {k};
        }
      }
      assert done == start.docs.Keys;
    }

    method RemoveStaleTimestampFiles()
      modifies this`stamps
      ensures State() == SweepStamps(hooks, old(State()))
    {
      ghost var start := stamps;
      var rest := stamps.Keys;
      while rest != {}
        invariant rest <= start.Keys
        invariant forall id :: id in stamps <==> id in start && (id in rest || exists h :: h in hooks && h.appId == id)
        invariant forall id :: id in stamps ==> stamps[id] == start[id]
        decreases |rest|
      {
        var id :| id in rest;
        rest := rest - {id};
        if !exists h :: h in hooks && h.appId == id {
          stamps := stamps - {id};
        }
      }
      assert stamps == SweepStamps(hooks, old(State())).stamps;
    }

    // ----- writing -----

    method WriteXmlFile(k: Key, d: Doc) returns (ok: bool)
      modifies this`docs, this`writes
      ensures State() == AfterWrite(world, old(State()), k, d) && ok == WriteOk(world, old(State()))
    {
      var outcome := world.disk(writes);
      writes := writes + 1;
      match outcome
      case NotOpened => return false;
      case Written => docs := docs[k := d]; return true;
      case NotWritten => docs := docs - {k}; return false;
    }

    method WriteServiceFile(h: HookFile, service: Json) returns (ok: bool)
      modifies this`docs, this`writes
      ensures State() == AfterWrite(world, old(State()), Key(Service, ServiceId(h, service)), ServiceDoc(h, service))
      ensures ok == WriteOk(world, old(State()))
    {
      var template := AddTemplate(MembersOf(service));
      ok := WriteXmlFile(Key(Service, ServiceId(h, service)), Doc(true, h.appId, [], template));
    }

    method WritePlugin(h: HookFile) returns (ok: bool)
      modifies this`docs, this`writes
      ensures State() == WritePlugins(world, h, old(State())).0 && ok == WritePlugins(world, h, old(State())).1
    {
      var plugin := PluginOf(h);
      if plugin == [] {
        return true;
      }
      var qmlPlugin := StringAt(plugin, "qml");
      if qmlPlugin == "" {
        return false;
      }
      if !IsAbsolute(qmlPlugin) {
        qmlPlugin := world.packageDir(h.appId) + "/" + qmlPlugin;
      }
      if !world.present(qmlPlugin) || !world.link(StripVersion(h.appId)) {
        return false;
      }
      if StringAt(plugin, "name") == "" || StringAt(plugin, "icon") == "" {
        return false;
      }
      var template := AddTemplate(plugin);
      ok := WriteXmlFile(Key(Provider, StripVersion(h.appId)), Doc(true, h.appId, [], template));
    }

    /** The loop of writeFiles over the services. */
    method WriteServiceFiles(h: HookFile) returns (listed: seq<string>, ok: bool)
      modifies this`docs, this`writes
      ensures (State(), ok) == WriteServices(world, h, old(State()), 0)
      ensures ok ==> listed == ServiceIds(h, ServicesOf(h))
    {
      var services := ServicesOf(h);
      listed := [];
      ok := true;
      var i := 0;
      while i < |services|
        invariant 0 <= i <= |services| && ok && listed == ServiceIds(h, services[..i])
        invariant WriteServices(world, h, State(), i) == WriteServices(world, h, old(State()), 0)
      {
        var id := ServiceId(h, services[i]);
        listed := listed + [id];
        ServiceIdsSnoc(h, services, i);
        ok := WriteServiceFile(h, services[i]);
        if !ok {
          return;
        }
        i := i + 1;
      }
      assert services[..i] == services;
    }

    method WriteFiles(h: HookFile) returns (ok: bool)
      modifies this`docs, this`writes
      ensures State() == H.WriteFiles(world, h, old(State())).0 && ok == H.WriteFiles(world, h, old(State())).1
    {
      var listed, services := WriteServiceFiles(h);
      var plugins := WritePlugin(h);
      ok := services && plugins;
      if ok && ServicesOf(h) != [] {
        ok := WriteXmlFile(Key(Application, StripVersion(h.appId)), Doc(true, h.appId, listed, []));
      }
    }

    method Run()
      modifies this
      ensures State() == RunHook(world, hooks, old(State()))
    {
      RemoveStaleFiles();
      RemoveStaleTimestampFiles();
      ghost var start := State();
      for i := 0 to |hooks|
        invariant State() == ProcessAll(world, hooks[..i], start)
      {
        assert hooks[..i + 1][..i] == hooks[..i];
        var h := hooks[i];
        if h.appId in stamps && stamps[h.appId] == h.mtime {
          continue;
        }
        if !IsValid(h) {
          continue;
        }
        var ok := WriteFiles(h);
        if ok && world.touch(h.appId) {
          stamps := stamps[h.appId := h.mtime];
        }
      }
      assert hooks[..|hooks|] == hooks;
    }
  }

  function Rank(kind: Kind): nat {
    match kind
    case Service => 0
    case Provider => 1
    case Application => 2
  }

  /** In the loop of disableService: from `s` to `t` all is done but for the accounts in `rest`. */
  ghost predicate Disabling(world: World, s: Store, t: Store, rest: set<nat>, id: string, profile: string) {
    && t == s.(accounts := t.accounts, acl := t.acl)
    && t.accounts.Keys == s.accounts.Keys
    && (forall a :: a in rest ==> a in s.accounts && s.accounts[a].enabled && t.accounts[a] == s.accounts[a])
    && (forall a :: a in s.accounts && a !in rest ==> t.accounts[a] == WithoutService(world, id, s.accounts[a]))
    && t.acl == s.acl + Revoked(world, s.accounts - rest, id, profile)
  }

  lemma RevokedNone(world: World, accounts: map<nat, Account>, id: string, profile: string)
    requires forall a :: a in accounts ==> !Concerns(world, id, accounts[a])
    ensures Revoked(world, accounts, id, profile) == {}
  {
  }

  lemma RevokedMore(world: World, accounts: map<nat, Account>, rest: set<nat>, id: string, profile: string, a: nat)
    requires a in accounts && a in rest
    ensures Revoked(world, accounts - (rest - {a}), id, profile) ==
            Revoked(world, accounts - rest, id, profile) +
            if Concerns(world, id, accounts[a]) && id in accounts[a].services
            then {(StripVersion(profile), accounts[a].credentialsId)} else {}
  {
    var more, fewer := accounts - (rest - {a}), accounts - rest;
    assert a in more && forall b :: b in more <==> b in fewer || b == a;
  }

  lemma NothingToDisable(world: World, s: Store, id: string, profile: string)
    requires world.service(id).None?
    ensures H.DisableService(world, s, id, profile) == s
  {
    RevokedNone(world, s.accounts, id, profile);
    assert H.DisableService(world, s, id, profile).accounts == s.accounts;
  }

  lemma DisablingBegins(world: World, s: Store, rest: set<nat>, id: string, profile: string)
    requires forall a :: a in rest <==> a in s.accounts && s.accounts[a].enabled
    ensures Disabling(world, s, s, rest, id, profile)
  {
    RevokedNone(world, s.accounts - rest, id, profile);
  }

  lemma DisablingOne(world: World, s: Store, t: Store, rest: set<nat>, id: string, profile: string, a: nat)
    requires Disabling(world, s, t, rest, id, profile) && a in rest
    ensures
      var account := t.accounts[a];
      if Concerns(world, id, account) && id in account.services
      then Disabling(world, s, t.(accounts := t.accounts[a := account.(services := account.services - {id})],
                                  acl := t.acl + {(StripVersion(profile), account.credentialsId)}),
                     rest - {a}, id, profile)
      else Disabling(world, s, t, rest - {a}, id, profile)
  {
    var account := t.accounts[a];
    RevokedMore(world, s.accounts, rest, id, profile, a);
    if id !in account.services { assert account.services - {id} == account.services; }
  }

  lemma DisablingEnds(world: World, s: Store, t: Store, id: string, profile: string)
    requires Disabling(world, s, t, {}, id, profile)
    ensures t == H.DisableService(world, s, id, profile)
  {
    assert s.accounts - {} == s.accounts;
    assert t.accounts == H.DisableService(world, s, id, profile).accounts;
  }
}
