/** The click hook for `.accounts` manifests, click-hooks/accounts.cpp, as a function from store to
    store: remove what no manifest stands behind, then write the files of each that has changed. */
module Hooks {
  import opened Names
  import opened Settings
  import opened Options

  datatype Kind = Service | Provider | Application

  /** A file below ~/.local/share/accounts: the directory and the base name. */
  datatype Key = Key(kind: Kind, name: string)

  /** `ours`: it carries the creator mark. `services`: what an application file lists. */
  datatype Doc = Doc(ours: bool, profile: string, services: seq<string>, template: seq<Node>)

  type Time = nat

  /** A file in the hook directory, `appId`.accounts. */
  datatype HookFile = HookFile(appId: string, mtime: Time, readable: bool, main: seq<Member>)

  /** `services` are those that are enabled for the account. */
  datatype Account = Account(provider: string, enabled: bool, services: set<string>, credentialsId: nat)

  /** `NotWritten`: the file was opened, so truncated, and then removed. */
  datatype WriteOutcome = Written | NotOpened | NotWritten

  /** What the hook cannot decide: `disk` answers the writes of a run one after the other,
      `service` is the provider of a service that libaccounts can load. */
  datatype World = World(disk: nat -> WriteOutcome, present: string -> bool, link: string -> bool,
                         touch: string -> bool, packageDir: string -> string, service: string -> Option<string>)

  /** `stamps`: the `.processed` files; `acl`: the calls of AclUpdater::removeApp. */
  datatype Store = Store(docs: map<Key, Doc>, stamps: map<string, Time>, accounts: map<nat, Account>,
                         acl: set<(string, nat)>, writes: nat)

  // ----- the manifest -----

  function ServicesOf(h: HookFile): seq<Json> {
    if h.readable then ArrayAt(h.main, "services") else []
  }

  function PluginOf(h: HookFile): seq<Member> {
    if h.readable then ObjectAt(h.main, "plugin") else []
  }

  predicate IsValid(h: HookFile) {
    ServicesOf(h) != [] || PluginOf(h) != []
  }

  function ServiceId(h: HookFile, service: Json): string {
    StripVersion(h.appId) + "_" + StringAt(MembersOf(service), "provider")
  }

  function ServiceIds(h: HookFile, services: seq<Json>): seq<string> {
    if services == [] then []
    else ServiceIds(h, services[..|services| - 1]) + [ServiceId(h, services[|services| - 1])]
  }

  // ----- removing what is stale -----

  predicate HasHook(hooks: seq<HookFile>, profile: string) {
    exists h :: h in hooks && Wild(Pattern(profile, "accounts"), h.appId + "." + "accounts")
  }

  predicate Stale(hooks: seq<HookFile>, d: Doc) {
    d.ours && !HasHook(hooks, d.profile)
  }

  predicate StaleAt(hooks: seq<HookFile>, s: Store, k: Key) {
    k in s.docs && Stale(hooks, s.docs[k])
  }

  /** A service that libaccounts can load is disabled on the enabled accounts of its provider. */
  predicate Concerns(world: World, id: string, a: Account) {
    a.enabled && world.service(id) == Some(a.provider)
  }

  predicate Disables(world: World, hooks: seq<HookFile>, s: Store, done: set<Key>, id: string, a: Account) {
    Key(Service, id) in done && StaleAt(hooks, s, Key(Service, id)) && Concerns(world, id, a)
  }

  function Disabled(world: World, hooks: seq<HookFile>, s: Store, done: set<Key>, a: Account): Account {
    a.(services := set id | id in a.services && !Disables(world, hooks, s, done, id, a))
  }

  predicate Orphan(hooks: seq<HookFile>, s: Store, done: set<Key>, a: Account) {
    Key(Provider, a.provider) in done && StaleAt(hooks, s, Key(Provider, a.provider))
  }

  /** The calls of removeApp for one service. */
  function Revoked(world: World, accounts: map<nat, Account>, id: string, profile: string): set<(string, nat)> {
    set a | a in accounts && Concerns(world, id, accounts[a]) && id in accounts[a].services ::
      (StripVersion(profile), accounts[a].credentialsId)
  }

  function StaleServices(hooks: seq<HookFile>, s: Store, done: set<Key>): set<Key> {
    set k | k in s.docs && k in done && k.kind.Service? && StaleAt(hooks, s, k)
  }

  /** The removals at the files in `done`. */
  function Swept(world: World, hooks: seq<HookFile>, s: Store, done: set<Key>): Store {
    s.(docs := map k | k in s.docs && !(k in done && StaleAt(hooks, s, k)) :: s.docs[k],
       accounts := map a | a in s.accounts && !Orphan(hooks, s, done, s.accounts[a]) ::
                     Disabled(world, hooks, s, done, s.accounts[a]),
       acl := s.acl + set k, x | k in StaleServices(hooks, s, done) &&
                                 x in Revoked(world, s.accounts, k.name, s.docs[k].profile) :: x)
  }

  /** removeStaleFiles */
  function Sweep(world: World, hooks: seq<HookFile>, s: Store): Store {
    Swept(world, hooks, s, s.docs.Keys)
  }

  function WithoutService(world: World, id: string, a: Account): Account {
    if Concerns(world, id, a) then a.(services := a.services - {id}) else a
  }

  /** disableService */
  function DisableService(world: World, s: Store, id: string, profile: string): Store {
    s.(accounts := map a | a in s.accounts :: WithoutService(world, id, s.accounts[a]),
       acl := s.acl + Revoked(world, s.accounts, id, profile))
  }

  /** removeStaleAccounts */
  function RemoveAccounts(s: Store, provider: string): Store {
    s.(accounts := map a | a in s.accounts && s.accounts[a].provider != provider :: s.accounts[a])
  }

  function RemoveDoc(s: Store, k: Key): Store {
    s.(docs := s.docs - {k})
  }

  function SweepOne(world: World, hooks: seq<HookFile>, s: Store, k: Key): Store {
    if !StaleAt(hooks, s, k) then s
    else
      match k.kind
      case Service => RemoveDoc(DisableService(world, s, k.name, s.docs[k].profile), k)
      case Provider => RemoveDoc(RemoveAccounts(s, k.name), k)
      case Application => RemoveDoc(s, k)
  }

  // ----- one file after the other -----

  /** Services come first, then providers, then applications. */
  ghost predicate InOrder(done: set<Key>, k: Key) {
    && k !in done
    && (k.kind.Service? ==> forall d :: d in done ==> d.kind.Service?)
  }

  lemma SweptNone(world: World, hooks: seq<HookFile>, s: Store)
    ensures Swept(world, hooks, s, {}) == s
  {
    var t := Swept(world, hooks, s, {});
    assert t.docs == s.docs;
    forall a | a in s.accounts ensures a in t.accounts && t.accounts[a] == s.accounts[a] {
      assert Disabled(world, hooks, s, {}, s.accounts[a]).services == s.accounts[a].services;
    }
    assert t.accounts == s.accounts;
    assert StaleServices(hooks, s, {}) == {};
    assert t.acl == s.acl;
  }

  lemma SweptDocs(world: World, hooks: seq<HookFile>, s: Store, done: set<Key>, k: Key)
    requires k !in done && k in s.docs
    ensures
      var t := Swept(world, hooks, s, done);
      && k in t.docs && t.docs[k] == s.docs[k] && (StaleAt(hooks, t, k) <==> StaleAt(hooks, s, k))
      && Swept(world, hooks, s, done + {k}).docs == (if StaleAt(hooks, s, k) then t.docs - {k} else t.docs)
  {
  }

  lemma SweptFresh(world: World, hooks: seq<HookFile>, s: Store, done: set<Key>, k: Key)
    requires k !in done && k in s.docs && !StaleAt(hooks, s, k)
    ensures Swept(world, hooks, s, done + {k}) == Swept(world, hooks, s, done)
  {
    var t, u := Swept(world, hooks, s, done), Swept(world, hooks, s, done + {k});
    SweptDocs(world, hooks, s, done, k);
    forall a | a in s.accounts
      ensures Disabled(world, hooks, s, done + {k}, s.accounts[a]) == Disabled(world, hooks, s, done, s.accounts[a])
      ensures Orphan(hooks, s, done + {k}, s.accounts[a]) <==> Orphan(hooks, s, done, s.accounts[a])
    {
    }
    assert u.accounts == t.accounts;
    assert StaleServices(hooks, s, done + {k}) == StaleServices(hooks, s, done);
  }

  lemma SweptServiceAccount(world: World, hooks: seq<HookFile>, s: Store, done: set<Key>, k: Key, a: nat)
    requires InOrder(done, k) && k in s.docs && StaleAt(hooks, s, k) && k.kind.Service? && a in s.accounts
    ensures
      var t := Swept(world, hooks, s, done);
      && !Orphan(hooks, s, done + {k}, s.accounts[a]) && a in t.accounts
      && t.accounts[a] == Disabled(world, hooks, s, done, s.accounts[a])
      && (k.name in t.accounts[a].services <==> k.name in s.accounts[a].services)
      && Disabled(world, hooks, s, done + {k}, s.accounts[a]) == WithoutService(world, k.name, t.accounts[a])
  {
    var t := Swept(world, hooks, s, done);
    assert k == Key(Service, k.name);
    assert Disabled(world, hooks, s, done + {k}, s.accounts[a]).services ==
           WithoutService(world, k.name, t.accounts[a]).services;
  }

  lemma SweptServiceAccounts(world: World, hooks: seq<HookFile>, s: Store, done: set<Key>, k: Key)
    requires InOrder(done, k) && k in s.docs && StaleAt(hooks, s, k) && k.kind.Service?
    ensures
      var t := Swept(world, hooks, s, done);
      && Swept(world, hooks, s, done + {k}).accounts == DisableService(world, t, k.name, s.docs[k].profile).accounts
      && Revoked(world, t.accounts, k.name, s.docs[k].profile) == Revoked(world, s.accounts, k.name, s.docs[k].profile)
  {
    forall a | a in s.accounts {
      SweptServiceAccount(world, hooks, s, done, k, a);
    }
    var t := Swept(world, hooks, s, done);
    assert t.accounts.Keys == s.accounts.Keys;
    assert Swept(world, hooks, s, done + {k}).accounts == DisableService(world, t, k.name, s.docs[k].profile).accounts;
  }

  lemma SweptService(world: World, hooks: seq<HookFile>, s: Store, done: set<Key>, k: Key)
    requires InOrder(done, k) && k in s.docs && StaleAt(hooks, s, k) && k.kind.Service?
    ensures Swept(world, hooks, s, done + {k}) == SweepOne(world, hooks, Swept(world, hooks, s, done), k)
  {
    SweptDocs(world, hooks, s, done, k);
    SweptServiceAccounts(world, hooks, s, done, k);
    var t := Swept(world, hooks, s, done);
    var more := Revoked(world, s.accounts, k.name, s.docs[k].profile);
    assert StaleServices(hooks, s, done + {k}) == StaleServices(hooks, s, done) + {k};
    assert Swept(world, hooks, s, done + {k}).acl == t.acl + more;
  }

  lemma SweptOther(world: World, hooks: seq<HookFile>, s: Store, done: set<Key>, k: Key)
    requires InOrder(done, k) && k in s.docs && StaleAt(hooks, s, k) && !k.kind.Service?
    ensures Swept(world, hooks, s, done + {k}) == SweepOne(world, hooks, Swept(world, hooks, s, done), k)
  {
    SweptDocs(world, hooks, s, done, k);
    var t, u := Swept(world, hooks, s, done), Swept(world, hooks, s, done + {k});
    forall a | a in s.accounts
      ensures Disabled(world, hooks, s, done + {k}, s.accounts[a]) == Disabled(world, hooks, s, done, s.accounts[a])
      ensures Orphan(hooks, s, done + {k}, s.accounts[a]) <==>
              Orphan(hooks, s, done, s.accounts[a]) || (k.kind.Provider? && k.name == s.accounts[a].provider)
    {
    }
    assert StaleServices(hooks, s, done + {k}) == StaleServices(hooks, s, done);
    assert u.accounts == if k.kind.Provider? then RemoveAccounts(t, k.name).accounts else t.accounts;
  }

  /** The removals at `done` and one more file are those at `done` and then those of the file. */
  lemma SweptOne(world: World, hooks: seq<HookFile>, s: Store, done: set<Key>, k: Key)
    requires InOrder(done, k) && k in s.docs
    ensures Swept(world, hooks, s, done + {k}) == SweepOne(world, hooks, Swept(world, hooks, s, done), k)
  {
    SweptDocs(world, hooks, s, done, k);
    if !StaleAt(hooks, s, k) {
      SweptFresh(world, hooks, s, done, k);
    } else if k.kind.Service? {
      SweptService(world, hooks, s, done, k);
    } else {
      SweptOther(world, hooks, s, done, k);
    }
  }

  /** The exact effect of the sweep. The files that stay are those that are not ours and those
      that have a manifest; the accounts that go are those of the providers whose file goes; and
      an account loses exactly the removed services that libaccounts can load, if the account is
      enabled and theirs. */
  lemma SweepEffect(world: World, hooks: seq<HookFile>, s: Store)
    ensures
      var t := Sweep(world, hooks, s);
      && t.stamps == s.stamps && t.writes == s.writes
      && (forall k :: k in t.docs <==> k in s.docs && (s.docs[k].ours ==>
            exists h :: h in hooks && Wild(StripVersion(s.docs[k].profile) + "_*.accounts", h.appId + ".accounts")))
      && (forall k :: k in t.docs ==> t.docs[k] == s.docs[k])
      && (forall a :: a in t.accounts <==> a in s.accounts && !Goes(s, t, Key(Provider, s.accounts[a].provider)))
      && (forall a :: a in t.accounts ==> t.accounts[a] == s.accounts[a].(services := t.accounts[a].services))
      && (forall a, id :: a in t.accounts ==>
            (id in t.accounts[a].services <==>
             id in s.accounts[a].services &&
             !(Goes(s, t, Key(Service, id)) && s.accounts[a].enabled &&
               world.service(id) == Some(s.accounts[a].provider))))
  {
    var t := Sweep(world, hooks, s);
    forall k | k in s.docs
      ensures HasHook(hooks, s.docs[k].profile) <==>
              exists h :: h in hooks && Wild(StripVersion(s.docs[k].profile) + "_*.accounts", h.appId + ".accounts")
    {
      HookIsFound(hooks, s.docs[k].profile);
    }
    assert forall k :: Goes(s, t, k) <==> StaleAt(hooks, s, k);
  }

  /** The file `k` is removed. */
  ghost predicate Goes(s: Store, t: Store, k: Key) {
    k in s.docs && k !in t.docs
  }

  lemma HookIsFound(hooks: seq<HookFile>, profile: string)
    ensures HasHook(hooks, profile) <==>
            exists h :: h in hooks && Wild(StripVersion(profile) + "_*.accounts", h.appId + ".accounts")
  {
    assert Pattern(profile, "accounts") == StripVersion(profile) + "_*.accounts";
    assert forall h: HookFile :: h.appId + "." + "accounts" == h.appId + ".accounts";
  }

  /** `x` is what removeApp is called with when the service file `k` goes and account `a` had the
      service enabled. */
  ghost predicate RevokedAt(world: World, s: Store, t: Store, k: Key, a: nat, x: (string, nat)) {
    && Goes(s, t, k) && k.kind.Service? && a in s.accounts && s.accounts[a].enabled
    && world.service(k.name) == Some(s.accounts[a].provider) && k.name in s.accounts[a].services
    && x == (StripVersion(s.docs[k].profile), s.accounts[a].credentialsId)
  }

  /** An application is taken off the access list of a credential exactly when one of its services
      was removed and had been enabled for the account of that credential. */
  lemma RevokedExactly(world: World, hooks: seq<HookFile>, s: Store, x: (string, nat))
    ensures x in Sweep(world, hooks, s).acl <==>
            x in s.acl || exists k, a :: RevokedAt(world, s, Sweep(world, hooks, s), k, a, x)
  {
    var t := Sweep(world, hooks, s);
    var stale := StaleServices(hooks, s, s.docs.Keys);
    assert forall k :: k in stale <==> Goes(s, t, k) && k.kind.Service?;
    if x in t.acl && x !in s.acl {
      var k :| k in stale && x in Revoked(world, s.accounts, k.name, s.docs[k].profile);
      var a :| a in s.accounts && Concerns(world, k.name, s.accounts[a]) && k.name in s.accounts[a].services
               && x == (StripVersion(s.docs[k].profile), s.accounts[a].credentialsId);
      assert RevokedAt(world, s, t, k, a, x);
    }
    if k, a :| RevokedAt(world, s, t, k, a, x) {
      assert k in stale && x in Revoked(world, s.accounts, k.name, s.docs[k].profile);
    }
  }

  ghost predicate NoStale(hooks: seq<HookFile>, s: Store) {
    forall k :: k in s.docs ==> !Stale(hooks, s.docs[k])
  }

  lemma {:induction false} SweepNothing(world: World, hooks: seq<HookFile>, s: Store)
    ensures Sweep(world, hooks, s) == s <==> NoStale(hooks, s)
    ensures NoStale(hooks, Sweep(world, hooks, s))
  {
    var t := Sweep(world, hooks, s);
    if NoStale(hooks, s) {
      assert t.docs == s.docs;
      forall a | a in s.accounts ensures Disabled(world, hooks, s, s.docs.Keys, s.accounts[a]) == s.accounts[a] {
        assert Disabled(world, hooks, s, s.docs.Keys, s.accounts[a]).services == s.accounts[a].services;
      }
      assert t.accounts == s.accounts;
      assert StaleServices(hooks, s, s.docs.Keys) == {};
      assert t.acl == s.acl;
    } else {
      var k :| k in s.docs && Stale(hooks, s.docs[k]);
      assert k !in t.docs;
    }
  }

  /** removeStaleTimestampFiles */
  function SweepStamps(hooks: seq<HookFile>, s: Store): Store {
    s.(stamps := map id | id in s.stamps && (exists h :: h in hooks && h.appId == id) :: s.stamps[id])
  }

  // ----- writing -----

  /** writeXmlFile */
  function AfterWrite(world: World, s: Store, k: Key, d: Doc): Store {
    s.(writes := s.writes + 1,
       docs := match world.disk(s.writes)
               case Written => s.docs[k := d]
               case NotOpened => s.docs
               case NotWritten => s.docs - {k})
  }

  predicate WriteOk(world: World, s: Store) {
    world.disk(s.writes).Written?
  }

  function ServiceDoc(h: HookFile, service: Json): Doc {
    Doc(true, h.appId, [], Template(MembersOf(service)))
  }

  /** The loop of writeFiles over the services, from number `i` on; it ends at a failure. */
  function WriteServices(world: World, h: HookFile, s: Store, i: nat): (r: (Store, bool))
    decreases |ServicesOf(h)| - i
  {
    if i >= |ServicesOf(h)| then (s, true)
    else
      var v := ServicesOf(h)[i];
      var t := AfterWrite(world, s, Key(Service, ServiceId(h, v)), ServiceDoc(h, v));
      if WriteOk(world, s) then WriteServices(world, h, t, i + 1) else (t, false)
  }

  lemma ServiceIdsSnoc(h: HookFile, services: seq<Json>, i: nat)
    requires i < |services|
    ensures ServiceIds(h, services[..i + 1]) == ServiceIds(h, services[..i]) + [ServiceId(h, services[i])]
  {
    assert services[..i + 1][..i] == services[..i];
  }

  predicate IsAbsolute(path: string) {
    path != "" && path[0] == '/'
  }

  predicate PluginReady(world: World, h: HookFile) {
    var qml := StringAt(PluginOf(h), "qml");
    var path := if IsAbsolute(qml) then qml else world.packageDir(h.appId) + "/" + qml;
    && qml != "" && world.present(path) && world.link(StripVersion(h.appId))
    && StringAt(PluginOf(h), "name") != "" && StringAt(PluginOf(h), "icon") != ""
  }

  /** writePlugins */
  function WritePlugins(world: World, h: HookFile, s: Store): (r: (Store, bool)) {
    if PluginOf(h) == [] then (s, true)
    else if !PluginReady(world, h) then (s, false)
    else (AfterWrite(world, s, Key(Provider, StripVersion(h.appId)), Doc(true, h.appId, [], Template(PluginOf(h)))),
          WriteOk(world, s))
  }

  function ApplicationDoc(h: HookFile): Doc {
    Doc(true, h.appId, ServiceIds(h, ServicesOf(h)), [])
  }

  /** writeFiles */
  function WriteFiles(world: World, h: HookFile, s: Store): (r: (Store, bool)) {
    var (t, services) := WriteServices(world, h, s, 0);
    var (u, plugins) := WritePlugins(world, h, t);
    if services && plugins && ServicesOf(h) != []
    then (AfterWrite(world, u, Key(Application, StripVersion(h.appId)), ApplicationDoc(h)), WriteOk(world, u))
    else (u, services && plugins)
  }

  predicate UpToDate(s: Store, h: HookFile) {
    h.appId in s.stamps && s.stamps[h.appId] == h.mtime
  }

  /** The body of the main loop. */
  function Process(world: World, h: HookFile, s: Store): Store {
    if UpToDate(s, h) || !IsValid(h) then s
    else
      var (t, ok) := WriteFiles(world, h, s);
      if ok && world.touch(h.appId) then t.(stamps := t.stamps[h.appId := h.mtime]) else t
  }

  function ProcessAll(world: World, hooks: seq<HookFile>, s: Store): Store {
    if hooks == [] then s
    else Process(world, hooks[|hooks| - 1], ProcessAll(world, hooks[..|hooks| - 1], s))
  }

  /** One run of the hook. */
  function RunHook(world: World, hooks: seq<HookFile>, s: Store): Store {
    ProcessAll(world, hooks, SweepStamps(hooks, Sweep(world, hooks, s)))
  }

  // ----- what writing a manifest does -----

  /** From `s` to `t` nothing but files of `h` was written; `t` may lack files whose writing failed. */
  ghost predicate WroteFor(h: HookFile, s: Store, t: Store) {
    && t.stamps == s.stamps && t.accounts == s.accounts && t.acl == s.acl
    && (forall k :: k in t.docs && !(k in s.docs && t.docs[k] == s.docs[k]) ==>
          t.docs[k].ours && t.docs[k].profile == h.appId)
  }

  lemma WroteForTrans(h: HookFile, s: Store, t: Store, u: Store)
    requires WroteFor(h, s, t) && WroteFor(h, t, u)
    ensures WroteFor(h, s, u)
  {
  }

  lemma WroteOne(world: World, h: HookFile, s: Store, k: Key, d: Doc)
    requires d.ours && d.profile == h.appId
    ensures WroteFor(h, s, AfterWrite(world, s, k, d))
  {
  }

  lemma {:induction false} WriteServicesWrote(world: World, h: HookFile, s: Store, i: nat)
    ensures WroteFor(h, s, WriteServices(world, h, s, i).0)
    decreases |ServicesOf(h)| - i
  {
    if i < |ServicesOf(h)| {
      var v := ServicesOf(h)[i];
      var t := AfterWrite(world, s, Key(Service, ServiceId(h, v)), ServiceDoc(h, v));
      WroteOne(world, h, s, Key(Service, ServiceId(h, v)), ServiceDoc(h, v));
      WriteServicesWrote(world, h, t, i + 1);
      WroteForTrans(h, s, t, WriteServices(world, h, t, i + 1).0);
    }
  }

  lemma WriteFilesWrote(world: World, h: HookFile, s: Store)
    ensures WroteFor(h, s, WriteFiles(world, h, s).0)
  {
    var t := WriteServices(world, h, s, 0).0;
    var u := WritePlugins(world, h, t).0;
    WriteServicesWrote(world, h, s, 0);
    WroteForTrans(h, s, t, u);
    WroteOne(world, h, u, Key(Application, StripVersion(h.appId)), ApplicationDoc(h));
    WroteForTrans(h, s, u, WriteFiles(world, h, s).0);
  }

  // ----- convergence -----

  ghost predicate ProperIds(hooks: seq<HookFile>) {
    forall h :: h in hooks ==> ThreeParts(h.appId) && GlobFree(h.appId)
  }

  /** Each manifest is invalid or has been written completely. */
  ghost predicate Complete(hooks: seq<HookFile>, s: Store) {
    forall h :: h in hooks ==> !IsValid(h) || UpToDate(s, h)
  }

  /** The manifest of `h` is to be processed: it is valid and not up to date. */
  predicate IsDue(s: Store, h: HookFile) {
    IsValid(h) && !UpToDate(s, h)
  }

  /** Processing it comes to a write. */
  predicate Attempts(world: World, s: Store, h: HookFile) {
    IsDue(s, h) && (ServicesOf(h) != [] || PluginReady(world, h))
  }

  lemma ProperIdHasHook(hooks: seq<HookFile>, h: HookFile)
    requires h in hooks && ThreeParts(h.appId) && GlobFree(h.appId)
    ensures HasHook(hooks, h.appId)
  {
    OwnHookMatches(h.appId, "accounts");
  }

  lemma ProcessKeepsFresh(world: World, hooks: seq<HookFile>, h: HookFile, s: Store)
    requires NoStale(hooks, s) && (Attempts(world, s, h) ==> HasHook(hooks, h.appId))
    ensures NoStale(hooks, Process(world, h, s))
  {
    WriteFilesWrote(world, h, s);
    ProcessCounts(world, h, s);
  }

  // ----- counting writes -----

  lemma {:induction false} WriteServicesCounts(world: World, h: HookFile, s: Store, i: nat)
    ensures var t := WriteServices(world, h, s, i).0;
            t.writes >= s.writes && (i < |ServicesOf(h)| ==> t.writes > s.writes)
    decreases |ServicesOf(h)| - i
  {
    if i < |ServicesOf(h)| {
      var v := ServicesOf(h)[i];
      WriteServicesCounts(world, h, AfterWrite(world, s, Key(Service, ServiceId(h, v)), ServiceDoc(h, v)), i + 1);
    }
  }

  lemma WriteFilesCounts(world: World, h: HookFile, s: Store)
    requires IsValid(h)
    ensures
      var (t, ok) := WriteFiles(world, h, s);
      && t.writes >= s.writes
      && (if ServicesOf(h) != [] || PluginReady(world, h) then t.writes > s.writes else t == s && !ok)
  {
    WriteServicesCounts(world, h, s, 0);
  }

  /** What comes to no write changes nothing. */
  lemma ProcessCounts(world: World, h: HookFile, s: Store)
    ensures
      var t := Process(world, h, s);
      t.writes >= s.writes && if Attempts(world, s, h) then t.writes > s.writes else t == s
  {
    if IsDue(s, h) { WriteFilesCounts(world, h, s); }
  }

  lemma {:induction false} ProcessAllCounts(world: World, hooks: seq<HookFile>, s: Store)
    ensures
      var t := ProcessAll(world, hooks, s);
      t.writes >= s.writes && (t.writes == s.writes ==> t == s && forall h :: h in hooks ==> !Attempts(world, s, h))
  {
    if hooks != [] {
      var n := |hooks| - 1;
      ProcessAllCounts(world, hooks[..n], s);
      ProcessCounts(world, hooks[n], ProcessAll(world, hooks[..n], s));
      assert forall h :: h in hooks <==> h in hooks[..n] || h == hooks[n];
    }
  }

  lemma {:induction false} NothingAttempted(world: World, hooks: seq<HookFile>, s: Store)
    requires forall h :: h in hooks ==> !Attempts(world, s, h)
    ensures ProcessAll(world, hooks, s) == s
  {
    if hooks != [] {
      var n := |hooks| - 1;
      assert hooks[n] in hooks && forall h :: h in hooks[..n] ==> h in hooks;
      NothingAttempted(world, hooks[..n], s);
      ProcessCounts(world, hooks[n], s);
    }
  }

  // ----- stamps -----

  /** No two files of a directory have the same name. */
  ghost predicate Distinct(hooks: seq<HookFile>) {
    forall i, j :: 0 <= i < j < |hooks| ==> hooks[i].appId != hooks[j].appId
  }

  /** Processing one manifest does not touch the stamp of another. */
  lemma ProcessSparesStamps(world: World, h: HookFile, s: Store, other: HookFile)
    requires h.appId != other.appId
    ensures UpToDate(Process(world, h, s), other) <==> UpToDate(s, other)
  {
    WriteFilesWrote(world, h, s);
  }

  lemma {:induction false} ProcessAllSparesStamps(world: World, hooks: seq<HookFile>, s: Store, other: HookFile)
    requires forall h :: h in hooks ==> h.appId != other.appId
    ensures UpToDate(ProcessAll(world, hooks, s), other) <==> UpToDate(s, other)
  {
    if hooks != [] {
      var n := |hooks| - 1;
      assert hooks[n] in hooks && forall h :: h in hooks[..n] ==> h in hooks;
      ProcessAllSparesStamps(world, hooks[..n], s, other);
      ProcessSparesStamps(world, hooks[n], ProcessAll(world, hooks[..n], s), other);
    }
  }

  lemma {:induction false} ProcessAllKeepsFresh(world: World, hooks: seq<HookFile>, part: seq<HookFile>, s: Store)
    requires NoStale(hooks, s)
    requires forall i :: 0 <= i < |part| && Attempts(world, ProcessAll(world, part[..i], s), part[i]) ==>
               HasHook(hooks, part[i].appId)
    ensures NoStale(hooks, ProcessAll(world, part, s))
  {
    if part != [] {
      var n := |part| - 1;
      forall i | 0 <= i < n ensures part[..n][..i] == part[..i] {}
      ProcessAllKeepsFresh(world, hooks, part[..n], s);
      ProcessKeepsFresh(world, hooks, part[n], ProcessAll(world, part[..n], s));
    }
  }

  ghost predicate StampsKnown(hooks: seq<HookFile>, s: Store) {
    forall id :: id in s.stamps ==> exists h :: h in hooks && h.appId == id
  }

  lemma {:induction false} ProcessAllStamps(world: World, hooks: seq<HookFile>, part: seq<HookFile>, s: Store)
    requires StampsKnown(hooks, s) && forall h :: h in part ==> h in hooks
    ensures StampsKnown(hooks, ProcessAll(world, part, s))
  {
    if part != [] {
      var n := |part| - 1;
      assert part[n] in part && forall h :: h in part[..n] ==> h in part;
      ProcessAllStamps(world, hooks, part[..n], s);
      WriteFilesWrote(world, part[n], ProcessAll(world, part[..n], s));
    }
  }

  lemma RunStamps(world: World, hooks: seq<HookFile>, s: Store)
    ensures StampsKnown(hooks, RunHook(world, hooks, s))
  {
    ProcessAllStamps(world, hooks, hooks, SweepStamps(hooks, Sweep(world, hooks, s)));
  }

  lemma NothingToSweep(world: World, hooks: seq<HookFile>, s: Store)
    ensures SweepStamps(hooks, Sweep(world, hooks, s)) == s <==> NoStale(hooks, s) && StampsKnown(hooks, s)
    ensures SweepStamps(hooks, Sweep(world, hooks, s)).writes == s.writes
  {
    var u := Sweep(world, hooks, s);
    SweepNothing(world, hooks, s);
    SweepEffect(world, hooks, s);
    if NoStale(hooks, s) {
      if StampsKnown(hooks, s) {
        assert SweepStamps(hooks, s).stamps == s.stamps;
      } else {
        var id :| id in s.stamps && !exists h :: h in hooks && h.appId == id;
        assert id !in SweepStamps(hooks, s).stamps;
      }
    } else {
      var k :| k in s.docs && Stale(hooks, s.docs[k]);
      assert k !in u.docs;
    }
  }

  /** Whatever the store and the world: a run changes nothing if and only if each of our files has
      a manifest behind it, each stamp has one, and no manifest comes to a write. */
  lemma NothingToDo(world: World, hooks: seq<HookFile>, s: Store)
    ensures RunHook(world, hooks, s) == s <==>
            NoStale(hooks, s) && StampsKnown(hooks, s) && forall h :: h in hooks ==> !Attempts(world, s, h)
  {
    var swept := SweepStamps(hooks, Sweep(world, hooks, s));
    NothingToSweep(world, hooks, s);
    ProcessAllCounts(world, hooks, swept);
    if swept == s && forall h :: h in hooks ==> !Attempts(world, s, h) { NothingAttempted(world, hooks, s); }
  }

  /** A second run on the same manifests changes nothing exactly when each of our files has a
      manifest behind it and no manifest comes to a write. */
  lemma SecondRun(world: World, again: World, hooks: seq<HookFile>, s: Store)
    ensures
      var t := RunHook(world, hooks, s);
      RunHook(again, hooks, t) == t <==> NoStale(hooks, t) && forall h :: h in hooks ==> !Attempts(again, t, h)
  {
    RunStamps(world, hooks, s);
    NothingToDo(again, hooks, RunHook(world, hooks, s));
  }

  /** The files that every complete processing of a manifest writes. */
  predicate MainKey(h: HookFile, k: Key) {
    && k.name == StripVersion(h.appId)
    && k.kind == if ServicesOf(h) != [] then Application else Provider
  }

  /** A manifest that is processed completely leaves a file of its own. */
  lemma CompletedWritesFile(world: World, h: HookFile, s: Store, k: Key)
    requires IsDue(s, h) && UpToDate(Process(world, h, s), h) && MainKey(h, k)
    ensures var t := Process(world, h, s); k in t.docs && t.docs[k].ours && t.docs[k].profile == h.appId
  {
    WriteFilesWrote(world, h, s);
  }

  lemma {:induction false} WriteServicesSpares(world: World, h: HookFile, s: Store, i: nat, k: Key)
    requires !k.kind.Service? && k in s.docs
    ensures var t := WriteServices(world, h, s, i).0; k in t.docs && t.docs[k] == s.docs[k]
    decreases |ServicesOf(h)| - i
  {
    if i < |ServicesOf(h)| {
      var v := ServicesOf(h)[i];
      WriteServicesSpares(world, h, AfterWrite(world, s, Key(Service, ServiceId(h, v)), ServiceDoc(h, v)), i + 1, k);
    }
  }

  lemma WritePluginsSpares(world: World, h: HookFile, s: Store, k: Key)
    requires k in s.docs && k != Key(Provider, StripVersion(h.appId))
    ensures var t := WritePlugins(world, h, s).0; k in t.docs && t.docs[k] == s.docs[k]
  {
  }

  lemma WriteFilesSpares(world: World, h: HookFile, s: Store, k: Key)
    requires !k.kind.Service? && k in s.docs && k.name != StripVersion(h.appId)
    ensures var t := WriteFiles(world, h, s).0; k in t.docs && t.docs[k] == s.docs[k]
  {
    WriteServicesSpares(world, h, s, 0, k);
    WritePluginsSpares(world, h, WriteServices(world, h, s, 0).0, k);
  }

  /** Another manifest does not touch it. */
  lemma ProcessSparesFile(world: World, h: HookFile, s: Store, k: Key)
    requires !k.kind.Service? && k in s.docs && k.name != StripVersion(h.appId)
    ensures var t := Process(world, h, s); k in t.docs && t.docs[k] == s.docs[k]
  {
    WriteFilesSpares(world, h, s, k);
  }

  lemma {:induction false} ProcessAllSparesFile(world: World, hooks: seq<HookFile>, s: Store, k: Key)
    requires !k.kind.Service? && k in s.docs && forall h :: h in hooks ==> k.name != StripVersion(h.appId)
    ensures var t := ProcessAll(world, hooks, s); k in t.docs && t.docs[k] == s.docs[k]
  {
    if hooks != [] {
      var n := |hooks| - 1;
      assert hooks[n] in hooks && forall h :: h in hooks[..n] ==> h in hooks;
      ProcessAllSparesFile(world, hooks[..n], s, k);
      ProcessSparesFile(world, hooks[n], ProcessAll(world, hooks[..n], s), k);
    }
  }

  lemma {:induction false} ProcessAllAppend(world: World, front: seq<HookFile>, back: seq<HookFile>, s: Store)
    ensures ProcessAll(world, front + back, s) == ProcessAll(world, back, ProcessAll(world, front, s))
    decreases |back|
  {
    if back == [] {
      assert front + back == front;
    } else {
      var n := |back| - 1;
      assert (front + back)[..|front| + n] == front + back[..n];
      ProcessAllAppend(world, front, back[..n], s);
    }
  }

  /** Two manifests with one short id: the hook file of one stands for the other. */
  lemma SharedTarget(hooks: seq<HookFile>, h: HookFile, other: HookFile)
    requires other in hooks && GlobFree(other.appId) && StripVersion(h.appId) == StripVersion(other.appId)
    ensures HasHook(hooks, h.appId) || ThreeParts(h.appId) || h.appId == other.appId
  {
    OwnHookMatches(other.appId, "accounts");
    assert Pattern(h.appId, "accounts") == Pattern(other.appId, "accounts");
  }

  lemma TargetsApart(hooks: seq<HookFile>, h: HookFile, other: HookFile)
    requires h in hooks && other in hooks && GlobFree(h.appId) && GlobFree(other.appId)
    requires !HasHook(hooks, h.appId) && h.appId != other.appId
    ensures StripVersion(h.appId) != StripVersion(other.appId)
  {
    OwnHookMatches(h.appId, "accounts");
    if StripVersion(h.appId) == StripVersion(other.appId) { SharedTarget(hooks, h, other); }
  }

  lemma OneAmongOthers(hooks: seq<HookFile>, i: nat)
    requires Distinct(hooks) && i < |hooks|
    ensures hooks == (hooks[..i] + [hooks[i]]) + hooks[i + 1..] && (hooks[..i] + [hooks[i]])[..i] == hooks[..i]
    ensures forall h :: h in hooks[..i] || h in hooks[i + 1..] ==> h in hooks && h.appId != hooks[i].appId
  {
  }

  /** The file of a manifest that no hook file matches is still there, and stale, at the end. */
  lemma DueWithoutHookIsStale(world: World, hooks: seq<HookFile>, s: Store, i: nat)
    requires Distinct(hooks) && (forall h :: h in hooks ==> GlobFree(h.appId)) && i < |hooks|
    requires IsDue(s, hooks[i]) && !HasHook(hooks, hooks[i].appId) && UpToDate(ProcessAll(world, hooks, s), hooks[i])
    ensures !NoStale(hooks, ProcessAll(world, hooks, s))
  {
    var h, front, back := hooks[i], hooks[..i], hooks[i + 1..];
    var k := Key(if ServicesOf(h) != [] then Application else Provider, StripVersion(h.appId));
    var u := ProcessAll(world, front, s);
    var v := ProcessAll(world, front + [h], s);
    OneAmongOthers(hooks, i);
    ProcessAllAppend(world, front + [h], back, s);
    ProcessAllSparesStamps(world, front, s, h);
    ProcessAllSparesStamps(world, back, v, h);
    CompletedWritesFile(world, h, u, k);
    forall other | other in back ensures k.name != StripVersion(other.appId) { TargetsApart(hooks, h, other); }
    ProcessAllSparesFile(world, back, v, k);
  }

  lemma SweepSparesStamps(world: World, hooks: seq<HookFile>, s: Store)
    ensures
      var t := SweepStamps(hooks, Sweep(world, hooks, s));
      NoStale(hooks, t) && forall h :: h in hooks ==> (IsDue(t, h) <==> IsDue(s, h))
  {
    SweepNothing(world, hooks, s);
  }

  /** There is a file that was written for the manifest. */
  ghost predicate HasFile(s: Store, h: HookFile) {
    exists k :: k in s.docs && s.docs[k].ours && s.docs[k].profile == h.appId
  }

  /** From `s` to `t` nothing but files of the manifests was written. */
  ghost predicate WroteForThese(hooks: seq<HookFile>, s: Store, t: Store) {
    forall k :: k in t.docs && !(k in s.docs && t.docs[k] == s.docs[k]) ==>
      t.docs[k].ours && exists h :: h in hooks && t.docs[k].profile == h.appId
  }

  lemma {:induction false} ProcessAllWrote(world: World, hooks: seq<HookFile>, s: Store)
    ensures WroteForThese(hooks, s, ProcessAll(world, hooks, s))
  {
    if hooks != [] {
      var n := |hooks| - 1;
      var u := ProcessAll(world, hooks[..n], s);
      ProcessAllWrote(world, hooks[..n], s);
      WriteFilesWrote(world, hooks[n], u);
      WroteForMore(hooks, s, u, Process(world, hooks[n], u));
    }
  }

  lemma WroteForMore(hooks: seq<HookFile>, s: Store, t: Store, u: Store)
    requires hooks != [] && WroteForThese(hooks[..|hooks| - 1], s, t)
    requires forall k :: k in u.docs && !(k in t.docs && u.docs[k] == t.docs[k]) ==>
               u.docs[k].ours && u.docs[k].profile == hooks[|hooks| - 1].appId
    ensures WroteForThese(hooks, s, u)
  {
    var n := |hooks| - 1;
    assert hooks[n] in hooks && forall h :: h in hooks[..n] ==> h in hooks;
  }

  lemma FreshExactly(world: World, hooks: seq<HookFile>, s: Store)
    ensures
      var t := RunHook(world, hooks, s);
      NoStale(hooks, t) <==> forall h :: h in hooks && HasFile(t, h) ==> HasHook(hooks, h.appId)
  {
    var swept := SweepStamps(hooks, Sweep(world, hooks, s));
    SweepSparesStamps(world, hooks, s);
    ProcessAllWrote(world, hooks, swept);
    LeftoversExactly(hooks, swept, RunHook(world, hooks, s));
  }

  lemma LeftoversExactly(hooks: seq<HookFile>, s: Store, t: Store)
    requires NoStale(hooks, s) && WroteForThese(hooks, s, t)
    ensures NoStale(hooks, t) <==> forall h :: h in hooks && HasFile(t, h) ==> HasHook(hooks, h.appId)
  {
    if NoStale(hooks, t) {
      forall h | h in hooks && HasFile(t, h) ensures HasHook(hooks, h.appId) {
        var k :| k in t.docs && t.docs[k].ours && t.docs[k].profile == h.appId;
      }
    }
    if forall h :: h in hooks && HasFile(t, h) ==> HasHook(hooks, h.appId) {
      forall k | k in t.docs ensures !Stale(hooks, t.docs[k]) {
        if !(k in s.docs && t.docs[k] == s.docs[k]) {
          var h :| h in hooks && t.docs[k].profile == h.appId;
          assert HasFile(t, h);
        }
      }
    }
  }

  /** Whatever the store, the manifests and the worlds of the two runs: the second changes nothing
      if and only if no manifest comes to a write in it, and each that has left a file leads from
      its id back to a manifest. */
  lemma ConvergesExactly(world: World, again: World, hooks: seq<HookFile>, s: Store)
    ensures
      var t := RunHook(world, hooks, s);
      RunHook(again, hooks, t) == t <==>
      forall h :: h in hooks ==> !Attempts(again, t, h) && (HasFile(t, h) ==> HasHook(hooks, h.appId))
  {
    FreshExactly(world, hooks, s);
    SecondRun(world, again, hooks, s);
  }

  /** The plugin of the manifest, if it has one, can be written. */
  predicate Writable(world: World, h: HookFile) {
    PluginOf(h) == [] || PluginReady(world, h)
  }

  ghost predicate Succeeds(world: World) {
    (forall n :: world.disk(n).Written?) && forall id :: world.touch(id)
  }

  lemma {:induction false} WriteServicesSucceeds(world: World, h: HookFile, s: Store, i: nat)
    requires Succeeds(world)
    ensures WriteServices(world, h, s, i).1
    decreases |ServicesOf(h)| - i
  {
    if i < |ServicesOf(h)| {
      var v := ServicesOf(h)[i];
      WriteServicesSucceeds(world, h, AfterWrite(world, s, Key(Service, ServiceId(h, v)), ServiceDoc(h, v)), i + 1);
    }
  }

  /** When all writes succeed, a manifest is completed unless its plugin cannot be written. */
  lemma ProcessSucceeds(world: World, h: HookFile, s: Store)
    requires Succeeds(world)
    ensures UpToDate(Process(world, h, s), h) <==> UpToDate(s, h) || (IsValid(h) && Writable(world, h))
  {
    WriteServicesSucceeds(world, h, s, 0);
    WriteFilesWrote(world, h, s);
  }

  lemma RunSucceeds(world: World, hooks: seq<HookFile>, s: Store, i: nat)
    requires Succeeds(world) && Distinct(hooks) && i < |hooks|
    ensures UpToDate(ProcessAll(world, hooks, s), hooks[i]) <==>
            UpToDate(s, hooks[i]) || (IsValid(hooks[i]) && Writable(world, hooks[i]))
  {
    var h, front, back := hooks[i], hooks[..i], hooks[i + 1..];
    OneAmongOthers(hooks, i);
    ProcessAllAppend(world, front + [h], back, s);
    ProcessAllSparesStamps(world, front, s, h);
    ProcessAllSparesStamps(world, back, ProcessAll(world, front + [h], s), h);
    ProcessSucceeds(world, h, ProcessAll(world, front, s));
  }

  /** What a manifest that is due has to be like for the run to be the last that changes something. */
  ghost predicate Settles(world: World, again: World, hooks: seq<HookFile>, h: HookFile) {
    if Writable(world, h) then HasHook(hooks, h.appId) else ServicesOf(h) == [] && !PluginReady(again, h)
  }

  lemma SettledRunStaysFresh(world: World, again: World, hooks: seq<HookFile>, s: Store)
    requires Distinct(hooks) && NoStale(hooks, s)
    requires forall h :: h in hooks && IsDue(s, h) ==> Settles(world, again, hooks, h)
    ensures NoStale(hooks, ProcessAll(world, hooks, s))
  {
    forall i | 0 <= i < |hooks| && Attempts(world, ProcessAll(world, hooks[..i], s), hooks[i])
      ensures HasHook(hooks, hooks[i].appId)
    {
      ProcessAllSparesStamps(world, hooks[..i], s, hooks[i]);
      assert Settles(world, again, hooks, hooks[i]);
    }
    ProcessAllKeepsFresh(world, hooks, hooks, s);
  }

  /** Said of the input alone, for writes that succeed: a second run changes nothing if and only if
      each manifest that is due leads back to a manifest, or has nothing but a plugin that could not
      be written and cannot be now. */
  lemma SuccessConvergesExactly(world: World, again: World, hooks: seq<HookFile>, s: Store)
    requires Succeeds(world) && Distinct(hooks) && forall h :: h in hooks ==> GlobFree(h.appId)
    ensures
      var t := RunHook(world, hooks, s);
      RunHook(again, hooks, t) == t <==> forall h :: h in hooks && IsDue(s, h) ==> Settles(world, again, hooks, h)
  {
    var swept, t := SweepStamps(hooks, Sweep(world, hooks, s)), RunHook(world, hooks, s);
    SweepSparesStamps(world, hooks, s);
    SecondRun(world, again, hooks, s);
    forall i | 0 <= i < |hooks| { RunSucceeds(world, hooks, swept, i); }
    if forall h :: h in hooks && IsDue(s, h) ==> Settles(world, again, hooks, h) {
      SettledRunStaysFresh(world, again, hooks, swept);
    } else {
      var h :| h in hooks && IsDue(s, h) && !Settles(world, again, hooks, h);
      var i :| 0 <= i < |hooks| && hooks[i] == h;
      if Writable(world, h) { DueWithoutHookIsStale(world, hooks, swept, i); }
    }
  }

  /** A complete run is followed by one that changes nothing if and only if each manifest that was
      due leads from its own id back to a hook file; whatever the file system would answer. */
  lemma CompleteConvergesExactly(world: World, again: World, hooks: seq<HookFile>, s: Store)
    requires Distinct(hooks) && (forall h :: h in hooks ==> GlobFree(h.appId))
    requires Complete(hooks, RunHook(world, hooks, s))
    ensures
      var t := RunHook(world, hooks, s);
      RunHook(again, hooks, t) == t <==> forall h :: h in hooks && IsDue(s, h) ==> HasHook(hooks, h.appId)
  {
    var swept := SweepStamps(hooks, Sweep(world, hooks, s));
    SweepSparesStamps(world, hooks, s);
    SecondRun(world, again, hooks, s);
    if forall h :: h in hooks && IsDue(s, h) ==> HasHook(hooks, h.appId) {
      forall i | 0 <= i < |hooks| { ProcessAllSparesStamps(world, hooks[..i], swept, hooks[i]); }
      ProcessAllKeepsFresh(world, hooks, hooks, swept);
    } else {
      var h :| h in hooks && IsDue(s, h) && !HasHook(hooks, h.appId);
      var i :| 0 <= i < |hooks| && hooks[i] == h;
      DueWithoutHookIsStale(world, hooks, swept, i);
    }
  }

  lemma RunStaysFresh(world: World, hooks: seq<HookFile>, s: Store)
    requires forall i :: 0 <= i < |hooks| ==> HasHook(hooks, hooks[i].appId)
    ensures NoStale(hooks, RunHook(world, hooks, s))
  {
    SweepSparesStamps(world, hooks, s);
    ProcessAllKeepsFresh(world, hooks, hooks, SweepStamps(hooks, Sweep(world, hooks, s)));
  }

  /** Runs converge: with proper ids a second run removes nothing and disables nothing, and it
      changes nothing at all exactly when no manifest comes to a write in it, as when each is
      invalid or has been written; whatever the file system would answer. */
  lemma RunsConverge(world: World, again: World, hooks: seq<HookFile>, s: Store)
    requires ProperIds(hooks)
    ensures
      var t := RunHook(world, hooks, s);
      && (RunHook(again, hooks, t) == t <==> forall h :: h in hooks ==> !Attempts(again, t, h))
      && (Complete(hooks, t) ==> RunHook(again, hooks, t) == t)
  {
    forall i | 0 <= i < |hooks| { ProperIdHasHook(hooks, hooks[i]); }
    RunStaysFresh(world, hooks, s);
    SecondRun(world, again, hooks, s);
  }

  lemma SingleRun(world: World, h: HookFile, s: Store)
    ensures
      var swept := SweepStamps([h], Sweep(world, [h], s));
      && RunHook(world, [h], s) == Process(world, h, swept)
      && NoStale([h], swept) && (UpToDate(swept, h) <==> UpToDate(s, h))
  {
    var swept := SweepStamps([h], Sweep(world, [h], s));
    SweepNothing(world, [h], s);
    assert h in [h] && [h][..0] == [] && ProcessAll(world, [], swept) == swept;
  }

  /** A manifest alone in its directory, written in this run: what was written lasts exactly when
      the id has three components. */
  lemma LastsIfThreeParts(world: World, again: World, h: HookFile, s: Store)
    requires GlobFree(h.appId) && IsDue(s, h) && UpToDate(RunHook(world, [h], s), h)
    ensures
      var t := RunHook(world, [h], s);
      RunHook(again, [h], t) == t <==> ThreeParts(h.appId)
  {
    OwnHookMatches(h.appId, "accounts");
    CompleteConvergesExactly(world, again, [h], s);
    assert h in [h];
  }

  // ----- an id of two components -----

  const EMPTY := Store(map[], map[], map[], {}, 0)

  const WORKING := World((n: nat) => Written, (p: string) => false, (p: string) => false, (p: string) => true,
                         (p: string) => "", (p: string) => None)

  const PROVIDER: Json := Object([Member("provider", Str("x"))])

  const ONE_SERVICE: seq<Json> := [PROVIDER]

  function OneService(appId: string, mtime: Time): HookFile {
    HookFile(appId, mtime, true, [Member("services", Array([PROVIDER]))])
  }

  lemma OneServiceIs(appId: string, mtime: Time)
    ensures ServicesOf(OneService(appId, mtime)) == ONE_SERVICE && PluginOf(OneService(appId, mtime)) == []
  {
    var services := Member("services", Array(ONE_SERVICE));
    var main := [services];
    assert main[1..] == [] && |"services"| == 8 && |"plugin"| == 6;
    assert ObjectAt(main, "plugin") == ObjectAt(main[1..], "plugin");
  }

  lemma TwoPartsHaveNoHook(mtime: Time)
    ensures !HasHook([OneService("p_a", mtime)], "p_a")
  {
    var h := OneService("p_a", mtime);
    TwoPartsJoined("p", "a");
    assert "p" + "_" + "a" == "p_a";
    OwnHookMatches("p_a", "accounts");
    forall x | x in [h] ensures x == h {}
  }

  /** Everything succeeds, and yet a second run of the hook takes the files away again. */
  lemma TwoPartsDoNotLast() returns (h: HookFile)
    ensures h.appId == "p_a" && IsDue(EMPTY, h)
    ensures var t := RunHook(WORKING, [h], EMPTY); RunHook(WORKING, [h], t) != t
  {
    h := OneService("p_a", 1);
    OneServiceIs("p_a", 1);
    TwoPartsHaveNoHook(1);
    SuccessConvergesExactly(WORKING, WORKING, [h], EMPTY);
    assert h in [h] && IsDue(EMPTY, h) && !Settles(WORKING, WORKING, [h], h);
  }
}
