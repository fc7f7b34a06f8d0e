/** What the files say that click-hooks/accounts.cpp writes for a manifest, and when it writes them,
    said of the manifest itself. */
module Contents {
  import opened Options
  import opened Names
  import opened Settings
  import opened Hooks

  /** The services and the plugin of a manifest; one that cannot be read has none. */
  function Services(h: HookFile): seq<Json> {
    if h.readable then ArrayAt(h.main, "services") else []
  }

  function Plugin(h: HookFile): seq<Member> {
    if h.readable then ObjectAt(h.main, "plugin") else []
  }

  /** The name of the file of a service. */
  function NameOf(h: HookFile, service: Json): string {
    StripVersion(h.appId) + "_" + StringAt(MembersOf(service), "provider")
  }

  /** A file of ours for the manifest, whose template says what the object says. */
  ghost predicate Tells(s: Store, k: Key, h: HookFile, json: seq<Member>) {
    && k in s.docs && s.docs[k].ours && s.docs[k].profile == h.appId
    && AllSay(Leaves("", s.docs[k].template), TemplateBindings(json))
  }

  /** No later service of the manifest has the same name. */
  ghost predicate IsLast(h: HookFile, j: nat) {
    && j < |Services(h)|
    && forall k :: j < k < |Services(h)| ==> NameOf(h, Services(h)[k]) != NameOf(h, Services(h)[j])
  }

  ghost predicate SameAt(s: Store, t: Store, k: Key) {
    (k in t.docs <==> k in s.docs) && (k in s.docs ==> t.docs[k] == s.docs[k])
  }

  lemma {:induction false} WriteServicesSparesOthers(world: World, h: HookFile, s: Store, i: nat, k: Key)
    requires forall j :: i <= j < |Services(h)| ==> k != Key(Service, NameOf(h, Services(h)[j]))
    ensures SameAt(s, WriteServices(world, h, s, i).0, k)
    decreases |Services(h)| - i
  {
    if i < |Services(h)| {
      var v := Services(h)[i];
      var t := AfterWrite(world, s, Key(Service, ServiceId(h, v)), ServiceDoc(h, v));
      WriteServicesSparesOthers(world, h, t, i + 1, k);
    }
  }

  lemma {:induction false} WriteServicesTells(world: World, h: HookFile, s: Store, i: nat, j: nat)
    requires WriteServices(world, h, s, i).1 && i <= j && IsLast(h, j)
    ensures Tells(WriteServices(world, h, s, i).0, Key(Service, NameOf(h, Services(h)[j])), h,
                  MembersOf(Services(h)[j]))
    decreases |Services(h)| - i
  {
    var v := Services(h)[i];
    var t := AfterWrite(world, s, Key(Service, ServiceId(h, v)), ServiceDoc(h, v));
    if i < j {
      WriteServicesTells(world, h, t, i + 1, j);
    } else {
      TemplateMeaning(MembersOf(v));
      WriteServicesSparesOthers(world, h, t, i + 1, Key(Service, NameOf(h, v)));
    }
  }

  lemma {:induction false} IdsAreNames(h: HookFile, services: seq<Json>)
    ensures |ServiceIds(h, services)| == |services|
    ensures forall j :: 0 <= j < |services| ==> ServiceIds(h, services)[j] == NameOf(h, services[j])
  {
    if services != [] { IdsAreNames(h, services[..|services| - 1]); }
  }

  /** What a plugin needs for its provider file to be written. */
  ghost predicate Needed(world: World, h: HookFile) {
    var qml := StringAt(Plugin(h), "qml");
    && qml != ""
    && (if qml[0] == '/' then world.present(qml) else world.present(world.packageDir(h.appId) + "/" + qml))
    && world.link(StripVersion(h.appId))
    && StringAt(Plugin(h), "name") != "" && StringAt(Plugin(h), "icon") != ""
  }

  /** A provider file is attempted exactly when the plugin has what it needs. */
  lemma PluginIsWritten(world: World, h: HookFile, s: Store)
    requires Plugin(h) != []
    ensures
      var (t, ok) := WritePlugins(world, h, s);
      && (Needed(world, h) <==> t.writes == s.writes + 1) && (!Needed(world, h) ==> t == s)
      && (ok <==> Needed(world, h) && world.disk(s.writes).Written?)
      && (ok ==> Tells(t, Key(Provider, StripVersion(h.appId)), h, Plugin(h)))
      && forall k :: k != Key(Provider, StripVersion(h.appId)) ==> SameAt(s, t, k)
  {
    TemplateMeaning(Plugin(h));
  }

  lemma NoPluginIsWritten(world: World, h: HookFile, s: Store)
    requires Plugin(h) == []
    ensures WritePlugins(world, h, s) == (s, true)
  {
  }

  lemma PluginSpares(world: World, h: HookFile, s: Store, k: Key)
    requires k != Key(Provider, StripVersion(h.appId))
    ensures SameAt(s, WritePlugins(world, h, s).0, k)
  {
    if Plugin(h) != [] { PluginIsWritten(world, h, s); } else { NoPluginIsWritten(world, h, s); }
  }

  /** The application file lists the services of the manifest, in order. */
  ghost predicate ListsServices(s: Store, h: HookFile) {
    var k := Key(Application, StripVersion(h.appId));
    && k in s.docs && s.docs[k].ours && s.docs[k].profile == h.appId
    && |s.docs[k].services| == |Services(h)|
    && forall j :: 0 <= j < |Services(h)| ==> s.docs[k].services[j] == NameOf(h, Services(h)[j])
  }

  lemma ApplicationLists(world: World, h: HookFile, s: Store)
    requires world.disk(s.writes).Written?
    ensures
      var t := AfterWrite(world, s, Key(Application, StripVersion(h.appId)), ApplicationDoc(h));
      ListsServices(t, h) && forall k :: k != Key(Application, StripVersion(h.appId)) ==> SameAt(s, t, k)
  {
    IdsAreNames(h, Services(h));
  }

  /** Neither the manifest's application file nor one of its service files or its provider file. */
  ghost predicate Foreign(h: HookFile, k: Key) {
    && k != Key(Application, StripVersion(h.appId)) && k != Key(Provider, StripVersion(h.appId))
    && forall j :: 0 <= j < |Services(h)| ==> k != Key(Service, NameOf(h, Services(h)[j]))
  }

  lemma TellsSame(s: Store, t: Store, k: Key, h: HookFile, json: seq<Member>)
    requires Tells(s, k, h, json) && SameAt(s, t, k)
    ensures Tells(t, k, h, json)
  {
  }

  lemma WritesParts(world: World, h: HookFile, s: Store) returns (t: Store, u: Store)
    requires WriteFiles(world, h, s).1
    ensures (t, true) == WriteServices(world, h, s, 0) && (u, true) == WritePlugins(world, h, t)
    ensures
      var v := WriteFiles(world, h, s).0;
      if Services(h) == [] then v == u
      else world.disk(u.writes).Written?
           && v == AfterWrite(world, u, Key(Application, StripVersion(h.appId)), ApplicationDoc(h))
  {
    t := WriteServices(world, h, s, 0).0;
    u := WritePlugins(world, h, t).0;
  }

  lemma LastWriteSpares(world: World, h: HookFile, u: Store, v: Store, k: Key)
    requires k != Key(Application, StripVersion(h.appId))
    requires if Services(h) == [] then v == u
             else v == AfterWrite(world, u, Key(Application, StripVersion(h.appId)), ApplicationDoc(h))
    ensures SameAt(u, v, k)
  {
  }

  /** When all files of a manifest have been written, the file of each service says what the service
      says, the provider file says what the plugin says, the application file lists the services,
      and every other file is as it was. */
  lemma WrittenFilesTell(world: World, h: HookFile, s: Store)
    requires WriteFiles(world, h, s).1
    ensures
      var t := WriteFiles(world, h, s).0;
      && (forall j :: 0 <= j < |Services(h)| && IsLast(h, j) ==>
            Tells(t, Key(Service, NameOf(h, Services(h)[j])), h, MembersOf(Services(h)[j])))
      && (Plugin(h) != [] ==> Tells(t, Key(Provider, StripVersion(h.appId)), h, Plugin(h)))
      && (Services(h) != [] ==> ListsServices(t, h))
      && (forall k :: Foreign(h, k) ==> SameAt(s, t, k))
  {
    var v := WriteFiles(world, h, s).0;
    var t, u := WritesParts(world, h, s);
    forall j | 0 <= j < |Services(h)| && IsLast(h, j)
      ensures Tells(v, Key(Service, NameOf(h, Services(h)[j])), h, MembersOf(Services(h)[j]))
    {
      var k := Key(Service, NameOf(h, Services(h)[j]));
      WriteServicesTells(world, h, s, 0, j);
      PluginSpares(world, h, t, k);
      LastWriteSpares(world, h, u, v, k);
    }
    if Plugin(h) != [] {
      PluginIsWritten(world, h, t);
      LastWriteSpares(world, h, u, v, Key(Provider, StripVersion(h.appId)));
    }
    if Services(h) != [] { ApplicationLists(world, h, u); }
    forall k | Foreign(h, k) ensures SameAt(s, v, k) {
      WriteServicesSparesOthers(world, h, s, 0, k);
      PluginSpares(world, h, t, k);
      LastWriteSpares(world, h, u, v, k);
    }
  }

  /** A manifest is left alone exactly when its stamp has the time of the manifest, older or newer
      will not do, or when it has nothing that can be written. */
  lemma LeftAloneExactly(world: World, h: HookFile, s: Store)
    ensures
      Process(world, h, s) == s <==>
      || (h.appId in s.stamps && s.stamps[h.appId] == h.mtime)
      || (Services(h) == [] && (Plugin(h) == [] || !Needed(world, h)))
  {
    ProcessCounts(world, h, s);
    if Plugin(h) != [] { PluginIsWritten(world, h, s); }
  }

  /** The stamp is set when all files have been written and the stamp file could be made. */
  lemma CompletedTells(world: World, h: HookFile, s: Store)
    requires !(h.appId in s.stamps && s.stamps[h.appId] == h.mtime)
    requires var t := Process(world, h, s); h.appId in t.stamps && t.stamps[h.appId] == h.mtime
    ensures
      var t := Process(world, h, s);
      && (forall j :: 0 <= j < |Services(h)| && IsLast(h, j) ==>
            Tells(t, Key(Service, NameOf(h, Services(h)[j])), h, MembersOf(Services(h)[j])))
      && (Plugin(h) != [] ==> Tells(t, Key(Provider, StripVersion(h.appId)), h, Plugin(h)))
      && (Services(h) != [] ==> ListsServices(t, h))
      && (forall k :: Foreign(h, k) ==> SameAt(s, t, k))
  {
    WriteFilesWrote(world, h, s);
    WrittenFilesTell(world, h, s);
    var v := WriteFiles(world, h, s).0;
    assert Process(world, h, s).docs == v.docs;
  }
}
