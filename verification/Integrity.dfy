/** Referential integrity of the files that click-hooks/accounts.cpp writes, over all runs of the
    hook. */
module Integrity {
  import opened Hooks
  import opened Names
  import opened Text

  /** There is a file for service `id`, of a version of the application `short`. */
  ghost predicate Backed(s: Store, id: string, short: string) {
    && |Split(short, '_')| == 2 && short + "_" <= id
    && Key(Service, id) in s.docs
    && s.docs[Key(Service, id)].ours && StripVersion(s.docs[Key(Service, id)].profile) == short
  }

  ghost predicate Lists(s: Store, k: Key, id: string) {
    k in s.docs && k.kind.Application? && s.docs[k].ours && id in s.docs[k].services
  }

  /** Every service that an application file of ours lists has a file. */
  ghost predicate Integrity(s: Store) {
    forall k, id :: Lists(s, k, id) ==> Backed(s, id, StripVersion(s.docs[k].profile))
  }

  ghost predicate Listed(s: Store, id: string) {
    exists k :: Lists(s, k, id)
  }

  /** The next write does not fail once the file is open. */
  ghost predicate Careful(world: World, s: Store) {
    !world.disk(s.writes).NotWritten?
  }

  /** Writing the services from number `i` on comes to a write that takes away the file of a
      service that is listed. */
  ghost predicate Loses(world: World, h: HookFile, s: Store, i: nat)
    decreases |ServicesOf(h)| - i
  {
    i < |ServicesOf(h)| &&
    var v := ServicesOf(h)[i];
    match world.disk(s.writes)
    case Written => Loses(world, h, AfterWrite(world, s, Key(Service, ServiceId(h, v)), ServiceDoc(h, v)), i + 1)
    case NotOpened => false
    case NotWritten => Listed(s, ServiceId(h, v))
  }

  /** The same of a whole manifest: it is to be processed, and loses a listed service. */
  ghost predicate LosesAt(world: World, h: HookFile, s: Store) {
    !UpToDate(s, h) && IsValid(h) && Loses(world, h, s, 0)
  }

  lemma PrefixApart(a: string, b: string, id: string)
    requires |Split(a, '_')| == 2 && |Split(b, '_')| == 2 && a + "_" <= id && b + "_" <= id
    ensures a == b
  {
    var p, q := id[|a| + 1..], id[|b| + 1..];
    assert id == a + "_" + p && id == b + "_" + q;
    ShortIdsApart(a, b, p, q);
  }

  ghost predicate OwnService(h: HookFile, id: string) {
    StripVersion(h.appId) + "_" <= id
  }

  lemma ServiceWriteBacks(world: World, h: HookFile, s: Store, id: string, d: Doc, other: string, short: string)
    requires ThreeParts(h.appId) && OwnService(h, id) && d.ours && d.profile == h.appId
    requires Careful(world, s) || other != id
    ensures Backed(s, other, short) ==> Backed(AfterWrite(world, s, Key(Service, id), d), other, short)
    ensures WriteOk(world, s) ==> Backed(AfterWrite(world, s, Key(Service, id), d), id, StripVersion(h.appId))
  {
    StrippedHasTwo(h.appId);
    if Backed(s, other, short) && other == id { PrefixApart(short, StripVersion(h.appId), id); }
  }

  lemma ServiceWriteKeeps(world: World, h: HookFile, s: Store, id: string, d: Doc)
    requires ThreeParts(h.appId) && OwnService(h, id) && d.ours && d.profile == h.appId && Integrity(s)
    requires Careful(world, s) || !Listed(s, id)
    ensures Integrity(AfterWrite(world, s, Key(Service, id), d))
  {
    var t := AfterWrite(world, s, Key(Service, id), d);
    forall k, x | Lists(t, k, x) ensures Backed(t, x, StripVersion(t.docs[k].profile)) {
      assert Lists(s, k, x);
      ServiceWriteBacks(world, h, s, id, d, x, StripVersion(s.docs[k].profile));
    }
  }

  ghost predicate AllBacked(s: Store, ids: seq<string>, short: string) {
    forall i :: 0 <= i < |ids| ==> Backed(s, ids[i], short)
  }

  lemma {:induction false} WriteServicesKeeps(world: World, h: HookFile, s: Store, i: nat)
    requires ThreeParts(h.appId) && Integrity(s) && !Loses(world, h, s, i) && i <= |ServicesOf(h)|
    requires AllBacked(s, ServiceIds(h, ServicesOf(h)[..i]), StripVersion(h.appId))
    ensures var (t, ok) := WriteServices(world, h, s, i);
            Integrity(t) && (ok ==> AllBacked(t, ServiceIds(h, ServicesOf(h)), StripVersion(h.appId)))
    decreases |ServicesOf(h)| - i
  {
    var all, short := ServicesOf(h), StripVersion(h.appId);
    if i == |all| {
      assert all[..i] == all;
    } else {
      var id := ServiceId(h, all[i]);
      var t := AfterWrite(world, s, Key(Service, id), ServiceDoc(h, all[i]));
      assert short + "_" <= id;
      ServiceWriteKeeps(world, h, s, id, ServiceDoc(h, all[i]));
      if WriteOk(world, s) {
        var before := ServiceIds(h, all[..i]);
        forall j | 0 <= j < |before| ensures Backed(t, before[j], short) {
          ServiceWriteBacks(world, h, s, id, ServiceDoc(h, all[i]), before[j], short);
        }
        ServiceWriteBacks(world, h, s, id, ServiceDoc(h, all[i]), id, short);
        assert all[..i + 1][..i] == all[..i];
        assert ServiceIds(h, all[..i + 1]) == before + [id];
        WriteServicesKeeps(world, h, t, i + 1);
      }
    }
  }

  lemma PluginWritesProvider(world: World, h: HookFile, s: Store)
    ensures
      var t := WritePlugins(world, h, s).0;
      forall k: Key :: !k.kind.Provider? ==>
        (k in t.docs <==> k in s.docs) && (k in s.docs ==> t.docs[k] == s.docs[k])
  {
  }

  lemma SameServicesBack(s: Store, t: Store)
    requires forall k: Key :: k.kind.Service? ==>
               (k in t.docs <==> k in s.docs) && (k in s.docs ==> t.docs[k] == s.docs[k])
    ensures forall id, short :: Backed(s, id, short) ==> Backed(t, id, short)
  {
  }

  lemma PluginWriteKeeps(world: World, h: HookFile, s: Store, ids: seq<string>, short: string)
    requires Integrity(s)
    ensures var t := WritePlugins(world, h, s).0;
            Integrity(t) && (AllBacked(s, ids, short) ==> AllBacked(t, ids, short))
  {
    var t := WritePlugins(world, h, s).0;
    PluginWritesProvider(world, h, s);
    SameServicesBack(s, t);
    forall k, x | Lists(t, k, x) ensures Backed(t, x, StripVersion(t.docs[k].profile)) { assert Lists(s, k, x); }
  }

  lemma ApplicationWriteKeeps(world: World, h: HookFile, s: Store)
    requires Integrity(s) && AllBacked(s, ServiceIds(h, ServicesOf(h)), StripVersion(h.appId))
    ensures Integrity(AfterWrite(world, s, Key(Application, StripVersion(h.appId)), ApplicationDoc(h)))
  {
    var own := Key(Application, StripVersion(h.appId));
    var t := AfterWrite(world, s, own, ApplicationDoc(h));
    SameServicesBack(s, t);
    forall k, x | Lists(t, k, x) ensures Backed(t, x, StripVersion(t.docs[k].profile)) {
      if !Lists(s, k, x) || s.docs[k] != t.docs[k] { assert k == own && t.docs[k] == ApplicationDoc(h); }
    }
  }

  lemma ProcessKeepsIntegrity(world: World, h: HookFile, s: Store)
    requires ThreeParts(h.appId) && Integrity(s) && !LosesAt(world, h, s)
    ensures Integrity(Process(world, h, s))
  {
    if !UpToDate(s, h) && IsValid(h) {
      var ids, short := ServiceIds(h, ServicesOf(h)), StripVersion(h.appId);
      var (t, services) := WriteServices(world, h, s, 0);
      var (u, plugins) := WritePlugins(world, h, t);
      assert ServicesOf(h)[..0] == [];
      WriteServicesKeeps(world, h, s, 0);
      PluginWriteKeeps(world, h, t, ids, short);
      if services { ApplicationWriteKeeps(world, h, u); }
      var v := WriteFiles(world, h, s).0;
      assert Integrity(v);
      StampsKeepIntegrity(v, v.stamps[h.appId := h.mtime]);
    }
  }

  /** An application file of ours lists a service that has no file. */
  ghost predicate Dangling(s: Store, id: string) {
    Listed(s, id) && Key(Service, id) !in s.docs
  }

  lemma DanglingBreaks(s: Store, id: string)
    requires Dangling(s, id)
    ensures !Integrity(s)
  {
    var k :| Lists(s, k, id);
    assert !Backed(s, id, StripVersion(s.docs[k].profile));
  }

  lemma {:induction false} WriteServicesLoses(world: World, h: HookFile, s: Store, i: nat) returns (id: string)
    requires Loses(world, h, s, i)
    ensures var (t, ok) := WriteServices(world, h, s, i); !ok && Dangling(t, id)
    decreases |ServicesOf(h)| - i
  {
    var v := ServicesOf(h)[i];
    var t := AfterWrite(world, s, Key(Service, ServiceId(h, v)), ServiceDoc(h, v));
    if world.disk(s.writes).Written? {
      id := WriteServicesLoses(world, h, t, i + 1);
    } else {
      id := ServiceId(h, v);
      var k :| Lists(s, k, id);
      assert Lists(t, k, id);
    }
  }

  lemma FailedWriteBreaksIntegrity(world: World, h: HookFile, s: Store)
    requires LosesAt(world, h, s)
    ensures !Integrity(Process(world, h, s))
  {
    var id := WriteServicesLoses(world, h, s, 0);
    var t := WriteServices(world, h, s, 0).0;
    PluginWritesProvider(world, h, t);
    var u := WritePlugins(world, h, t).0;
    var k :| Lists(t, k, id);
    assert Lists(u, k, id);
    DanglingBreaks(u, id);
    assert Process(world, h, s) == u;
  }

  /** Writing the files of a manifest keeps integrity exactly when no write takes away the file of
      a listed service, whatever else fails. */
  lemma IntegrityExactly(world: World, h: HookFile, s: Store)
    requires ThreeParts(h.appId) && Integrity(s)
    ensures Integrity(Process(world, h, s)) <==> !LosesAt(world, h, s)
  {
    if LosesAt(world, h, s) {
      FailedWriteBreaksIntegrity(world, h, s);
    } else {
      ProcessKeepsIntegrity(world, h, s);
    }
  }

  lemma StampsKeepIntegrity(s: Store, stamps: map<string, Time>)
    requires Integrity(s)
    ensures Integrity(s.(stamps := stamps))
  {
    var t := s.(stamps := stamps);
    forall k, x | Lists(t, k, x) ensures Backed(t, x, StripVersion(t.docs[k].profile)) { assert Lists(s, k, x); }
  }

  /** The sweep takes a service file only together with the application files that list it:
      whether a file is stale depends on nothing but its stripped profile. */
  lemma SweepKeepsIntegrity(world: World, hooks: seq<HookFile>, s: Store)
    requires Integrity(s)
    ensures Integrity(Sweep(world, hooks, s))
  {
    var t := Sweep(world, hooks, s);
    SweepEffect(world, hooks, s);
    forall k, x | Lists(t, k, x) ensures Backed(t, x, StripVersion(t.docs[k].profile)) {
      assert Lists(s, k, x);
      var d, app := s.docs[Key(Service, x)], s.docs[k];
      assert Pattern(d.profile, "accounts") == Pattern(app.profile, "accounts");
      assert HasHook(hooks, d.profile) <==> HasHook(hooks, app.profile);
    }
  }

  /** Integrity holds before and after each manifest of a run. */
  ghost predicate Intact(world: World, hooks: seq<HookFile>, s: Store) {
    forall i :: 0 <= i <= |hooks| ==> Integrity(ProcessAll(world, hooks[..i], s))
  }

  ghost predicate Lossless(world: World, hooks: seq<HookFile>, s: Store) {
    forall i :: 0 <= i < |hooks| ==> !LosesAt(world, hooks[i], ProcessAll(world, hooks[..i], s))
  }

  lemma ProcessAllSnoc(world: World, hooks: seq<HookFile>, s: Store, i: nat)
    requires i < |hooks|
    ensures ProcessAll(world, hooks[..i + 1], s) == Process(world, hooks[i], ProcessAll(world, hooks[..i], s))
  {
    assert hooks[..i + 1][..i] == hooks[..i];
  }

  lemma {:induction false} LosslessUpTo(world: World, hooks: seq<HookFile>, s: Store, i: nat)
    requires Integrity(s) && Lossless(world, hooks, s) && i <= |hooks| && forall h :: h in hooks ==> ThreeParts(h.appId)
    ensures Integrity(ProcessAll(world, hooks[..i], s))
  {
    if i > 0 {
      var h, u := hooks[i - 1], ProcessAll(world, hooks[..i - 1], s);
      LosslessUpTo(world, hooks, s, i - 1);
      ProcessAllSnoc(world, hooks, s, i - 1);
      assert h in hooks && !LosesAt(world, h, u);
      ProcessKeepsIntegrity(world, h, u);
    }
  }

  lemma ProcessAllKeepsIntegrity(world: World, hooks: seq<HookFile>, s: Store)
    requires Integrity(s) && forall h :: h in hooks ==> ThreeParts(h.appId)
    ensures Intact(world, hooks, s) <==> Lossless(world, hooks, s)
    ensures Lossless(world, hooks, s) ==> Integrity(ProcessAll(world, hooks, s))
  {
    if Lossless(world, hooks, s) {
      forall i | 0 <= i <= |hooks| { LosslessUpTo(world, hooks, s, i); }
      assert hooks[..|hooks|] == hooks;
    }
    if Intact(world, hooks, s) {
      forall i | 0 <= i < |hooks| ensures !LosesAt(world, hooks[i], ProcessAll(world, hooks[..i], s)) {
        ProcessAllSnoc(world, hooks, s, i);
        assert Integrity(ProcessAll(world, hooks[..i + 1], s)) && Integrity(ProcessAll(world, hooks[..i], s));
        IntegrityExactly(world, hooks[i], ProcessAll(world, hooks[..i], s));
      }
    }
  }

  // ----- over runs -----

  /** One run: the world as it is then, and the manifests that are installed. */
  datatype Input = Input(world: World, hooks: seq<HookFile>)

  function Runs(inputs: seq<Input>, s: Store): Store {
    if inputs == [] then s
    else
      var last := inputs[|inputs| - 1];
      RunHook(last.world, last.hooks, Runs(inputs[..|inputs| - 1], s))
  }

  lemma RunsSnoc(inputs: seq<Input>, last: Input, s: Store)
    ensures Runs(inputs + [last], s) == RunHook(last.world, last.hooks, Runs(inputs, s))
  {
    assert (inputs + [last])[..|inputs|] == inputs;
  }

  /** The store that a run has swept and is about to write to. */
  function Ready(input: Input, s: Store): Store {
    SweepStamps(input.hooks, Sweep(input.world, input.hooks, s))
  }

  ghost predicate IntactIn(inputs: seq<Input>, s: Store, n: nat)
    requires n < |inputs|
  {
    Intact(inputs[n].world, inputs[n].hooks, Ready(inputs[n], Runs(inputs[..n], s)))
  }

  ghost predicate LosslessIn(inputs: seq<Input>, s: Store, n: nat)
    requires n < |inputs|
  {
    Lossless(inputs[n].world, inputs[n].hooks, Ready(inputs[n], Runs(inputs[..n], s)))
  }

  ghost predicate AlwaysIntact(inputs: seq<Input>, s: Store) {
    forall n :: 0 <= n < |inputs| ==> IntactIn(inputs, s, n)
  }

  ghost predicate NeverLoses(inputs: seq<Input>, s: Store) {
    forall n :: 0 <= n < |inputs| ==> LosslessIn(inputs, s, n)
  }

  ghost predicate ThreePartIds(inputs: seq<Input>) {
    forall n :: 0 <= n < |inputs| ==> forall h :: h in inputs[n].hooks ==> ThreeParts(h.appId)
  }

  lemma ReadyKeepsIntegrity(input: Input, s: Store)
    requires Integrity(s)
    ensures Integrity(Ready(input, s))
  {
    var swept := Sweep(input.world, input.hooks, s);
    SweepKeepsIntegrity(input.world, input.hooks, s);
    StampsKeepIntegrity(swept, SweepStamps(input.hooks, swept).stamps);
  }

  lemma RunKeepsIntegrity(input: Input, s: Store)
    requires Integrity(s) && Lossless(input.world, input.hooks, Ready(input, s))
    requires forall h :: h in input.hooks ==> ThreeParts(h.appId)
    ensures Integrity(RunHook(input.world, input.hooks, s))
  {
    ReadyKeepsIntegrity(input, s);
    ProcessAllKeepsIntegrity(input.world, input.hooks, Ready(input, s));
  }

  lemma RunsStep(inputs: seq<Input>, s: Store, n: nat)
    requires n < |inputs| && ThreePartIds(inputs) && Integrity(Runs(inputs[..n], s)) && LosslessIn(inputs, s, n)
    ensures Integrity(Runs(inputs[..n + 1], s))
  {
    RunsNext(inputs, s, n);
    RunKeepsIntegrity(inputs[n], Runs(inputs[..n], s));
  }

  lemma RunsNext(inputs: seq<Input>, s: Store, n: nat)
    requires n < |inputs|
    ensures Runs(inputs[..n + 1], s) == RunHook(inputs[n].world, inputs[n].hooks, Runs(inputs[..n], s))
  {
    assert inputs[..n + 1] == inputs[..n] + [inputs[n]];
    RunsSnoc(inputs[..n], inputs[n], s);
  }

  lemma {:induction false} NeverLosesUpTo(inputs: seq<Input>, s: Store, n: nat)
    requires Integrity(s) && ThreePartIds(inputs) && NeverLoses(inputs, s) && n <= |inputs|
    ensures Integrity(Runs(inputs[..n], s))
  {
    if n > 0 {
      NeverLosesUpTo(inputs, s, n - 1);
      RunsStep(inputs, s, n - 1);
    }
  }

  lemma IntactExactly(inputs: seq<Input>, s: Store, n: nat)
    requires n < |inputs| && ThreePartIds(inputs) && (Integrity(Runs(inputs[..n], s)) || IntactIn(inputs, s, n))
    ensures IntactIn(inputs, s, n) <==> LosslessIn(inputs, s, n)
  {
    var t := Ready(inputs[n], Runs(inputs[..n], s));
    if Integrity(Runs(inputs[..n], s)) {
      ReadyKeepsIntegrity(inputs[n], Runs(inputs[..n], s));
    } else {
      assert Integrity(ProcessAll(inputs[n].world, inputs[n].hooks[..0], t));
    }
    ProcessAllKeepsIntegrity(inputs[n].world, inputs[n].hooks, t);
  }

  /** Over all runs, with packages installed, upgraded and removed in between, with plugins that
      fail and files that cannot be opened, every service id that an application file of ours
      lists has its service file, at every moment between manifests, if and only if no write takes
      away the file of a listed service. */
  lemma IntegrityOverRuns(inputs: seq<Input>, s: Store)
    requires Integrity(s) && ThreePartIds(inputs)
    ensures AlwaysIntact(inputs, s) <==> NeverLoses(inputs, s)
    ensures NeverLoses(inputs, s) ==> Integrity(Runs(inputs, s))
  {
    if NeverLoses(inputs, s) {
      forall n | 0 <= n <= |inputs| { NeverLosesUpTo(inputs, s, n); }
      assert inputs[..|inputs|] == inputs;
      forall n | 0 <= n < |inputs| { IntactExactly(inputs, s, n); }
    }
    if AlwaysIntact(inputs, s) {
      forall n | 0 <= n < |inputs| { IntactExactly(inputs, s, n); }
    }
  }

  /** In particular when no write fails once its file is open. */
  lemma IntegrityWithCarefulWrites(inputs: seq<Input>, s: Store)
    requires Integrity(s) && ThreePartIds(inputs)
    requires forall i :: 0 <= i < |inputs| ==> forall n :: !inputs[i].world.disk(n).NotWritten?
    ensures Integrity(Runs(inputs, s))
  {
    forall i | 0 <= i < |inputs| ensures LosslessIn(inputs, s, i) {
      forall h, t { CarefulLosesNothing(inputs[i].world, h, t, 0); }
    }
    IntegrityOverRuns(inputs, s);
  }

  lemma {:induction false} CarefulLosesNothing(world: World, h: HookFile, s: Store, i: nat)
    requires forall n :: !world.disk(n).NotWritten?
    ensures !Loses(world, h, s, i)
    decreases |ServicesOf(h)| - i
  {
    if i < |ServicesOf(h)| {
      var v := ServicesOf(h)[i];
      CarefulLosesNothing(world, h, AfterWrite(world, s, Key(Service, ServiceId(h, v)), ServiceDoc(h, v)), i + 1);
    }
  }

  // ----- integrity lost -----

  /** A manifest with one service; a new version of it has a later time. */
  function Manifest(mtime: Time): HookFile {
    OneService("p_a_1", mtime)
  }

  lemma ManifestIsProper(mtime: Time)
    ensures ThreeParts(Manifest(mtime).appId) && GlobFree(Manifest(mtime).appId)
    ensures ServicesOf(Manifest(mtime)) == ONE_SERVICE && PluginOf(Manifest(mtime)) == []
  {
    ThreePartsSplit("p", "a", "1");
    assert "p" + "_" + "a" + "_" + "1" == "p_a_1";
    OneServiceIs("p_a_1", mtime);
  }

  /** Written completely into a store that has nothing of it. */
  lemma WrittenCompletely(world: World, mtime: Time, s: Store)
    requires world.disk(s.writes).Written? && world.disk(s.writes + 1).Written? && world.touch("p_a_1")
    requires s.stamps == map[] && s.docs == map[]
    ensures
      var h := Manifest(mtime);
      var t := Process(world, h, s);
      && t.writes == s.writes + 2 && t.stamps == map["p_a_1" := mtime]
      && Listed(t, ServiceId(h, PROVIDER))
  {
    var h := Manifest(mtime);
    var id := ServiceId(h, PROVIDER);
    ManifestIsProper(mtime);
    var t := AfterWrite(world, s, Key(Service, id), ServiceDoc(h, PROVIDER));
    assert WriteServices(world, h, t, 1) == (t, true);
    assert WriteServices(world, h, s, 0) == (t, true);
    assert WritePlugins(world, h, t) == (t, true);
    assert ONE_SERVICE[..0] == [] && ServiceIds(h, []) == [] && ServiceIds(h, ONE_SERVICE) == [id];
    var k := Key(Application, StripVersion(h.appId));
    assert Lists(Process(world, h, s), k, id);
  }

  /** The disk is full when the third file is written. */
  const FULL := WORKING.(disk := (n: nat) => if n == 2 then NotWritten else Written)

  lemma EmptyIsIntegral()
    ensures Integrity(EMPTY)
  {
  }

  /** The run before the disk is full. */
  lemma WitnessWritten() returns (t: Store)
    ensures Runs([Input(WORKING, [Manifest(1)])], EMPTY) == t && Integrity(t)
    ensures t.writes == 2 && t.stamps == map["p_a_1" := 1] && Listed(t, ServiceId(Manifest(1), PROVIDER))
    ensures forall k :: k in t.docs ==> t.docs[k].profile == "p_a_1"
  {
    var h := Manifest(1);
    ManifestIsProper(1);
    SweepNothing(WORKING, [h], EMPTY);
    assert SweepStamps([h], EMPTY) == EMPTY by { assert SweepStamps([h], EMPTY).stamps == map[]; }
    SingleRun(WORKING, h, EMPTY);
    t := Process(WORKING, h, EMPTY);
    WrittenCompletely(WORKING, 1, EMPTY);
    WriteFilesWrote(WORKING, h, EMPTY);
    EmptyIsIntegral();
    CarefulLosesNothing(WORKING, h, EMPTY, 0);
    ProcessKeepsIntegrity(WORKING, h, EMPTY);
    var first := Input(WORKING, [h]);
    assert [first][..0] == [] && Runs([], EMPTY) == EMPTY;
  }

  lemma SweptBeforeTheLoss(t: Store)
    requires t.stamps == map["p_a_1" := 1] && forall k :: k in t.docs ==> t.docs[k].profile == "p_a_1"
    ensures Ready(Input(FULL, [Manifest(2)]), t) == t
  {
    var h := Manifest(2);
    ManifestIsProper(2);
    OwnHookMatches(h.appId, "accounts");
    assert h in [h] && HasHook([h], h.appId);
    SweepNothing(FULL, [h], t);
    assert SweepStamps([h], t).stamps == t.stamps;
  }

  lemma LostByTheUpgrade(t: Store)
    requires t.writes == 2 && t.stamps == map["p_a_1" := 1] && Listed(t, ServiceId(Manifest(1), PROVIDER))
    ensures LosesAt(FULL, Manifest(2), t)
  {
    ManifestIsProper(2);
    assert ServiceId(Manifest(2), PROVIDER) == ServiceId(Manifest(1), PROVIDER);
    assert FULL.disk(2) == NotWritten;
    assert Loses(FULL, Manifest(2), t, 0);
  }

  lemma LostInTheRun(t: Store)
    requires t.writes == 2 && t.stamps == map["p_a_1" := 1] && Listed(t, ServiceId(Manifest(1), PROVIDER))
    requires forall k :: k in t.docs ==> t.docs[k].profile == "p_a_1"
    ensures !Integrity(RunHook(FULL, [Manifest(2)], t))
  {
    SweptBeforeTheLoss(t);
    LostByTheUpgrade(t);
    SingleRun(FULL, Manifest(2), t);
    FailedWriteBreaksIntegrity(FULL, Manifest(2), t);
  }

  lemma LostInTheSecond(first: Input, second: Input, s: Store, t: Store)
    requires Runs([first], s) == t && Integrity(t) && !Integrity(RunHook(second.world, second.hooks, t))
    ensures Integrity(Runs([first, second][..1], s)) && !Integrity(Runs([first, second], s))
  {
    assert [first, second][..1] == [first] && [first, second] == [first] + [second];
    RunsSnoc([first], second, s);
  }

  /** Integrity does get lost: the disk is full while an upgraded manifest is written. */
  lemma IntegrityIsLost() returns (inputs: seq<Input>)
    ensures ThreePartIds(inputs) && |inputs| == 2
    ensures Integrity(Runs(inputs[..1], EMPTY)) && !Integrity(Runs(inputs, EMPTY))
  {
    var first, second := Input(WORKING, [Manifest(1)]), Input(FULL, [Manifest(2)]);
    var t := WitnessWritten();
    ManifestIsProper(1);
    ManifestIsProper(2);
    LostInTheRun(t);
    LostInTheSecond(first, second, EMPTY, t);
    inputs := [first, second];
  }
}
