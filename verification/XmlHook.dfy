/** The older click hook, click-hooks/main.cpp: it copies XML files that packages install, with
    a creator mark and the profile of the package added, and takes the modification time of the
    copy for the sign that it is up to date. */
module XmlHook {
  import opened Names
  import opened Options
  import opened Text

  datatype Kind = Provider | Service | ServiceType | Application

  function Suffix(kind: Kind): string {
    match kind
    case Provider => "provider"
    case Service => "service"
    case ServiceType => "service-type"
    case Application => "application"
  }

  datatype Key = Key(kind: Kind, name: string)

  type Time = nat

  /** A file below ~/.local/share/accounts. */
  datatype Doc = Doc(ours: bool, profile: string, mtime: Time)

  /** A file in the hook directory: `appId`.`suffix`; `profile` is a profile element it has of
      its own. */
  datatype HookFile = HookFile(kind: Kind, appId: string, mtime: Time, valid: bool, profile: Option<string>)

  datatype WriteOutcome = Written | NotOpened | NotWritten

  type Disk = nat -> WriteOutcome

  /** `accounts` are known by their provider. */
  datatype Store = Store(docs: map<Key, Doc>, accounts: map<nat, string>, writes: nat)

  function Target(h: HookFile): Key {
    Key(h.kind, StripVersion(h.appId))
  }

  /** The text of the first profile element once our own has been appended. */
  function ProfileOf(h: HookFile): string {
    if h.profile.Some? then h.profile.value else h.appId
  }

  function FileName(h: HookFile): string {
    h.appId + "." + Suffix(h.kind)
  }

  // ----- the sweep -----

  predicate HasHook(hooks: seq<HookFile>, kind: Kind, profile: string) {
    exists h :: h in hooks && Wild(Pattern(profile, Suffix(kind)), FileName(h))
  }

  predicate StaleAt(hooks: seq<HookFile>, s: Store, k: Key) {
    k in s.docs && s.docs[k].ours && !HasHook(hooks, k.kind, s.docs[k].profile)
  }

  /** The removals at the files in `done`. */
  function Swept(hooks: seq<HookFile>, s: Store, done: set<Key>): Store {
    s.(docs := map k | k in s.docs && !(k in done && StaleAt(hooks, s, k)) :: s.docs[k],
       accounts := map a | a in s.accounts &&
                           !(Key(Provider, s.accounts[a]) in done && StaleAt(hooks, s, Key(Provider, s.accounts[a]))) ::
                     s.accounts[a])
  }

  /** removeStaleFiles */
  function Sweep(hooks: seq<HookFile>, s: Store): Store {
    Swept(hooks, s, s.docs.Keys)
  }

  function RemoveAccounts(s: Store, provider: string): Store {
    s.(accounts := map a | a in s.accounts && s.accounts[a] != provider :: s.accounts[a])
  }

  function SweepOne(hooks: seq<HookFile>, s: Store, k: Key): Store {
    if !StaleAt(hooks, s, k) then s
    else
      var t := s.(docs := s.docs - {k});
      if k.kind == Provider then RemoveAccounts(t, k.name) else t
  }

  lemma SweptNone(hooks: seq<HookFile>, s: Store)
    ensures Swept(hooks, s, {}) == s
  {
    assert Swept(hooks, s, {}).docs == s.docs && Swept(hooks, s, {}).accounts == s.accounts;
  }

  lemma SweptOne(hooks: seq<HookFile>, s: Store, done: set<Key>, k: Key)
    requires k !in done && k in s.docs
    ensures
      var t := Swept(hooks, s, done);
      && k in t.docs && t.docs[k] == s.docs[k]
      && Swept(hooks, s, done + {k}) == SweepOne(hooks, t, k)
  {
    var t, u := Swept(hooks, s, done), Swept(hooks, s, done + {k});
    assert StaleAt(hooks, t, k) <==> StaleAt(hooks, s, k);
    assert u.docs == SweepOne(hooks, t, k).docs;
    assert u.accounts == SweepOne(hooks, t, k).accounts;
  }

  ghost predicate NoStale(hooks: seq<HookFile>, s: Store) {
    forall k :: k in s.docs ==> !StaleAt(hooks, s, k)
  }

  lemma SweepNothing(hooks: seq<HookFile>, s: Store)
    ensures Sweep(hooks, s) == s <==> NoStale(hooks, s)
    ensures NoStale(hooks, Sweep(hooks, s))
  {
    var t := Sweep(hooks, s);
    if NoStale(hooks, s) {
      assert t.docs == s.docs && t.accounts == s.accounts;
    } else {
      var k :| k in s.docs && StaleAt(hooks, s, k);
      assert k !in t.docs;
    }
  }

  // ----- writing -----

  predicate UpToDate(s: Store, h: HookFile) {
    Target(h) in s.docs && s.docs[Target(h)].mtime == h.mtime
  }

  /** writeTo */
  function WriteTo(disk: Disk, h: HookFile, s: Store): Store {
    s.(writes := s.writes + 1,
       docs := match disk(s.writes)
               case Written => s.docs[Target(h) := Doc(true, ProfileOf(h), h.mtime)]
               case NotOpened => s.docs
               case NotWritten => s.docs - {Target(h)})
  }

  function Process(disk: Disk, h: HookFile, s: Store): Store {
    if UpToDate(s, h) || !h.valid then s else WriteTo(disk, h, s)
  }

  function ProcessAll(disk: Disk, hooks: seq<HookFile>, s: Store): Store {
    if hooks == [] then s
    else Process(disk, hooks[|hooks| - 1], ProcessAll(disk, hooks[..|hooks| - 1], s))
  }

  /** One run of the hook. */
  function RunHook(disk: Disk, hooks: seq<HookFile>, s: Store): Store {
    ProcessAll(disk, hooks, Sweep(hooks, s))
  }

  // ----- convergence -----

  /** Proper ids, and no profile but the one that is added. */
  ghost predicate Plain(h: HookFile) {
    ThreeParts(h.appId) && GlobFree(h.appId) && h.profile.None?
  }

  ghost predicate Complete(hooks: seq<HookFile>, s: Store) {
    forall h :: h in hooks ==> !h.valid || UpToDate(s, h)
  }

  /** Valid files of a type with the same short id have the same time. */
  ghost predicate Agreeing(hooks: seq<HookFile>) {
    forall a, b :: a in hooks && b in hooks && a.valid && b.valid && Target(a) == Target(b) ==> a.mtime == b.mtime
  }

  lemma SuffixGlobFree(kind: Kind)
    ensures GlobFree(Suffix(kind))
  {
  }

  lemma ProcessKeepsFresh(disk: Disk, hooks: seq<HookFile>, h: HookFile, s: Store)
    requires NoStale(hooks, s) && h in hooks && Plain(h)
    ensures NoStale(hooks, Process(disk, h, s))
  {
    SuffixGlobFree(h.kind);
    OwnHookMatches(h.appId, Suffix(h.kind));
    assert HasHook(hooks, h.kind, ProfileOf(h));
    var t := Process(disk, h, s);
    forall k | k in t.docs ensures !StaleAt(hooks, t, k) {
      if k in s.docs && t.docs[k] == s.docs[k] { assert !StaleAt(hooks, s, k); }
    }
  }

  lemma {:induction false} ProcessAllKeepsFresh(disk: Disk, hooks: seq<HookFile>, part: seq<HookFile>, s: Store)
    requires NoStale(hooks, s) && forall h :: h in part ==> h in hooks && Plain(h)
    ensures NoStale(hooks, ProcessAll(disk, part, s))
  {
    if part != [] {
      var n := |part| - 1;
      assert part[n] in part && forall h :: h in part[..n] ==> h in part;
      ProcessAllKeepsFresh(disk, hooks, part[..n], s);
      ProcessKeepsFresh(disk, hooks, part[n], ProcessAll(disk, part[..n], s));
    }
  }

  lemma {:induction false} NothingToProcess(disk: Disk, hooks: seq<HookFile>, s: Store)
    requires Complete(hooks, s)
    ensures ProcessAll(disk, hooks, s) == s
  {
    if hooks != [] {
      var n := |hooks| - 1;
      assert hooks[n] in hooks && forall h :: h in hooks[..n] ==> h in hooks;
      NothingToProcess(disk, hooks[..n], s);
    }
  }

  /** What is removed as stale is either gone afterwards or written anew. */
  lemma StaleIsNoticed(disk: Disk, hooks: seq<HookFile>, s: Store)
    requires !NoStale(hooks, s)
    ensures RunHook(disk, hooks, s) != s
  {
    var k :| k in s.docs && StaleAt(hooks, s, k);
    var t := Sweep(hooks, s);
    assert k !in t.docs && t.writes == s.writes;
    WritesCount(disk, hooks, t);
  }

  /** Without a write nothing has changed, and without a write nothing was out of date. */
  lemma {:induction false} WritesCount(disk: Disk, hooks: seq<HookFile>, s: Store)
    ensures var t := ProcessAll(disk, hooks, s);
            t.writes >= s.writes && (t.writes == s.writes ==> t == s && Complete(hooks, s))
  {
    if hooks != [] {
      var n := |hooks| - 1;
      WritesCount(disk, hooks[..n], s);
      assert forall h :: h in hooks <==> h in hooks[..n] || h == hooks[n];
    }
  }

  /** Whatever the store and the outcome of writes: a run changes nothing if and only if each of
      our files has a hook file behind it and each hook file is invalid or copied. */
  lemma NothingToDo(disk: Disk, hooks: seq<HookFile>, s: Store)
    ensures RunHook(disk, hooks, s) == s <==> NoStale(hooks, s) && Complete(hooks, s)
  {
    SweepNothing(hooks, s);
    if !NoStale(hooks, s) {
      StaleIsNoticed(disk, hooks, s);
    } else if Complete(hooks, s) {
      NothingToProcess(disk, hooks, s);
    } else {
      WritesCount(disk, hooks, s);
    }
  }

  /** When all writes succeed, all files are up to date afterwards if and only if valid files
      with one target have one time. */
  lemma {:induction false} CompleteExactly(disk: Disk, hooks: seq<HookFile>, s: Store)
    requires forall n :: disk(n).Written?
    ensures Complete(hooks, ProcessAll(disk, hooks, s)) <==> Agreeing(hooks)
  {
    if Agreeing(hooks) {
      AgreeingIsComplete(disk, hooks, s);
    }
  }

  /** A successful write of `last` leaves the copies of files that agree with it up to date. */
  lemma ProcessKeepsUpToDate(disk: Disk, last: HookFile, s: Store, h: HookFile)
    requires disk(s.writes).Written? && h.valid && (UpToDate(s, h) || h == last)
    requires last.valid && Target(last) == Target(h) ==> last.mtime == h.mtime
    ensures UpToDate(Process(disk, last, s), h)
  {
  }

  lemma FrontAgrees(hooks: seq<HookFile>, n: nat)
    requires Agreeing(hooks) && n <= |hooks|
    ensures Agreeing(hooks[..n])
  {
    assert forall h :: h in hooks[..n] ==> h in hooks;
  }

  lemma {:induction false} AgreeingIsComplete(disk: Disk, hooks: seq<HookFile>, s: Store)
    requires Agreeing(hooks) && forall n :: disk(n).Written?
    ensures Complete(hooks, ProcessAll(disk, hooks, s))
  {
    if hooks != [] {
      var n := |hooks| - 1;
      var u, t := ProcessAll(disk, hooks[..n], s), ProcessAll(disk, hooks, s);
      FrontAgrees(hooks, n);
      AgreeingIsComplete(disk, hooks[..n], s);
      forall h | h in hooks && h.valid ensures UpToDate(t, h) {
        assert h == hooks[n] || h in hooks[..n];
        ProcessKeepsUpToDate(disk, hooks[n], u, h);
      }
    }
  }

  /** Runs converge: when ids are proper, valid files with one target have one time, no file has a
      profile of its own and the writes of the first run succeed, a second run removes nothing,
      deletes no account and writes nothing. */
  lemma RunsConverge(disk: Disk, again: Disk, hooks: seq<HookFile>, s: Store)
    requires Agreeing(hooks) && (forall h :: h in hooks ==> Plain(h)) && (forall n :: disk(n).Written?)
    ensures RunHook(again, hooks, RunHook(disk, hooks, s)) == RunHook(disk, hooks, s)
  {
    SweepNothing(hooks, s);
    CompleteExactly(disk, hooks, Sweep(hooks, s));
    ProcessAllKeepsFresh(disk, hooks, hooks, Sweep(hooks, s));
    NothingToDo(again, hooks, RunHook(disk, hooks, s));
  }

  // ----- exactly when runs converge -----

  /** File `i` is the first valid one for its target, and the target is not up to date. */
  ghost predicate Copies(hooks: seq<HookFile>, s: Store, i: nat) {
    && i < |hooks| && hooks[i].valid && !UpToDate(s, hooks[i])
    && forall j :: 0 <= j < i && hooks[j].valid ==> Target(hooks[j]) != Target(hooks[i])
  }

  function CopyOf(h: HookFile): Doc {
    Doc(true, ProfileOf(h), h.mtime)
  }

  /** The first `n` files have been processed: `t` has their copies, and all else is as in `s`. */
  ghost predicate Copied(hooks: seq<HookFile>, s: Store, t: Store, n: nat)
    requires n <= |hooks|
  {
    CopiesThere(hooks, s, t, n) && OnlyCopied(hooks, s, t, n) && RestUntouched(hooks, s, t, n)
  }

  ghost predicate CopiesThere(hooks: seq<HookFile>, s: Store, t: Store, n: nat)
    requires n <= |hooks|
  {
    forall i :: 0 <= i < n && Copies(hooks, s, i) ==>
      Target(hooks[i]) in t.docs && t.docs[Target(hooks[i])] == CopyOf(hooks[i])
  }

  ghost predicate RestUntouched(hooks: seq<HookFile>, s: Store, t: Store, n: nat)
    requires n <= |hooks|
  {
    forall i :: 0 <= i < |hooks| && Untargeted(hooks, n, i) ==> (UpToDate(t, hooks[i]) <==> UpToDate(s, hooks[i]))
  }

  ghost predicate OnlyCopied(hooks: seq<HookFile>, s: Store, t: Store, n: nat) {
    forall k :: k in t.docs ==> KeptAt(s, t, k) || exists i :: 0 <= i < n && CopiedAt(hooks, s, k, i)
  }

  /** None of the first `n` files has the target of file `i`. */
  ghost predicate Untargeted(hooks: seq<HookFile>, n: nat, i: nat)
    requires n <= |hooks| && i < |hooks|
  {
    forall j :: 0 <= j < n && hooks[j].valid ==> Target(hooks[j]) != Target(hooks[i])
  }

  ghost predicate KeptAt(s: Store, t: Store, k: Key) {
    k in s.docs && k in t.docs && t.docs[k] == s.docs[k]
  }

  ghost predicate CopiedAt(hooks: seq<HookFile>, s: Store, k: Key, i: nat) {
    Copies(hooks, s, i) && Target(hooks[i]) == k
  }

  lemma {:induction false} ProcessAllCopies(disk: Disk, hooks: seq<HookFile>, s: Store, n: nat)
    requires Agreeing(hooks) && n <= |hooks| && forall m :: disk(m).Written?
    ensures Copied(hooks, s, ProcessAll(disk, hooks[..n], s), n)
  {
    if n == 0 {
      NothingCopied(hooks, s);
      assert hooks[..n] == [];
    } else {
      var u := ProcessAll(disk, hooks[..n - 1], s);
      ProcessAllCopies(disk, hooks, s, n - 1);
      FrontIsComplete(disk, hooks, s, n - 1);
      ProcessOneCopies(disk, hooks, s, u, n - 1);
      FrontStep(disk, hooks, s, n - 1);
    }
  }

  lemma NothingCopied(hooks: seq<HookFile>, s: Store)
    ensures Copied(hooks, s, s, 0)
  {
  }

  lemma FrontStep(disk: Disk, hooks: seq<HookFile>, s: Store, n: nat)
    requires n < |hooks|
    ensures ProcessAll(disk, hooks[..n + 1], s) == Process(disk, hooks[n], ProcessAll(disk, hooks[..n], s))
  {
    assert hooks[..n + 1][..n] == hooks[..n];
  }

  lemma FrontIsComplete(disk: Disk, hooks: seq<HookFile>, s: Store, n: nat)
    requires Agreeing(hooks) && n < |hooks| && forall m :: disk(m).Written?
    ensures hooks[n].valid && !Untargeted(hooks, n, n) ==> UpToDate(ProcessAll(disk, hooks[..n], s), hooks[n])
  {
    FrontAgrees(hooks, n);
    AgreeingIsComplete(disk, hooks[..n], s);
    forall j | 0 <= j < n && hooks[j].valid && Target(hooks[j]) == Target(hooks[n]) && hooks[n].valid
      ensures UpToDate(ProcessAll(disk, hooks[..n], s), hooks[n])
    {
      assert hooks[j] in hooks[..n];
    }
  }

  lemma CopyAddsOne(hooks: seq<HookFile>, s: Store, u: Store, t: Store, n: nat)
    requires OnlyCopied(hooks, s, u, n) && Copies(hooks, s, n) && t.docs == u.docs[Target(hooks[n]) := CopyOf(hooks[n])]
    ensures OnlyCopied(hooks, s, t, n + 1)
  {
    forall k | k in t.docs ensures KeptAt(s, t, k) || exists i :: 0 <= i < n + 1 && CopiedAt(hooks, s, k, i) {
      if k == Target(hooks[n]) {
        assert CopiedAt(hooks, s, k, n);
      } else if !KeptAt(s, u, k) {
        var i :| 0 <= i < n && CopiedAt(hooks, s, k, i);
      }
    }
  }

  lemma CopiedMore(hooks: seq<HookFile>, s: Store, t: Store, n: nat)
    requires n < |hooks| && Copied(hooks, s, t, n) && !Copies(hooks, s, n)
    ensures Copied(hooks, s, t, n + 1)
  {
    forall i | 0 <= i < |hooks| && Untargeted(hooks, n + 1, i) ensures Untargeted(hooks, n, i) {}
  }

  lemma CopySparesOthers(hooks: seq<HookFile>, s: Store, u: Store, t: Store, n: nat)
    requires n < |hooks| && CopiesThere(hooks, s, u, n) && RestUntouched(hooks, s, u, n) && Copies(hooks, s, n)
    requires t.docs == u.docs[Target(hooks[n]) := CopyOf(hooks[n])]
    ensures CopiesThere(hooks, s, t, n + 1) && RestUntouched(hooks, s, t, n + 1)
  {
    forall i | 0 <= i < n && Copies(hooks, s, i) ensures Target(hooks[i]) != Target(hooks[n]) {}
    forall i | 0 <= i < |hooks| && Untargeted(hooks, n + 1, i)
      ensures UpToDate(t, hooks[i]) <==> UpToDate(s, hooks[i])
    {
      assert Untargeted(hooks, n, i);
    }
  }

  /** A file is written exactly when it is the first one for its target and out of date. */
  lemma ProcessOneCopies(disk: Disk, hooks: seq<HookFile>, s: Store, u: Store, n: nat)
    requires n < |hooks| && Copied(hooks, s, u, n) && disk(u.writes).Written?
    requires hooks[n].valid && !Untargeted(hooks, n, n) ==> UpToDate(u, hooks[n])
    ensures Copied(hooks, s, Process(disk, hooks[n], u), n + 1)
  {
    if Copies(hooks, s, n) {
      assert Untargeted(hooks, n, n);
      CopyAddsOne(hooks, s, u, Process(disk, hooks[n], u), n);
      CopySparesOthers(hooks, s, u, Process(disk, hooks[n], u), n);
    } else {
      assert Process(disk, hooks[n], u) == u;
      CopiedMore(hooks, s, u, n);
    }
  }

  /** What a run with successful writes copies: the first valid file of each target, unless the
      copy that the sweep has left has its time. The copy is ours, has the profile that the file
      names itself, or else the id of the application, and the time of the file. */
  lemma RunCopies(disk: Disk, hooks: seq<HookFile>, s: Store, i: nat)
    requires (forall n :: disk(n).Written?) && Agreeing(hooks) && i < |hooks| && hooks[i].valid
    requires forall j :: 0 <= j < i && hooks[j].valid ==> Target(hooks[j]) != Target(hooks[i])
    ensures
      var h, u, t := hooks[i], Sweep(hooks, s), RunHook(disk, hooks, s);
      var k := Key(h.kind, StripVersion(h.appId));
      && (!(k in u.docs && u.docs[k].mtime == h.mtime) ==>
            k in t.docs && t.docs[k] == Doc(true, match h.profile { case Some(p) => p case None => h.appId }, h.mtime))
      && (k in u.docs && u.docs[k].mtime == h.mtime ==> k in t.docs && t.docs[k] == u.docs[k])
  {
    var u := Sweep(hooks, s);
    ProcessAllCopies(disk, hooks, u, |hooks|);
    assert hooks[..|hooks|] == hooks;
    if UpToDate(u, hooks[i]) { KeptIfUpToDate(disk, hooks, u, i, |hooks|); }
  }

  lemma {:induction false} KeptIfUpToDate(disk: Disk, hooks: seq<HookFile>, s: Store, i: nat, n: nat)
    requires Agreeing(hooks) && i < |hooks| && hooks[i].valid && UpToDate(s, hooks[i]) && n <= |hooks|
    ensures KeptAt(s, ProcessAll(disk, hooks[..n], s), Target(hooks[i]))
  {
    if n == 0 {
      assert hooks[..n] == [];
    } else {
      KeptIfUpToDate(disk, hooks, s, i, n - 1);
      FrontStep(disk, hooks, s, n - 1);
    }
  }

  /** What the sweep leaves: files of others, and those whose profile leads to a hook file. */
  lemma SweepLeaves(hooks: seq<HookFile>, s: Store, k: Key)
    ensures k in Sweep(hooks, s).docs <==> k in s.docs && (s.docs[k].ours ==>
              exists h :: h in hooks &&
                Wild(StripVersion(s.docs[k].profile) + "_*." + Suffix(k.kind), h.appId + "." + Suffix(h.kind)))
    ensures k in Sweep(hooks, s).docs ==> Sweep(hooks, s).docs[k] == s.docs[k]
  {
    if k in s.docs {
      var profile := s.docs[k].profile;
      assert Pattern(profile, Suffix(k.kind)) == StripVersion(profile) + "_*." + Suffix(k.kind);
    }
  }

  /** With successful writes a second run changes nothing if and only if valid files with one
      target have one time, and the profile that each new copy shows leads back to a hook file. */
  lemma ConvergesExactly(disk: Disk, again: Disk, hooks: seq<HookFile>, s: Store)
    requires forall n :: disk(n).Written?
    ensures
      var t := RunHook(disk, hooks, s);
      RunHook(again, hooks, t) == t <==>
      Agreeing(hooks) && forall i :: 0 <= i < |hooks| && Copies(hooks, Sweep(hooks, s), i) ==>
        HasHook(hooks, hooks[i].kind, ProfileOf(hooks[i]))
  {
    var u, t := Sweep(hooks, s), RunHook(disk, hooks, s);
    NothingToDo(again, hooks, t);
    CompleteExactly(disk, hooks, u);
    SweepNothing(hooks, s);
    if Agreeing(hooks) {
      ProcessAllCopies(disk, hooks, u, |hooks|);
      assert hooks[..|hooks|] == hooks;
      FreshExactly(hooks, u, t);
    }
  }

  lemma FreshExactly(hooks: seq<HookFile>, s: Store, t: Store)
    requires NoStale(hooks, s) && Copied(hooks, s, t, |hooks|)
    ensures NoStale(hooks, t) <==> forall i :: 0 <= i < |hooks| && Copies(hooks, s, i) ==>
              HasHook(hooks, hooks[i].kind, ProfileOf(hooks[i]))
  {
    if NoStale(hooks, t) {
      forall i | 0 <= i < |hooks| && Copies(hooks, s, i) ensures HasHook(hooks, hooks[i].kind, ProfileOf(hooks[i])) {
        assert !StaleAt(hooks, t, Target(hooks[i]));
      }
    }
    if forall i :: 0 <= i < |hooks| && Copies(hooks, s, i) ==> HasHook(hooks, hooks[i].kind, ProfileOf(hooks[i])) {
      forall k | k in t.docs ensures !StaleAt(hooks, t, k) {
        if KeptAt(s, t, k) {
          assert !StaleAt(hooks, s, k);
        } else {
          var i :| 0 <= i < |hooks| && CopiedAt(hooks, s, k, i);
        }
      }
    }
  }

  /** A valid file alone in its directory: its copy lasts exactly when the pattern of the profile
      that the copy shows matches the file's name. */
  lemma LastsIfProfileMatches(disk: Disk, again: Disk, h: HookFile, s: Store)
    requires h.valid && disk(s.writes).Written? && !UpToDate(Sweep([h], s), h)
    ensures
      var t := RunHook(disk, [h], s);
      RunHook(again, [h], t) == t <==> Wild(Pattern(ProfileOf(h), Suffix(h.kind)), FileName(h))
  {
    var t, u := RunHook(disk, [h], s), Sweep([h], s);
    SingleRun(disk, h, s);
    SweepNothing([h], s);
    assert Complete([h], t);
    NothingToDo(again, [h], t);
    LoneHook(h, h.kind, ProfileOf(h));
    if HasHook([h], h.kind, ProfileOf(h)) {
      forall k | k in t.docs ensures !StaleAt([h], t, k) {
        if k != Target(h) { assert !StaleAt([h], u, k); }
      }
    } else {
      assert StaleAt([h], t, Target(h));
    }
  }

  lemma LoneHook(h: HookFile, kind: Kind, profile: string)
    ensures HasHook([h], kind, profile) <==> Wild(Pattern(profile, Suffix(kind)), FileName(h))
  {
    assert h in [h];
  }

  lemma SingleRun(disk: Disk, h: HookFile, s: Store)
    ensures RunHook(disk, [h], s) == Process(disk, h, Sweep([h], s))
  {
    assert [h][..0] == [] && ProcessAll(disk, [], Sweep([h], s)) == Sweep([h], s);
  }

  lemma {:induction false} ProcessAllSparesAccounts(disk: Disk, hooks: seq<HookFile>, s: Store)
    ensures ProcessAll(disk, hooks, s).accounts == s.accounts
  {
    if hooks != [] { ProcessAllSparesAccounts(disk, hooks[..|hooks| - 1], s); }
  }

  lemma AccountSwept(disk: Disk, hooks: seq<HookFile>, s: Store, a: nat)
    requires a in s.accounts
    ensures
      var k := Key(Provider, s.accounts[a]);
      a in RunHook(disk, hooks, s).accounts <==>
      (k in s.docs && s.docs[k].ours ==> HasHook(hooks, Provider, s.docs[k].profile))
  {
    ProcessAllSparesAccounts(disk, hooks, Sweep(hooks, s));
  }

  lemma ProviderIsFound(hooks: seq<HookFile>, profile: string)
    ensures HasHook(hooks, Provider, profile) <==>
            exists h :: h in hooks && Wild(StripVersion(profile) + "_*.provider", FileName(h))
  {
    assert Pattern(profile, Suffix(Provider)) == StripVersion(profile) + "_*.provider";
  }

  /** A run keeps an account if and only if its provider has no file of ours or the profile that
      the file shows leads back to a hook file. */
  lemma AccountsSurvive(disk: Disk, hooks: seq<HookFile>, s: Store, a: nat)
    requires a in s.accounts
    ensures
      var k := Key(Provider, s.accounts[a]);
      a in RunHook(disk, hooks, s).accounts <==>
      (k in s.docs && s.docs[k].ours ==>
        exists h :: h in hooks && Wild(StripVersion(s.docs[k].profile) + "_*.provider", FileName(h)))
  {
    AccountSwept(disk, hooks, s, a);
    var k := Key(Provider, s.accounts[a]);
    if k in s.docs { ProviderIsFound(hooks, s.docs[k].profile); }
  }

  /** A provider file alone in its directory, copied before: its users keep their accounts if and
      only if the profile that the copy shows leads back to the file. */
  lemma ForeignProfileDeletesAccounts(disk: Disk, h: HookFile, s: Store, a: nat)
    requires h.kind == Provider && Target(h) in s.docs && s.docs[Target(h)] == CopyOf(h)
    requires a in s.accounts && s.accounts[a] == StripVersion(h.appId)
    ensures a in RunHook(disk, [h], s).accounts <==> Wild(Pattern(ProfileOf(h), "provider"), FileName(h))
  {
    AccountSwept(disk, [h], s, a);
    LoneHook(h, Provider, ProfileOf(h));
  }

  lemma BothAreCopied(disk: Disk, a: HookFile, b: HookFile, s: Store)
    requires Plain(a) && Plain(b) && a.valid && b.valid && Target(a) == Target(b) && a.mtime != b.mtime
    requires NoStale([a, b], s) && !UpToDate(s, a) && forall n :: disk(n).Written?
    ensures var t := RunHook(disk, [a, b], s);
            t.writes == s.writes + 2 && NoStale([a, b], t) && UpToDate(t, b)
  {
    SweepNothing([a, b], s);
    assert [a, b][..1] == [a] && [a][..0] == [];
    assert ProcessAll(disk, [], s) == s;
    assert ProcessAll(disk, [a], s) == WriteTo(disk, a, s);
    assert ProcessAll(disk, [a, b], s) == Process(disk, b, WriteTo(disk, a, s));
    ProcessKeepsFresh(disk, [a, b], a, s);
    ProcessKeepsFresh(disk, [a, b], b, WriteTo(disk, a, s));
  }

  /** Two versions of one file take turns: every run copies both of them. */
  lemma VersionsTakeTurns(disk: Disk, a: HookFile, b: HookFile, s: Store)
    requires Plain(a) && Plain(b) && a.valid && b.valid && Target(a) == Target(b) && a.mtime != b.mtime
    requires NoStale([a, b], s) && UpToDate(s, b) && forall n :: disk(n).Written?
    ensures var t := RunHook(disk, [a, b], s);
            t.writes == s.writes + 2 && NoStale([a, b], t) && UpToDate(t, b)
  {
    BothAreCopied(disk, a, b, s);
  }

  // ----- files that do not last -----

  const EMPTY := Store(map[], map[], 0)

  const WORKING: Disk := (n: nat) => Written

  lemma OtherDoesNotMatch(name: string)
    requires name != "" && name[0] == 'p'
    ensures !Wild(Pattern("other", "provider"), name)
  {
    var a, b := StripVersion("other") + "_", "." + "provider";
    SplitNone("other", '_');
    WildFramed(a, b, name);
    assert Pattern("other", "provider") == a + "*" + b;
    assert a[0] == 'o' && (|a| <= |name| ==> name[..|a|][0] == 'p');
  }

  /** A provider file with a foreign profile, run twice: the account of its user is gone. */
  lemma AccountIsDeleted() returns (h: HookFile, s: Store)
    ensures s.docs == map[] && 7 in s.accounts && s.accounts[7] == StripVersion(h.appId)
    ensures var t := RunHook(WORKING, [h], s); 7 in t.accounts && 7 !in RunHook(WORKING, [h], t).accounts
  {
    h := HookFile(Provider, "p_a_1", 1, true, Some("other"));
    s := EMPTY.(accounts := map[7 := "p_a"]);
    ThreePartsSplit("p", "a", "1");
    assert "p" + "_" + "a" + "_" + "1" == "p_a_1" && "p" + "_" + "a" == "p_a";
    var t := RunHook(WORKING, [h], s);
    SingleRun(WORKING, h, s);
    SweepNothing([h], s);
    OtherDoesNotMatch(FileName(h));
    ForeignProfileDeletesAccounts(WORKING, h, t, 7);
  }

  lemma VersionIsPlain(version: string, mtime: Time)
    requires version == "1" || version == "2"
    ensures var h := HookFile(Service, "p_a_" + version, mtime, true, None);
            Plain(h) && Target(h) == Key(Service, "p_a")
  {
    ThreePartsSplit("p", "a", version);
    assert "p" + "_" + "a" + "_" + version == "p_a_" + version && "p" + "_" + "a" == "p_a";
  }

  /** Two versions of a package, run from the empty store: both are copied, and both again. */
  lemma BothVersionsAreCopiedAgain() returns (a: HookFile, b: HookFile)
    ensures a.appId == "p_a_1" && b.appId == "p_a_2"
    ensures
      var t := RunHook(WORKING, [a, b], EMPTY);
      t.writes == 2 && RunHook(WORKING, [a, b], t).writes == 4
  {
    a, b := HookFile(Service, "p_a_1", 1, true, None), HookFile(Service, "p_a_2", 2, true, None);
    VersionIsPlain("1", 1);
    VersionIsPlain("2", 2);
    assert "p_a_" + "1" == "p_a_1" && "p_a_" + "2" == "p_a_2";
    SweepNothing([a, b], EMPTY);
    BothAreCopied(WORKING, a, b, EMPTY);
    VersionsTakeTurns(WORKING, a, b, RunHook(WORKING, [a, b], EMPTY));
  }

  // ----- the program -----

  class Hook {
    const disk: Disk
    const hooks: seq<HookFile>
    var docs: map<Key, Doc>
    var accounts: map<nat, string>
    var writes: nat

    function State(): Store
      reads this
    {
      Store(docs, accounts, writes)
    }

    constructor (disk: Disk, hooks: seq<HookFile>, s: Store)
      ensures State() == s && this.disk == disk && this.hooks == hooks
    {
      this.disk, this.hooks, docs, accounts, writes := disk, hooks, s.docs, s.accounts, s.writes;
    }

    method RemoveStaleAccounts(provider: string)
      modifies this`accounts
      ensures State() == RemoveAccounts(old(State()), provider)
    {
      ghost var start := accounts;
      var rest := accounts.Keys;
      while rest != {}
        invariant rest <= start.Keys
        invariant forall a :: a in accounts <==> a in start && (a in rest || start[a] != provider)
        invariant forall a :: a in accounts ==> accounts[a] == start[a]
        decreases |rest|
      {
        var a :| a in rest;
        rest := rest - {a};
        if accounts[a] == provider {
          accounts := accounts - {a};
        }
      }
      assert accounts == RemoveAccounts(old(State()), provider).accounts;
    }

    method RemoveStaleFiles()
      modifies this`docs, this`accounts
      ensures State() == Sweep(hooks, old(State()))
    {
      ghost var start := State();
      ghost var done: set<Key> := {};
      SweptNone(hooks, start);
      var rest := docs.Keys;
      while rest != {}
        invariant State() == Swept(hooks, start, done) && done + rest == start.docs.Keys && done !! rest
        decreases |rest|
      {
        var k :| k in rest;
        SweptOne(hooks, start, done, k);
        rest, done := rest - {k}, done + {k};
        var file := docs[k];
        if !file.ours {
          continue;
        }
        if HasHook(hooks, k.kind, file.profile) {
          continue;
        }
        docs := docs - {k};
        if k.kind == Provider {
          RemoveStaleAccounts(k.name);
        }
      }
      assert done == start.docs.Keys;
    }

    method WriteFile(h: HookFile) returns (ok: bool)
      modifies this`docs, this`writes
      ensures State() == WriteTo(disk, h, old(State())) && ok == disk(old(writes)).Written?
    {
      var outcome := disk(writes);
      writes := writes + 1;
      match outcome
      case NotOpened => return false;
      case Written => docs := docs[Target(h) := Doc(true, ProfileOf(h), h.mtime)]; return true;
      case NotWritten => docs := docs - {Target(h)}; return false;
    }

    method Run()
      modifies this
      ensures State() == RunHook(disk, hooks, old(State()))
    {
      RemoveStaleFiles();
      ghost var start := State();
      for i := 0 to |hooks|
        invariant State() == ProcessAll(disk, hooks[..i], start)
      {
        assert hooks[..i + 1][..i] == hooks[..i];
        var h := hooks[i];
        if Target(h) in docs && docs[Target(h)].mtime == h.mtime {
          continue;
        }
        if !h.valid {
          continue;
        }
        var _ := WriteFile(h);
      }
      assert hooks[..|hooks|] == hooks;
    }
  }
}
