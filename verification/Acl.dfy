/** The two filters that take an application out of an access control list: the one of
    plugins/OnlineAccountsPlugin/application-manager.cpp and the one of
    click-hooks/acl-updater.cpp, which has only the stripped id to go by. */
module Acl {
  import opened Names
  import opened Text

  type List = seq<string>

  /** ApplicationManagerPrivate::stripVersion: unlike the one of the hooks it gives nothing for
      an id that is not of the form package_application_version. */
  function Unversioned(profile: string): string {
    if ThreeParts(profile) then StripVersion(profile) else ""
  }

  predicate ManagerKeeps(profile: string, token: string) {
    token != profile && (Unversioned(profile) == "" || !(Unversioned(profile) <= token))
  }

  function Add(acl: List, profile: string): List {
    if profile == "" then acl else acl + [profile]
  }

  function ManagerFilter(acl: List, profile: string): List {
    if acl == [] then []
    else ManagerFilter(acl[..|acl| - 1], profile) +
         if ManagerKeeps(profile, acl[|acl| - 1]) then [acl[|acl| - 1]] else []
  }

  /** removeApplicationFromAcl */
  function Remove(acl: List, profile: string): List {
    if profile == "" then acl else ManagerFilter(acl, profile)
  }

  /** AclUpdaterPrivate::onInfo */
  function Update(acl: List, shortAppId: string): List {
    if acl == [] then []
    else Update(acl[..|acl| - 1], shortAppId) +
         if shortAppId <= acl[|acl| - 1] then [] else [acl[|acl| - 1]]
  }

  /** AclUpdater::removeApp, for a credential that exists: what becomes of its list. */
  function RemoveApp(acl: List, shortAppId: string): List {
    if '_' !in shortAppId then acl else Update(acl, shortAppId)
  }

  method AddApplicationToAcl(acl: List, profile: string) returns (newAcl: List)
    ensures newAcl == Add(acl, profile)
  {
    newAcl := acl;
    if profile != "" {
      newAcl := newAcl + [profile];
    }
  }

  method RemoveApplicationFromAcl(acl: List, profile: string) returns (newAcl: List)
    ensures newAcl == Remove(acl, profile)
  {
    if profile == "" {
      return acl;
    }
    newAcl := [];
    var unversionedProfile := Unversioned(profile);
    for i := 0 to |acl|
      invariant newAcl == ManagerFilter(acl[..i], profile)
    {
      assert acl[..i + 1][..i] == acl[..i];
      var app := acl[i];
      if app != profile && (unversionedProfile == "" || !(unversionedProfile <= app)) {
        newAcl := newAcl + [app];
      }
    }
    assert acl[..|acl|] == acl;
  }

  /** `stored` says whether the list has to be written back. */
  method OnInfo(accessControlList: List, shortAppId: string) returns (acl: List, stored: bool)
    ensures acl == Update(accessControlList, shortAppId) && stored == (acl != accessControlList)
    ensures stored <==> exists i :: 0 <= i < |accessControlList| && shortAppId <= accessControlList[i]
  {
    acl := [];
    for i := 0 to |accessControlList|
      invariant acl == Update(accessControlList[..i], shortAppId)
    {
      assert accessControlList[..i + 1][..i] == accessControlList[..i];
      var token := accessControlList[i];
      if !(shortAppId <= token) {
        acl := acl + [token];
      }
    }
    assert accessControlList[..|accessControlList|] == accessControlList;
    stored := acl != accessControlList;
    UpdateFixes(accessControlList, shortAppId);
  }

  // ----- what they do -----

  /** `b` is `a` without some elements, in the same order: `at` says where each comes from. */
  ghost predicate SublistAt(b: List, a: List, at: seq<nat>) {
    && |at| == |b|
    && (forall i :: 0 <= i < |b| ==> at[i] < |a| && b[i] == a[at[i]])
    && (forall i, j :: 0 <= i < j < |b| ==> at[i] < at[j])
  }

  lemma SublistSnoc(b: List, a: List, at: seq<nat>, x: string)
    requires SublistAt(b, a, at)
    ensures SublistAt(b, a + [x], at) && SublistAt(b + [x], a + [x], at + [|a|])
  {
  }

  /** The list of the updater: in order, and exactly the tokens that do not begin with the id. */
  lemma {:induction false} UpdateIsSublist(acl: List, short: string) returns (at: seq<nat>)
    ensures SublistAt(Update(acl, short), acl, at)
    ensures forall i: nat :: i < |acl| ==> (i in at <==> !(short <= acl[i]))
  {
    if acl == [] {
      at := [];
    } else {
      var n := |acl| - 1;
      var front := UpdateIsSublist(acl[..n], short);
      SublistSnoc(Update(acl[..n], short), acl[..n], front, acl[n]);
      assert acl[..n] + [acl[n]] == acl;
      at := if short <= acl[n] then front else front + [n];
      assert n !in front;
      forall i: nat | i < |acl| ensures i in at <==> !(short <= acl[i]) {
        if i < n { assert i in at <==> i in front; assert acl[..n][i] == acl[i]; }
      }
    }
  }

  lemma {:induction false} UpdateFixes(acl: List, short: string)
    ensures |Update(acl, short)| <= |acl|
    ensures Update(acl, short) == acl <==> forall i :: 0 <= i < |acl| ==> !(short <= acl[i])
  {
    if acl != [] {
      var n := |acl| - 1;
      UpdateFixes(acl[..n], short);
      assert acl == acl[..n] + [acl[n]];
      if Update(acl, short) == acl {
        assert Update(acl[..n], short) == acl[..n];
        forall i | 0 <= i < |acl| ensures !(short <= acl[i]) { if i < n { assert acl[..n][i] == acl[i]; } }
      }
    }
  }

  /** What the application manager keeps: all but the profile itself and, for a profile of three
      components, whatever begins with it without the version. */
  predicate Stays(profile: string, token: string) {
    profile == "" || (token != profile && !(ThreeParts(profile) && StripVersion(profile) <= token))
  }

  /** Where the tokens that the application manager keeps are in the list. */
  function KeptAt(acl: List, profile: string): seq<nat> {
    if acl == [] then []
    else KeptAt(acl[..|acl| - 1], profile) + if ManagerKeeps(profile, acl[|acl| - 1]) then [|acl| - 1] else []
  }

  lemma {:induction false} KeptExactly(acl: List, profile: string, i: nat)
    ensures i in KeptAt(acl, profile) <==> i < |acl| && ManagerKeeps(profile, acl[i])
  {
    if acl != [] {
      var n := |acl| - 1;
      KeptExactly(acl[..n], profile, i);
      if i < n { assert acl[..n][i] == acl[i]; }
    }
  }

  lemma {:induction false} FilterIsSublist(acl: List, profile: string)
    ensures SublistAt(ManagerFilter(acl, profile), acl, KeptAt(acl, profile))
  {
    if acl != [] {
      var n := |acl| - 1;
      FilterIsSublist(acl[..n], profile);
      SublistSnoc(ManagerFilter(acl[..n], profile), acl[..n], KeptAt(acl[..n], profile), acl[n]);
      assert acl[..n] + [acl[n]] == acl;
    }
  }

  lemma AllOfIt(acl: List) returns (at: seq<nat>)
    ensures SublistAt(acl, acl, at) && forall i: nat :: i < |acl| ==> i in at
  {
    at := seq(|acl|, i => i);
    forall i: nat | i < |acl| ensures i in at { assert at[i] == i; }
  }

  /** The list of the application manager: in order, and exactly the tokens that stay. */
  lemma RemoveIsSublist(acl: List, profile: string) returns (at: seq<nat>)
    ensures SublistAt(Remove(acl, profile), acl, at)
    ensures forall i: nat :: i < |acl| ==> (i in at <==> Stays(profile, acl[i]))
  {
    if profile == "" {
      at := AllOfIt(acl);
    } else {
      at := KeptAt(acl, profile);
      FilterIsSublist(acl, profile);
      forall i: nat | i < |acl| ensures i in at <==> Stays(profile, acl[i]) {
        KeptExactly(acl, profile, i);
        StaysIsKept(profile, acl[i]);
      }
    }
  }

  lemma StaysIsKept(profile: string, token: string)
    ensures profile != "" ==> (ManagerKeeps(profile, token) <==> Stays(profile, token))
  {
    if ThreeParts(profile) { StrippedIsPrefix(profile); }
  }

  /** Adding gives the application, and nobody else, a place at the end. */
  lemma AddGivesAccess(acl: List, profile: string)
    ensures profile != "" ==> profile in Add(acl, profile) && Add(acl, profile)[..|Add(acl, profile)| - 1] == acl
    ensures profile == "" ==> Add(acl, profile) == acl
  {
  }

  lemma StrippedIsPrefix(profile: string)
    requires ThreeParts(profile)
    ensures StripVersion(profile) != "" && StripVersion(profile) <= profile
  {
    ThreePartsJoined(profile);
    StrippedHasTwo(profile);
  }

  lemma {:induction false} FiltersAgree(acl: List, profile: string)
    requires ThreeParts(profile)
    ensures Remove(acl, profile) == Update(acl, StripVersion(profile))
  {
    StrippedIsPrefix(profile);
    if acl != [] { FiltersAgree(acl[..|acl| - 1], profile); }
  }

  /** The two filters give the same list, whatever the list, exactly for the profiles of the
      form package_application_version. */
  lemma AgreeExactlyOnClickProfiles(profile: string)
    ensures (forall acl :: Remove(acl, profile) == Update(acl, StripVersion(profile))) <==> ThreeParts(profile)
  {
    if ThreeParts(profile) {
      forall acl { FiltersAgree(acl, profile); }
    } else {
      var token := profile + "x";
      var acl := [token];
      assert acl[..0] == [];
      assert Update([], profile) == [] && Update(acl, profile) == [];
      assert ManagerFilter([], profile) == [] && token != profile;
      assert Remove(acl, profile) == [token];
    }
  }

  lemma ShortIdHasUnderscore(profile: string)
    requires ThreeParts(profile)
    ensures '_' in StripVersion(profile)
  {
    StrippedHasTwo(profile);
    if '_' !in StripVersion(profile) { SplitNone(StripVersion(profile), '_'); }
  }

  /** With the guard of removeApp, which lets no id without an underscore through, the hook and
      the application manager agree on all lists exactly for the profiles of that form and for
      the empty one. */
  lemma RemoveAppAgreesExactly(profile: string)
    ensures (forall acl :: Remove(acl, profile) == RemoveApp(acl, StripVersion(profile))) <==>
            ThreeParts(profile) || profile == ""
  {
    if ThreeParts(profile) {
      ShortIdHasUnderscore(profile);
      AgreeExactlyOnClickProfiles(profile);
    } else if '_' in profile {
      AgreeExactlyOnClickProfiles(profile);
    } else if profile != "" {
      var acl := [profile];
      assert acl[..0] == [] && ManagerFilter([], profile) == [];
      assert Remove(acl, profile) == [] != acl;
    }
  }

  lemma {:induction false} ManagerAppend(a: List, token: string, profile: string)
    ensures ManagerFilter(a + [token], profile) ==
            ManagerFilter(a, profile) + if ManagerKeeps(profile, token) then [token] else []
  {
    assert (a + [token])[..|a|] == a;
  }

  lemma {:induction false} Idempotent(acl: List, profile: string)
    ensures Remove(Remove(acl, profile), profile) == Remove(acl, profile)
  {
    if profile != "" && acl != [] {
      var n := |acl| - 1;
      Idempotent(acl[..n], profile);
      ManagerAppend(ManagerFilter(acl[..n], profile), acl[n], profile);
      if !ManagerKeeps(profile, acl[n]) {
        assert ManagerFilter(acl[..n], profile) + [] == ManagerFilter(acl[..n], profile);
      }
    }
  }

  /** Removing takes back adding. */
  lemma RemoveUndoesAdd(acl: List, profile: string)
    ensures Remove(Add(acl, profile), profile) == Remove(acl, profile)
  {
    ManagerAppend(acl, profile, profile);
    assert ManagerFilter(acl, profile) + [] == ManagerFilter(acl, profile);
  }

  /** Both filters go by the beginning of a token: removing one application also removes every
      application whose id merely begins like it. */
  lemma RemovesLikeNamed(acl: List, profile: string, token: string)
    requires ThreeParts(profile) && token in acl
    ensures token in Remove(acl, profile) <==> !(StripVersion(profile) <= token)
  {
    FiltersAgree(acl, profile);
    var at := UpdateIsSublist(acl, StripVersion(profile));
    var k :| 0 <= k < |acl| && acl[k] == token;
    var result := Update(acl, StripVersion(profile));
    if !(StripVersion(profile) <= token) {
      var i :| 0 <= i < |at| && at[i] == k;
      assert result[i] == token;
    }
    if token in result {
      var i :| 0 <= i < |result| && result[i] == token;
      assert at[i] in at;
    }
  }
}
