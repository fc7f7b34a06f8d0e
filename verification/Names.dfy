/** Application ids and the file name patterns made of them: stripVersion and the wildcard
    matching of QDir that both click hooks use.

    An id has the form package_application_version. The hooks know an application by its id
    without the version; to see whether a file of theirs still has a hook file behind it they
    look for any file that begins with the stripped id and an underscore and ends in the suffix
    of the hook. Whether that finds the file's own hook file depends on the form of the id.

    Wildcards are those of a name filter: case does not matter. */
module Names {
  import opened Text

  /** package_application_version without the version; any other id as it is. */
  function StripVersion(appId: string): string {
    var components := Split(appId, '_');
    if |components| != 3 then appId else Join(components[..2], '_')
  }

  predicate ThreeParts(appId: string) {
    |Split(appId, '_')| == 3
  }

  /** Case folding, of ASCII letters. */
  function Fold(c: char): char {
    if 'A' <= c <= 'Z' then c - 'A' + 'a' else c
  }

  predicate SameFolded(a: string, b: string) {
    |a| == |b| && forall i :: 0 <= i < |a| ==> Fold(a[i]) == Fold(b[i])
  }

  /** A name filter of QDir: `*` is any text, `?` any character, case does not matter. */
  predicate Wild(pattern: string, name: string)
    decreases |pattern| + |name|
  {
    if pattern == "" then name == ""
    else if pattern[0] == '*' then Wild(pattern[1..], name) || (name != "" && Wild(pattern, name[1..]))
    else name != "" && (pattern[0] == '?' || Fold(pattern[0]) == Fold(name[0])) && Wild(pattern[1..], name[1..])
  }

  /** What a name filter says: a star stands for any text, a question mark for any one character,
      and a letter for itself in either case. */
  lemma {:induction false} WildMeaning(c: char, q: string, name: string)
    ensures Wild("", name) <==> name == ""
    ensures Wild("*" + q, name) <==> exists k :: 0 <= k <= |name| && Wild(q, name[k..])
    ensures Wild("?" + q, name) <==> name != "" && Wild(q, name[1..])
    ensures c != '*' && c != '?' ==>
              (Wild([c] + q, name) <==>
               name != "" && Wild(q, name[1..]) &&
               (c == name[0] || ('A' <= c <= 'Z' && name[0] as int == c as int + 32)
                || ('a' <= c <= 'z' && name[0] as int == c as int - 32)))
    decreases |name|
  {
    assert ("*" + q)[1..] == q && ("?" + q)[1..] == q && ([c] + q)[1..] == q && name[0..] == name;
    if name != "" {
      WildMeaning(c, q, name[1..]);
      assert forall k :: 1 <= k <= |name| ==> name[k..] == name[1..][k - 1..];
      if k :| 0 <= k <= |name| - 1 && Wild(q, name[1..][k..]) {
        assert Wild(q, name[k + 1..]);
      }
    } else {
      assert ("?" + q)[0] == '?' && ([c] + q)[0] == c;
    }
  }

  predicate GlobFree(s: string) {
    '*' !in s && '?' !in s && '[' !in s
  }

  lemma {:induction false} WildPlain(p: string, name: string)
    requires GlobFree(p)
    ensures Wild(p, name) <==> SameFolded(p, name)
  {
    if p != "" && name != "" {
      WildPlain(p[1..], name[1..]);
      assert p == [p[0]] + p[1..] && name == [name[0]] + name[1..];
      assert SameFolded(p, name) <==> Fold(p[0]) == Fold(name[0]) && SameFolded(p[1..], name[1..]) by {
        if SameFolded(p, name) {
          assert forall i :: 0 <= i < |p| - 1 ==> p[1..][i] == p[i + 1] && name[1..][i] == name[i + 1];
        }
      }
    }
  }

  /** `*` and then plain text: the name ends in that text. */
  lemma {:induction false} WildTail(b: string, name: string)
    requires GlobFree(b)
    ensures Wild("*" + b, name) <==> |b| <= |name| && SameFolded(b, name[|name| - |b|..])
    decreases |name|
  {
    var p := "*" + b;
    assert p[1..] == b;
    WildPlain(b, name);
    if name != "" {
      WildTail(b, name[1..]);
      if |b| < |name| {
        assert name[1..][|name| - 1 - |b|..] == name[|name| - |b|..];
      } else if |b| == |name| {
        assert name[0..] == name;
      }
    }
  }

  ghost predicate Framed(a: string, b: string, name: string) {
    |a| + |b| <= |name| && SameFolded(a, name[..|a|]) && SameFolded(b, name[|name| - |b|..])
  }

  /** Plain text, `*`, plain text: the name begins with the one and ends with the other. */
  lemma {:induction false} WildFramed(a: string, b: string, name: string)
    requires GlobFree(a) && GlobFree(b)
    ensures Wild(a + "*" + b, name) <==> Framed(a, b, name)
    decreases |a|
  {
    var p := a + "*" + b;
    if a == "" {
      assert p == "*" + b;
      WildTail(b, name);
    } else {
      assert p[0] == a[0] && p[1..] == a[1..] + "*" + b;
      if name != "" {
        WildFramed(a[1..], b, name[1..]);
        FramedStep(a, b, name);
      }
    }
  }

  lemma FramedStep(a: string, b: string, name: string)
    requires a != "" && name != ""
    ensures Framed(a, b, name) <==> Fold(a[0]) == Fold(name[0]) && Framed(a[1..], b, name[1..])
  {
    if |a| + |b| <= |name| {
      assert name[1..][|name| - 1 - |b|..] == name[|name| - |b|..];
      assert name[1..][..|a| - 1] == name[..|a|][1..];
      var x, y := a, name[..|a|];
      assert x == [x[0]] + x[1..] && y == [y[0]] + y[1..];
      if SameFolded(x[1..], y[1..]) && Fold(x[0]) == Fold(y[0]) {
        forall i | 0 <= i < |x| ensures Fold(x[i]) == Fold(y[i]) {
          if i > 0 { assert x[i] == x[1..][i - 1] && y[i] == y[1..][i - 1]; }
        }
      }
      if SameFolded(x, y) {
        forall i | 0 <= i < |x| - 1 ensures Fold(x[1..][i]) == Fold(y[1..][i]) { assert x[1..][i] == x[i + 1]; }
      }
    }
  }

  /** The pattern by which a hook looks for the hook files of a profile. */
  function Pattern(profile: string, suffix: string): string {
    StripVersion(profile) + "_" + "*" + ("." + suffix)
  }

  lemma JoinThree(a: string, b: string, v: string)
    ensures Join([a, b], '_') == a + "_" + b
    ensures Join([a, b, v], '_') == Join([a, b], '_') + "_" + v
  {
    assert [a, b][1..] == [b] && [b, v][1..] == [v] && [a, b, v][1..] == [b, v];
    assert Join([b], '_') == b && Join([v], '_') == v;
    assert Join([b, v], '_') == b + "_" + v;
    assert a + "_" + (b + "_" + v) == (a + "_" + b) + "_" + v;
  }

  lemma ThreePartsJoined(appId: string)
    requires ThreeParts(appId)
    ensures appId == StripVersion(appId) + "_" + Split(appId, '_')[2]
  {
    var parts := Split(appId, '_');
    JoinSplit(appId, '_');
    JoinThree(parts[0], parts[1], parts[2]);
    assert parts == [parts[0], parts[1], parts[2]] && parts[..2] == [parts[0], parts[1]];
  }

  /** The file of an application finds its own hook file again exactly when the application
      id has three components. */
  lemma OwnHookMatches(appId: string, suffix: string)
    requires GlobFree(appId) && GlobFree(suffix)
    ensures Wild(Pattern(appId, suffix), appId + "." + suffix) <==> ThreeParts(appId)
  {
    var short := StripVersion(appId);
    var a, b, name := short + "_", "." + suffix, appId + "." + suffix;
    if ThreeParts(appId) {
      ThreePartsJoined(appId);
      var version := Split(appId, '_')[2];
      assert appId[..|short|] == short;
      assert name == a + version + b;
      assert name[..|a|] == a && name[|name| - |b|..] == b;
    }
    assert GlobFree(a);
    WildFramed(a, b, name);
    assert Pattern(appId, suffix) == a + "*" + b;
  }

  /** Two ids of one underscore each, continued by an underscore: the ids are the same. */
  lemma ShortIdsApart(a: string, b: string, p: string, q: string)
    requires |Split(a, '_')| == 2 && |Split(b, '_')| == 2 && a + "_" + p == b + "_" + q
    ensures a == b && p == q
  {
    SplitAt(a, '_', p);
    SplitAt(b, '_', q);
    var all := Split(a + "_" + p, '_');
    assert Split(a, '_') == all[..2] && Split(b, '_') == all[..2];
    JoinSplit(a, '_');
    JoinSplit(b, '_');
    assert (a + "_" + p)[|a| + 1..] == p && (b + "_" + q)[|b| + 1..] == q;
  }

  lemma StrippedHasTwo(appId: string)
    requires ThreeParts(appId)
    ensures |Split(StripVersion(appId), '_')| == 2
  {
    var parts := Split(appId, '_');
    SplitParts(appId, '_');
    JoinThree(parts[0], parts[1], parts[2]);
    assert parts[..2] == [parts[0], parts[1]];
    SplitAt(parts[0], '_', parts[1]);
    SplitNone(parts[0], '_');
    SplitNone(parts[1], '_');
  }

  /** An id with any other number of components has no version. */
  lemma StripVersionMeaning(appId: string)
    ensures |Split(appId, '_')| != 3 ==> StripVersion(appId) == appId
    ensures |Split(appId, '_')| == 3 ==>
              StripVersion(appId) == Split(appId, '_')[0] + "_" + Split(appId, '_')[1]
  {
    var parts := Split(appId, '_');
    if |parts| == 3 {
      assert parts[..2] == [parts[0], parts[1]];
      JoinThree(parts[0], parts[1], parts[2]);
    }
  }

  lemma TwoPartsJoined(a: string, b: string)
    requires '_' !in a && '_' !in b
    ensures Split(a + "_" + b, '_') == [a, b] && !ThreeParts(a + "_" + b)
  {
    SplitAt(a, '_', b);
    SplitNone(a, '_');
    SplitNone(b, '_');
  }

  lemma ThreePartsSplit(a: string, b: string, v: string)
    requires '_' !in a && '_' !in b && '_' !in v
    ensures ThreeParts(a + "_" + b + "_" + v) && StripVersion(a + "_" + b + "_" + v) == a + "_" + b
  {
    var short := a + "_" + b;
    SplitAt(short, '_', v);
    TwoPartsJoined(a, b);
    SplitNone(v, '_');
    assert Split(short + "_" + v, '_') == [a, b] + [v] && ([a, b] + [v])[..2] == [a, b];
    JoinThree(a, b, v);
  }
}
