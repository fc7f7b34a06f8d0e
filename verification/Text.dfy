/** Strings that are lists of components.

    `Split` and `Join` are the functions of QString and QStringList: a string always has at least
    one component, and an empty one for each separator at an end or next to another. The lemmas
    say that joining takes splitting back, that no component holds the separator, and where the
    components of a longer string are. The settings of a manifest use them for keys with slashes,
    application ids for underscores.

    Separators are single characters. */
module Text {

  /** QString::split */
  function Split(s: string, c: char): (parts: seq<string>)
    ensures parts != []
  {
    if s == "" then [""]
    else
      SplitCons(s[0], Split(s[1..], c), c)
  }

  /** QStringList::join */
  function Join(parts: seq<string>, c: char): string {
    if parts == [] then "" else if |parts| == 1 then parts[0] else parts[0] + [c] + Join(parts[1..], c)
  }

  lemma {:induction false} JoinSplit(s: string, c: char)
    ensures Join(Split(s, c), c) == s
  {
    if s != "" {
      JoinSplit(s[1..], c);
      var rest := Split(s[1..], c);
      assert s == [s[0]] + s[1..];
      if s[0] == c {
        assert ([""] + rest)[1..] == rest;
      } else {
        var parts := [[s[0]] + rest[0]] + rest[1..];
        assert parts[1..] == rest[1..];
        JoinHead(rest, [s[0]], c);
      }
    }
  }

  lemma JoinHead(parts: seq<string>, front: string, c: char)
    requires parts != []
    ensures Join([front + parts[0]] + parts[1..], c) == front + Join(parts, c)
  {
    var more := [front + parts[0]] + parts[1..];
    assert more[1..] == parts[1..];
    if |parts| > 1 {
      assert front + parts[0] + [c] + Join(parts[1..], c) == front + (parts[0] + [c] + Join(parts[1..], c));
    }
  }

  lemma {:induction false} SplitParts(s: string, c: char)
    ensures forall i :: 0 <= i < |Split(s, c)| ==> c !in Split(s, c)[i]
  {
    if s != "" { SplitParts(s[1..], c); }
  }

  function SplitCons(x: char, rest: seq<string>, c: char): seq<string>
    requires rest != []
  {
    if x == c then [""] + rest else [[x] + rest[0]] + rest[1..]
  }

  lemma SplitGlue(x: char, p: seq<string>, q: seq<string>, c: char)
    requires p != []
    ensures SplitCons(x, p + q, c) == SplitCons(x, p, c) + q
  {
    assert (p + q)[1..] == p[1..] + q;
  }

  /** Splitting after a separator splits off one more component. */
  lemma {:induction false} SplitAt(a: string, c: char, b: string)
    ensures Split(a + [c] + b, c) == Split(a, c) + Split(b, c)
  {
    if a == "" {
      assert ([c] + b)[1..] == b;
      assert a + [c] + b == [c] + b;
    } else {
      var s := a + [c] + b;
      SplitAt(a[1..], c, b);
      assert s[0] == a[0] && s[1..] == a[1..] + [c] + b;
      SplitGlue(a[0], Split(a[1..], c), Split(b, c), c);
      assert Split(s, c) == SplitCons(a[0], Split(s[1..], c), c);
    }
  }

  lemma {:induction false} SplitNone(a: string, c: char)
    requires c !in a
    ensures Split(a, c) == [a]
  {
    if a != "" {
      SplitNone(a[1..], c);
      assert a == [a[0]] + a[1..];
    }
  }
}
