/** From the settings in a manifest to the `template` of a libaccounts file:
    click-hooks/accounts.cpp. */
module Settings {
  import opened Options
  import opened Text

  datatype Member = Member(key: string, value: Json)

  /** The members of an object are in the order in which they are visited. */
  datatype Json =
    | Null
    | Bool(b: bool)
    | Number
    | Str(s: string)
    | Array(items: seq<Json>)
    | Object(members: seq<Member>)

  datatype Node =
    | Group(name: string, children: seq<Node>)
    | Setting(name: string, kind: string, text: string)

  // ----- values -----

  /** The text of an array: its strings, in quotes; whatever is not a string is skipped. */
  function Quoted(items: seq<Json>): seq<string> {
    if items == [] then []
    else (if items[0].Str? then ["'" + items[0].s + "'"] else []) + Quoted(items[1..])
  }

  /** The text and the type of a value; there is no text for what is not supported. */
  function TextOf(v: Json): string {
    match v
    case Bool(b) => if b then "true" else "false"
    case Str(s) => s
    case Array(items) => "[" + Join(Quoted(items), ',') + "]"
    case _ => ""
  }

  function KindOf(v: Json): string {
    match v
    case Bool(_) => "b"
    case Array(_) => "as"
    case _ => ""
  }

  // ----- the translation -----

  /** One new group inside the other, `inner` in the last. */
  function Nested(groups: seq<string>, inner: seq<Node>): seq<Node> {
    if groups == [] then inner else [Group(groups[0], Nested(groups[1..], inner))]
  }

  function TranslateValue(name: string, v: Json): seq<Node>
    decreases v, 0
  {
    if v.Object? then [Group(name, Translate(v.members))]
    else if TextOf(v) == "" then []
    else [Setting(name, KindOf(v), TextOf(v))]
  }

  /** A key may be a path: all its parts but the last are groups. */
  function TranslateMember(m: Member): seq<Node>
    decreases m, 0
  {
    var parts := Split(m.key, '/');
    Nested(parts[..|parts| - 1], TranslateValue(parts[|parts| - 1], m.value))
  }

  /** The nodes that addSettings appends. */
  function Translate(members: seq<Member>): seq<Node>
    decreases members, 1
  {
    if members == [] then []
    else
      assert members[|members| - 1] in members;
      Translate(members[..|members| - 1]) + TranslateMember(members[|members| - 1])
  }

  lemma TranslateSnoc(members: seq<Member>, i: nat)
    requires i < |members|
    ensures Translate(members[..i + 1]) == Translate(members[..i]) + TranslateMember(members[i])
  {
    assert members[..i + 1][..i] == members[..i];
  }

  method Nest(groups: seq<string>, inner: seq<Node>) returns (nodes: seq<Node>)
    ensures nodes == Nested(groups, inner)
  {
    nodes := inner;
    var j := |groups|;
    while j > 0
      invariant 0 <= j <= |groups| && nodes == Nested(groups[j..], inner)
    {
      j := j - 1;
      assert groups[j..] == [groups[j]] + groups[j + 1..];
      nodes := [Group(groups[j], nodes)];
    }
    assert groups[0..] == groups;
  }

  /** The cases of the switch that have a text. */
  method ToText(v: Json) returns (value: string, kind: string)
    ensures value == TextOf(v) && kind == KindOf(v)
  {
    value, kind := "", "";
    match v {
      case Bool(b) =>
        kind := "b";
        value := if b then "true" else "false";
      case Str(s) => value := s;
      case Array(items) =>
        var values := QuoteAll(items);
        kind := "as";
        value := "[" + Join(values, ',') + "]";
      case _ =>
    }
  }

  /** One turn of the loop. */
  method AddMember(m: Member) returns (nodes: seq<Node>)
    ensures nodes == TranslateMember(m)
    decreases m, 0
  {
    var parts := Split(m.key, '/');
    var key := parts[|parts| - 1];
    var groups := parts[..|parts| - 1];
    var elem: seq<Node> := [];
    if m.value.Object? {
      var subGroup := AddSettings([], m.value.members);
      assert subGroup == Translate(m.value.members);
      elem := [Group(key, subGroup)];
    }
    var value, kind := ToText(m.value);
    if value != "" {
      elem := [Setting(key, kind, value)];
    }
    nodes := Nest(groups, elem);
  }

  method AddSettings(parent: seq<Node>, json: seq<Member>) returns (children: seq<Node>)
    ensures children == parent + Translate(json)
    decreases json, 1
  {
    children := parent;
    for i := 0 to |json|
      invariant children == parent + Translate(json[..i])
    {
      assert json[i] in json;
      var nodes := AddMember(json[i]);
      TranslateSnoc(json, i);
      children := children + nodes;
    }
    assert json[..|json|] == json;
  }

  method QuoteAll(items: seq<Json>) returns (values: seq<string>)
    ensures values == Quoted(items)
  {
    values := [];
    var i := 0;
    while i < |items|
      invariant 0 <= i <= |items| && values + Quoted(items[i..]) == Quoted(items)
    {
      if items[i].Str? {
        values := values + ["'" + items[i].s + "'"];
      }
      assert items[i..][1..] == items[i + 1..];
      i := i + 1;
    }
  }

  // ----- what settings mean -----

  /** A binding: where a value is, slash-joined from the root, and what it is. */
  datatype Leaf = Leaf(path: string, kind: string, text: string)

  /** The bindings of an XML tree, in document order. */
  function Leaves(prefix: string, nodes: seq<Node>): seq<Leaf>
    decreases nodes, 1
  {
    if nodes == [] then []
    else
      assert nodes[|nodes| - 1] in nodes;
      Leaves(prefix, nodes[..|nodes| - 1]) + LeavesOf(prefix, nodes[|nodes| - 1])
  }

  function LeavesOf(prefix: string, n: Node): seq<Leaf>
    decreases n, 0
  {
    match n
    case Group(name, children) => Leaves(prefix + name + "/", children)
    case Setting(name, kind, text) => [Leaf(prefix + name, kind, text)]
  }

  /** The bindings of a JSON object: a key may be a path of its own. */
  function Flatten(prefix: string, members: seq<Member>): seq<Leaf>
    decreases members, 1
  {
    if members == [] then []
    else
      assert members[|members| - 1] in members;
      Flatten(prefix, members[..|members| - 1]) + FlattenMember(prefix, members[|members| - 1])
  }

  function FlattenMember(prefix: string, m: Member): seq<Leaf>
    decreases m, 0
  {
    if m.value.Object? then Flatten(prefix + m.key + "/", m.value.members)
    else if TextOf(m.value) == "" then []
    else [Leaf(prefix + m.key, KindOf(m.value), TextOf(m.value))]
  }

  // ----- what a value says -----

  /** A value and where it is. */
  datatype Binding = Binding(path: string, value: Json)

  /** The strings in an array; whatever else it holds is not supported. */
  function Strings(items: seq<Json>): seq<string> {
    if items == [] then []
    else if items[0].Str? then [items[0].s] + Strings(items[1..])
    else Strings(items[1..])
  }

  /** Strings in quotes, with commas between them. */
  function Listed(strings: seq<string>): string {
    if strings == [] then ""
    else if |strings| == 1 then "'" + strings[0] + "'"
    else "'" + strings[0] + "'," + Listed(strings[1..])
  }

  /** The type and the text with which libaccounts is told a value. */
  predicate Says(kind: string, text: string, v: Json) {
    match v
    case Bool(b) => kind == "b" && text == if b then "true" else "false"
    case Str(s) => kind == "" && text == s
    case Array(items) => kind == "as" && text == "[" + Listed(Strings(items)) + "]"
    case _ => false
  }

  /** Null, numbers and empty strings leave no setting; objects become groups. */
  predicate IsTold(v: Json) {
    v.Bool? || v.Array? || (v.Str? && v.s != "")
  }

  function Bindings(prefix: string, members: seq<Member>): seq<Binding>
    decreases members, 1
  {
    if members == [] then []
    else
      assert members[|members| - 1] in members;
      Bindings(prefix, members[..|members| - 1]) + BindingsOf(prefix, members[|members| - 1])
  }

  function BindingsOf(prefix: string, m: Member): seq<Binding>
    decreases m, 0
  {
    if m.value.Object? then Bindings(prefix + m.key + "/", m.value.members)
    else if IsTold(m.value) then [Binding(prefix + m.key, m.value)]
    else []
  }

  /** Leaf by leaf, the values in their places and no others. */
  ghost predicate AllSay(leaves: seq<Leaf>, bindings: seq<Binding>) {
    && |leaves| == |bindings|
    && forall i :: 0 <= i < |leaves| ==>
         leaves[i].path == bindings[i].path && Says(leaves[i].kind, leaves[i].text, bindings[i].value)
  }

  lemma SayAppend(a: seq<Leaf>, b: seq<Leaf>, x: seq<Binding>, y: seq<Binding>)
    requires AllSay(a, x) && AllSay(b, y)
    ensures AllSay(a + b, x + y)
  {
  }

  lemma {:induction false} QuotedIsListed(items: seq<Json>)
    ensures Join(Quoted(items), ',') == Listed(Strings(items)) && |Quoted(items)| == |Strings(items)|
  {
    if items != [] {
      var rest := items[1..];
      QuotedIsListed(rest);
      if items[0].Str? {
        var q := "'" + items[0].s + "'";
        assert Quoted(items) == [q] + Quoted(rest) && ([q] + Quoted(rest))[1..] == Quoted(rest);
        assert Strings(items)[1..] == Strings(rest);
        if Quoted(rest) != [] {
          assert q + "," + Join(Quoted(rest), ',') == "'" + items[0].s + "'," + Listed(Strings(rest));
        }
      } else {
        assert Quoted(items) == [] + Quoted(rest) == Quoted(rest);
      }
    }
  }

  lemma TextSays(v: Json)
    ensures TextOf(v) != "" <==> IsTold(v)
    ensures IsTold(v) ==> Says(KindOf(v), TextOf(v), v)
  {
    if v.Array? { QuotedIsListed(v.items); }
  }

  lemma {:induction false} FlattenSays(prefix: string, members: seq<Member>)
    ensures AllSay(Flatten(prefix, members), Bindings(prefix, members))
    decreases members, 1
  {
    if members != [] {
      var n := |members| - 1;
      assert members[n] in members;
      FlattenSays(prefix, members[..n]);
      MemberSays(prefix, members[n]);
      SayAppend(Flatten(prefix, members[..n]), FlattenMember(prefix, members[n]),
                Bindings(prefix, members[..n]), BindingsOf(prefix, members[n]));
    }
  }

  lemma {:induction false} MemberSays(prefix: string, m: Member)
    ensures AllSay(FlattenMember(prefix, m), BindingsOf(prefix, m))
    decreases m, 0
  {
    if m.value.Object? {
      FlattenSays(prefix + m.key + "/", m.value.members);
    } else {
      TextSays(m.value);
    }
  }

  // ----- reading a value back -----

  /** What comes before the next quote, and what comes after it. */
  function UpToQuote(text: string): (r: Option<(string, string)>)
    ensures r.Some? ==> |r.value.1| < |text|
  {
    if text == "" then None
    else if text[0] == '\'' then Some(("", text[1..]))
    else
      match UpToQuote(text[1..])
      case None => None
      case Some((front, rest)) => Some(([text[0]] + front, rest))
  }

  /** Quoted strings with commas between them, and the closing bracket. */
  function ReadList(text: string): Option<seq<Json>>
    decreases |text|
  {
    if text == "" || text[0] != '\'' then None
    else
      match UpToQuote(text[1..])
      case None => None
      case Some((item, rest)) =>
        if rest == "]" then Some([Str(item)])
        else if rest == "" || rest[0] != ',' then None
        else
          match ReadList(rest[1..])
          case None => None
          case Some(items) => Some([Str(item)] + items)
  }

  function Read(kind: string, text: string): Option<Json> {
    if kind == "" then Some(Str(text))
    else if kind == "b" then
      if text == "true" then Some(Bool(true)) else if text == "false" then Some(Bool(false)) else None
    else if kind != "as" || text == "" || text[0] != '[' then None
    else if text == "[]" then Some(Array([]))
    else
      match ReadList(text[1..])
      case None => None
      case Some(items) => Some(Array(items))
  }

  function AsItems(strings: seq<string>): seq<Json> {
    if strings == [] then [] else [Str(strings[0])] + AsItems(strings[1..])
  }

  /** The value without what is not supported. */
  function Supported(v: Json): Json {
    if v.Array? then Array(AsItems(Strings(v.items))) else v
  }

  ghost predicate QuoteFree(v: Json) {
    v.Array? ==> forall s :: s in Strings(v.items) ==> '\'' !in s
  }

  lemma {:induction false} QuoteFound(front: string, rest: string)
    requires '\'' !in front
    ensures UpToQuote(front + "'" + rest) == Some((front, rest))
  {
    var text := front + "'" + rest;
    if front == "" {
      assert text[1..] == rest;
    } else {
      assert text[1..] == front[1..] + "'" + rest;
      QuoteFound(front[1..], rest);
      assert [front[0]] + front[1..] == front;
    }
  }

  lemma ReadOne(text: string, item: string, rest: string)
    requires text != "" && text[0] == '\'' && UpToQuote(text[1..]) == Some((item, rest))
    ensures rest == "]" ==> ReadList(text) == Some([Str(item)])
    ensures |rest| > 1 && rest[0] == ',' && ReadList(rest[1..]).Some? ==>
              ReadList(text) == Some([Str(item)] + ReadList(rest[1..]).value)
  {
  }

  lemma ReadItem(item: string, rest: string)
    requires '\'' !in item
    ensures var text := "'" + (item + "'" + rest);
            text[0] == '\'' && UpToQuote(text[1..]) == Some((item, rest))
  {
    var text := "'" + (item + "'" + rest);
    assert text[1..] == item + "'" + rest;
    QuoteFound(item, rest);
  }

  lemma ListedTail(first: string, others: string)
    ensures "'" + first + "'," + others + "]" == "'" + (first + "'" + ("," + (others + "]")))
  {
  }

  lemma {:induction false} ListReadBack(strings: seq<string>)
    requires strings != [] && forall s :: s in strings ==> '\'' !in s
    ensures ReadList(Listed(strings) + "]") == Some(AsItems(strings))
  {
    var first := strings[0];
    if |strings| == 1 {
      ReadItem(first, "]");
      ReadOne("'" + (first + "'" + "]"), first, "]");
      assert Listed(strings) + "]" == "'" + (first + "'" + "]");
      assert strings[1..] == [] && AsItems(strings) == [Str(first)];
    } else {
      var others := Listed(strings[1..]);
      var rest := "," + (others + "]");
      ListReadBack(strings[1..]);
      ReadItem(first, rest);
      assert rest[1..] == others + "]";
      ReadOne("'" + (first + "'" + rest), first, rest);
      ListedTail(first, others);
    }
  }

  /** What is told can be read back, but for what was not supported, if the strings of an array
      hold no quotes. */
  lemma ReadBack(kind: string, text: string, v: Json)
    requires Says(kind, text, v) && QuoteFree(v)
    ensures Read(kind, text) == Some(Supported(v))
  {
    if v.Array? && Strings(v.items) != [] {
      ListReadBack(Strings(v.items));
      assert text[1..] == Listed(Strings(v.items)) + "]" && |Listed(Strings(v.items))| >= 2;
    }
  }

  // ----- from JSON to leaves -----

  lemma {:induction false} LeavesAppend(prefix: string, a: seq<Node>, b: seq<Node>)
    ensures Leaves(prefix, a + b) == Leaves(prefix, a) + Leaves(prefix, b)
    decreases |b|
  {
    if b == [] {
      assert a + b == a;
    } else {
      var n := |b| - 1;
      LeavesAppend(prefix, a, b[..n]);
      assert (a + b)[..|a| + n] == a + b[..n] && (a + b)[|a| + n] == b[n];
    }
  }

  lemma LeavesOne(prefix: string, n: Node)
    ensures Leaves(prefix, [n]) == LeavesOf(prefix, n)
  {
    assert [n][..0] == [];
    assert Leaves(prefix, []) == [];
  }

  /** The groups, each followed by a slash. */
  function Under(groups: seq<string>): string {
    if groups == [] then "" else groups[0] + "/" + Under(groups[1..])
  }

  lemma {:induction false} UnderJoin(parts: seq<string>)
    requires parts != []
    ensures Under(parts[..|parts| - 1]) + parts[|parts| - 1] == Join(parts, '/')
  {
    if |parts| > 1 {
      var n := |parts| - 1;
      UnderJoin(parts[1..]);
      assert parts[1..][..n - 1] == parts[..n][1..] && parts[1..][n - 1] == parts[n];
      assert parts[0] + "/" + Under(parts[1..n]) + parts[n] == parts[0] + "/" + (Under(parts[1..n]) + parts[n]);
      assert parts[..n][1..] == parts[1..n];
    }
  }

  lemma {:induction false} LeavesNested(prefix: string, groups: seq<string>, inner: seq<Node>)
    ensures Leaves(prefix, Nested(groups, inner)) == Leaves(prefix + Under(groups), inner)
    decreases |groups|
  {
    if groups == [] {
      assert prefix + "" == prefix;
    } else {
      LeavesOne(prefix, Nested(groups, inner)[0]);
      LeavesNested(prefix + groups[0] + "/", groups[1..], inner);
      assert prefix + groups[0] + "/" + Under(groups[1..]) == prefix + Under(groups);
    }
  }

  lemma {:induction false} MemberMeaning(prefix: string, m: Member)
    ensures Leaves(prefix, TranslateMember(m)) == FlattenMember(prefix, m)
    decreases m, 0
  {
    var parts := Split(m.key, '/');
    var n := |parts| - 1;
    var inner := TranslateValue(parts[n], m.value);
    var here := prefix + Under(parts[..n]);
    LeavesNested(prefix, parts[..n], inner);
    UnderJoin(parts);
    JoinSplit(m.key, '/');
    assert here + parts[n] == prefix + m.key by {
      assert here + parts[n] == prefix + (Under(parts[..n]) + parts[n]);
    }
    if m.value.Object? {
      LeavesOne(here, inner[0]);
      TranslationMeaning(prefix + m.key + "/", m.value.members);
    } else if TextOf(m.value) != "" {
      LeavesOne(here, inner[0]);
    }
  }

  /** The translation keeps the meaning: the bindings of the XML tree are the bindings of the
      JSON object, in the same order, with the same types and texts. */
  lemma {:induction false} TranslationMeaning(prefix: string, members: seq<Member>)
    ensures Leaves(prefix, Translate(members)) == Flatten(prefix, members)
    ensures AllSay(Leaves(prefix, Translate(members)), Bindings(prefix, members))
    decreases members, 1
  {
    FlattenSays(prefix, members);
    if members != [] {
      var n := |members| - 1;
      assert members[n] in members;
      TranslationMeaning(prefix, members[..n]);
      MemberMeaning(prefix, members[n]);
      LeavesAppend(prefix, Translate(members[..n]), TranslateMember(members[n]));
    }
  }

  /** What was there is kept, what is added means what the object means. */
  lemma AddSettingsMeaning(prefix: string, parent: seq<Node>, members: seq<Member>)
    ensures Leaves(prefix, parent + Translate(members)) == Leaves(prefix, parent) + Flatten(prefix, members)
    ensures Leaves(prefix, parent) <= Leaves(prefix, parent + Translate(members))
    ensures AllSay(Leaves(prefix, parent + Translate(members))[|Leaves(prefix, parent)|..], Bindings(prefix, members))
  {
    FlattenSays(prefix, members);
    LeavesAppend(prefix, parent, Translate(members));
    TranslationMeaning(prefix, members);
  }

  lemma FlattenOne(prefix: string, m: Member)
    ensures Flatten(prefix, [m]) == FlattenMember(prefix, m)
  {
    assert [m][..0] == [];
    assert Flatten(prefix, []) == [];
  }

  lemma {:induction false} FlattenAppend(prefix: string, a: seq<Member>, b: seq<Member>)
    ensures Flatten(prefix, a + b) == Flatten(prefix, a) + Flatten(prefix, b)
    decreases |b|
  {
    if b == [] {
      assert a + b == a;
    } else {
      var n := |b| - 1;
      FlattenAppend(prefix, a, b[..n]);
      assert (a + b)[..|a| + n] == a + b[..n] && (a + b)[|a| + n] == b[n];
    }
  }

  lemma FlattenSlash(prefix: string, a: string, b: string, v: Json)
    ensures FlattenMember(prefix, Member(a + "/" + b, v)) == FlattenMember(prefix, Member(a, Object([Member(b, v)])))
  {
    FlattenOne(prefix + a + "/", Member(b, v));
    assert prefix + a + "/" + b == prefix + (a + "/" + b);
    if v.Object? {
      assert prefix + a + "/" + b + "/" == prefix + (a + "/" + b) + "/";
    }
  }

  lemma FlattenAround(prefix: string, before: seq<Member>, m: Member, after: seq<Member>)
    ensures Flatten(prefix, before + [m] + after) ==
            Flatten(prefix, before) + FlattenMember(prefix, m) + Flatten(prefix, after)
  {
    FlattenAppend(prefix, before + [m], after);
    FlattenAppend(prefix, before, [m]);
    FlattenOne(prefix, m);
  }

  /** Among any other members, a key with a slash and a nested object in its place say the same. */
  lemma SlashInPlace(prefix: string, before: seq<Member>, a: string, b: string, v: Json, after: seq<Member>)
    ensures Leaves(prefix, Translate(before + [Member(a + "/" + b, v)] + after)) ==
            Leaves(prefix, Translate(before + [Member(a, Object([Member(b, v)]))] + after))
  {
    var flat, nested := Member(a + "/" + b, v), Member(a, Object([Member(b, v)]));
    TranslationMeaning(prefix, before + [flat] + after);
    TranslationMeaning(prefix, before + [nested] + after);
    FlattenAround(prefix, before, flat, after);
    FlattenAround(prefix, before, nested, after);
    FlattenSlash(prefix, a, b, v);
  }

  lemma OneLess<T>(front: seq<T>, x: T, c: seq<T>, d: seq<T>)
    requires multiset(front + [x]) == multiset(c + [x] + d)
    ensures multiset(front) == multiset(c + d)
  {
    assert multiset(front + [x]) == multiset(front) + multiset{x};
    assert multiset(c + [x] + d) == multiset(c + d) + multiset{x};
    assert multiset(front) == multiset(front + [x]) - multiset{x};
  }

  /** The order of the members changes nothing but the order of the bindings. */
  lemma {:induction false} FlattenPermuted(prefix: string, a: seq<Member>, b: seq<Member>)
    requires multiset(a) == multiset(b)
    ensures multiset(Flatten(prefix, a)) == multiset(Flatten(prefix, b))
    decreases |a|
  {
    if a == [] {
      assert |multiset(b)| == |b| == 0;
    } else {
      var n := |a| - 1;
      assert a == a[..n] + [a[n]] && a[n] in multiset(a) && a[n] in b;
      var i :| 0 <= i < |b| && b[i] == a[n];
      assert b == b[..i] + [b[i]] + b[i + 1..];
      OneLess(a[..n], a[n], b[..i], b[i + 1..]);
      FlattenPermuted(prefix, a[..n], b[..i] + b[i + 1..]);
      FlattenAround(prefix, b[..i], b[i], b[i + 1..]);
      FlattenAppend(prefix, b[..i], b[i + 1..]);
    }
  }

  /** An object is visited in the order of its keys, so another key may stand at another place:
      whatever the order is then, the bindings are the same. */
  lemma SlashIsNesting(prefix: string, before: seq<Member>, a: string, b: string, v: Json,
                                 after: seq<Member>, sorted: seq<Member>)
    requires multiset(sorted) == multiset(before + [Member(a, Object([Member(b, v)]))] + after)
    ensures multiset(Leaves(prefix, Translate(before + [Member(a + "/" + b, v)] + after))) ==
            multiset(Leaves(prefix, Translate(sorted)))
  {
    var nested := before + [Member(a, Object([Member(b, v)]))] + after;
    SlashInPlace(prefix, before, a, b, v, after);
    TranslationMeaning(prefix, nested);
    TranslationMeaning(prefix, sorted);
    FlattenPermuted(prefix, sorted, nested);
  }

  // ----- the template -----

  /** QJsonObject::value, then toObject */
  function ObjectAt(members: seq<Member>, key: string): seq<Member> {
    if members == [] then []
    else if members[0].key == key then (if members[0].value.Object? then members[0].value.members else [])
    else ObjectAt(members[1..], key)
  }

  /** QJsonObject::value, then toArray */
  function ArrayAt(members: seq<Member>, key: string): seq<Json> {
    if members == [] then []
    else if members[0].key == key then (if members[0].value.Array? then members[0].value.items else [])
    else ArrayAt(members[1..], key)
  }

  /** QJsonObject::value, then toString */
  function StringAt(members: seq<Member>, key: string): string {
    if members == [] then ""
    else if members[0].key == key then (if members[0].value.Str? then members[0].value.s else "")
    else StringAt(members[1..], key)
  }

  /** The value of a key is that of the first member with this key, if it is of the right type. */
  lemma {:induction false} ValueOfKey(members: seq<Member>, key: string, i: nat)
    requires i < |members| && members[i].key == key && forall j :: 0 <= j < i ==> members[j].key != key
    ensures
      var v := members[i].value;
      && ObjectAt(members, key) == (match v case Object(inner) => inner case _ => [])
      && ArrayAt(members, key) == (match v case Array(items) => items case _ => [])
      && StringAt(members, key) == (match v case Str(s) => s case _ => "")
  {
    if i > 0 {
      forall j | 0 <= j < i - 1 ensures members[1..][j].key != key { assert members[1..][j] == members[j + 1]; }
      ValueOfKey(members[1..], key, i - 1);
    }
  }

  lemma {:induction false} NoSuchKey(members: seq<Member>, key: string)
    requires forall m :: m in members ==> m.key != key
    ensures ObjectAt(members, key) == [] && ArrayAt(members, key) == [] && StringAt(members, key) == ""
  {
    if members != [] {
      assert members[0] in members && forall m :: m in members[1..] ==> m in members;
      NoSuchKey(members[1..], key);
    }
  }

  function MembersOf(v: Json): seq<Member> {
    if v.Object? then v.members else []
  }

  function AuthNodes(auth: seq<Member>): seq<Node> {
    if auth == [] then []
    else
      var n := |auth| - 1;
      var parts := Split(auth[n].key, '/');
      AuthNodes(auth[..n]) +
      if |parts| != 2 then []
      else [Setting("method", "", parts[0]), Setting("mechanism", "", parts[1]),
            Group(parts[0], [Group(parts[1], Translate(MembersOf(auth[n].value)))])]
  }

  /** The children of the template element. */
  function Template(json: seq<Member>): seq<Node> {
    var auth := ObjectAt(json, "auth");
    (if auth == [] then [] else [Group("auth", AuthNodes(auth))]) + Translate(ObjectAt(json, "settings"))
  }

  method AddTemplate(json: seq<Member>) returns (template: seq<Node>)
    ensures template == Template(json)
  {
    var auth := ObjectAt(json, "auth");
    var authElem: seq<Node> := [];
    for i := 0 to |auth|
      invariant authElem == AuthNodes(auth[..i])
    {
      assert auth[..i + 1][..i] == auth[..i] && auth[..i + 1][i] == auth[i];
      var parts := Split(auth[i].key, '/');
      if |parts| != 2 {
        assert AuthNodes(auth[..i]) + [] == AuthNodes(auth[..i]);
        continue;
      }
      authElem := authElem + [Setting("method", "", parts[0])];
      authElem := authElem + [Setting("mechanism", "", parts[1])];
      var mechanismGroup := AddSettings([], MembersOf(auth[i].value));
      assert mechanismGroup == Translate(MembersOf(auth[i].value));
      var methodGroup := Group(parts[0], [Group(parts[1], mechanismGroup)]);
      authElem := authElem + [methodGroup];
      assert authElem == AuthNodes(auth[..i]) +
                         [Setting("method", "", parts[0]), Setting("mechanism", "", parts[1]), methodGroup];
    }
    assert auth[..|auth|] == auth;
    template := if auth == [] then [] else [Group("auth", authElem)];
    template := AddSettings(template, ObjectAt(json, "settings"));
  }

  /** What the auth section means: for each key of the form method/mechanism the two names
      and, below them, the bindings of its object. */
  function FlattenAuth(auth: seq<Member>): seq<Leaf> {
    if auth == [] then []
    else
      var n := |auth| - 1;
      var parts := Split(auth[n].key, '/');
      FlattenAuth(auth[..n]) +
      if |parts| != 2 then []
      else [Leaf("auth/method", "", parts[0]), Leaf("auth/mechanism", "", parts[1])] +
           Flatten("auth/" + auth[n].key + "/", MembersOf(auth[n].value))
  }

  lemma PathOfAuth(a: string, b: string)
    ensures "auth/" + a + "/" + b + "/" == "auth/" + (a + "/" + b) + "/"
  {
  }

  lemma AuthGroup(m: Member)
    requires |Split(m.key, '/')| == 2
    ensures
      var parts := Split(m.key, '/');
      var settings := MembersOf(m.value);
      LeavesOf("auth/", Group(parts[0], [Group(parts[1], Translate(settings))])) ==
      Flatten("auth/" + m.key + "/", settings)
  {
    var parts := Split(m.key, '/');
    var inner := Group(parts[1], Translate(MembersOf(m.value)));
    LeavesOne("auth/" + parts[0] + "/", inner);
    JoinSplit(m.key, '/');
    assert m.key == parts[0] + "/" + parts[1];
    PathOfAuth(parts[0], parts[1]);
    TranslationMeaning("auth/" + m.key + "/", MembersOf(m.value));
  }

  lemma AuthEntry(m: Member)
    requires |Split(m.key, '/')| == 2
    ensures
      var parts := Split(m.key, '/');
      var settings := MembersOf(m.value);
      Leaves("auth/", [Setting("method", "", parts[0]), Setting("mechanism", "", parts[1]),
                       Group(parts[0], [Group(parts[1], Translate(settings))])]) ==
      [Leaf("auth/method", "", parts[0]), Leaf("auth/mechanism", "", parts[1])] +
      Flatten("auth/" + m.key + "/", settings)
  {
    var parts := Split(m.key, '/');
    var a, b := Setting("method", "", parts[0]), Setting("mechanism", "", parts[1]);
    var g := Group(parts[0], [Group(parts[1], Translate(MembersOf(m.value)))]);
    assert [a, b, g] == [a] + ([b] + [g]);
    LeavesAppend("auth/", [a], [b] + [g]);
    LeavesAppend("auth/", [b], [g]);
    LeavesOne("auth/", a);
    LeavesOne("auth/", b);
    LeavesOne("auth/", g);
    assert "auth/" + "method" == "auth/method" && "auth/" + "mechanism" == "auth/mechanism";
    AuthGroup(m);
  }

  lemma {:induction false} AuthMeaning(auth: seq<Member>)
    ensures Leaves("auth/", AuthNodes(auth)) == FlattenAuth(auth)
  {
    if auth != [] {
      var n := |auth| - 1;
      var parts := Split(auth[n].key, '/');
      AuthMeaning(auth[..n]);
      if |parts| == 2 {
        AuthEntry(auth[n]);
        LeavesAppend("auth/", AuthNodes(auth[..n]),
                     [Setting("method", "", parts[0]), Setting("mechanism", "", parts[1]),
                      Group(parts[0], [Group(parts[1], Translate(MembersOf(auth[n].value)))])]);
      } else {
        assert AuthNodes(auth[..n]) + [] == AuthNodes(auth[..n]);
        assert FlattenAuth(auth[..n]) + [] == FlattenAuth(auth[..n]);
      }
    }
  }

  /** What a template is to say: for each key method/mechanism of the auth section the two names
      and the values below them, and then the settings. */
  function AuthBindings(auth: seq<Member>): seq<Binding> {
    if auth == [] then []
    else
      var n := |auth| - 1;
      var parts := Split(auth[n].key, '/');
      AuthBindings(auth[..n]) +
      if |parts| != 2 then []
      else [Binding("auth/method", Str(parts[0])), Binding("auth/mechanism", Str(parts[1]))] +
           Bindings("auth/" + auth[n].key + "/", MembersOf(auth[n].value))
  }

  function TemplateBindings(json: seq<Member>): seq<Binding> {
    AuthBindings(ObjectAt(json, "auth")) + Bindings("", ObjectAt(json, "settings"))
  }

  lemma {:induction false} AuthSays(auth: seq<Member>)
    ensures AllSay(FlattenAuth(auth), AuthBindings(auth))
  {
    if auth != [] {
      var n := |auth| - 1;
      var parts := Split(auth[n].key, '/');
      var path, below := "auth/" + auth[n].key + "/", MembersOf(auth[n].value);
      AuthSays(auth[..n]);
      if |parts| == 2 {
        var names := [Leaf("auth/method", "", parts[0]), Leaf("auth/mechanism", "", parts[1])];
        var values := [Binding("auth/method", Str(parts[0])), Binding("auth/mechanism", Str(parts[1]))];
        FlattenSays(path, below);
        SayAppend(names, Flatten(path, below), values, Bindings(path, below));
        SayAppend(FlattenAuth(auth[..n]), names + Flatten(path, below),
                  AuthBindings(auth[..n]), values + Bindings(path, below));
      } else {
        SayAppend(FlattenAuth(auth[..n]), [], AuthBindings(auth[..n]), []);
      }
    }
  }

  lemma TemplateSays(json: seq<Member>)
    ensures AllSay(FlattenAuth(ObjectAt(json, "auth")) + Flatten("", ObjectAt(json, "settings")),
                   TemplateBindings(json))
  {
    AuthSays(ObjectAt(json, "auth"));
    FlattenSays("", ObjectAt(json, "settings"));
    SayAppend(FlattenAuth(ObjectAt(json, "auth")), Flatten("", ObjectAt(json, "settings")),
              AuthBindings(ObjectAt(json, "auth")), Bindings("", ObjectAt(json, "settings")));
  }

  lemma TemplateMeaning(json: seq<Member>)
    ensures Leaves("", Template(json)) ==
            FlattenAuth(ObjectAt(json, "auth")) + Flatten("", ObjectAt(json, "settings"))
    ensures AllSay(Leaves("", Template(json)), TemplateBindings(json))
  {
    TemplateSays(json);
    var auth := ObjectAt(json, "auth");
    var group := Group("auth", AuthNodes(auth));
    AuthMeaning(auth);
    AddSettingsMeaning("", if auth == [] then [] else [group], ObjectAt(json, "settings"));
    if auth != [] {
      LeavesOne("", group);
      assert "" + "auth" + "/" == "auth/";
    }
  }
}
