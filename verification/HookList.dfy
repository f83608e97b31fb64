/** config/hooklist.go: the compact hook list, parsed and printed. */
module HookLists {
  import opened Strings

  datatype HookConfig = HookConfig(typ: string, params: map<string, string>)

  datatype ParseError = MissingType(entry: string) | NotKeyValue(typ: string, kv: string)
      | EmptyKey(typ: string, kv: string)

  datatype ParamsResult = Params(params: map<string, string>) | BadParam(error: ParseError)
  datatype EntryResult = Entry(cfg: HookConfig) | Blank | BadEntry(error: ParseError)
  datatype ParseResult = Parsed(cfgs: seq<HookConfig>) | Failed(error: ParseError)

  // ---- parsing as a function ----

  /** The parameters of a hook, one "key=value" piece after the other; a repeated key takes the later value. */
  function ParseParams(typ: string, pieces: seq<string>): ParamsResult {
    if pieces == [] then Params(map[])
    else
      match ParseParams(typ, pieces[..|pieces| - 1])
      case BadParam(e) => BadParam(e)
      case Params(params) => AddParam(typ, params, pieces[|pieces| - 1])
  }

  function AddParam(typ: string, params: map<string, string>, piece: string): ParamsResult {
    var kv := TrimSpace(piece);
    if kv == "" then Params(params)
    else
      match Cut(kv, '=')
      case NotFound => BadParam(NotKeyValue(typ, kv))
      case Found(before, value) =>
        var key := TrimSpace(before);
        if key == "" then BadParam(EmptyKey(typ, kv)) else Params(params[key := value])
  }

  function ParseEntry(piece: string): EntryResult {
    var entry := TrimSpace(piece);
    if entry == "" then Blank
    else
      var (head, pieces) := match Cut(entry, ':')
        case NotFound => (entry, [])
        case Found(before, after) => (before, Split(after, ';'));
      var typ := TrimSpace(head);
      if typ == "" then BadEntry(MissingType(entry))
      else
        match ParseParams(typ, pieces)
        case BadParam(e) => BadEntry(e)
        case Params(params) => Entry(HookConfig(typ, params))
  }

  /** The entries of the list, left to right, up to the first that is wrong. */
  function ParseEntries(pieces: seq<string>): ParseResult {
    if pieces == [] then Parsed([])
    else
      match ParseEntries(pieces[..|pieces| - 1])
      case Failed(e) => Failed(e)
      case Parsed(cfgs) =>
        match ParseEntry(pieces[|pieces| - 1])
        case BadEntry(e) => Failed(e)
        case Blank => Parsed(cfgs)
        case Entry(cfg) => Parsed(cfgs + [cfg])
  }

  function Parse(s: string): ParseResult {
    ParseEntries(Split(s, ','))
  }

  // ---- printing as a function ----

  /** String order: the order of the first differing characters. */
  predicate LessEq(a: string, b: string) {
    a == "" || (b != "" && (a[0] < b[0] || (a[0] == b[0] && LessEq(a[1..], b[1..]))))
  }

  lemma {:induction false} LessEqTotal(a: string, b: string)
    ensures LessEq(a, b) || LessEq(b, a)
    ensures LessEq(a, b) && LessEq(b, a) ==> a == b
    ensures LessEq(a, a)
  {
    if a != "" && b != "" {
      LessEqTotal(a[1..], b[1..]);
      assert a == [a[0]] + a[1..] && b == [b[0]] + b[1..];
    }
    if a != "" {
      LessEqTotal(a[1..], a[1..]);
    }
  }

  lemma {:induction false} LessEqTransitive(a: string, b: string, c: string)
    requires LessEq(a, b) && LessEq(b, c)
    ensures LessEq(a, c)
  {
    if a != "" && a[0] == b[0] == c[0] {
      LessEqTransitive(a[1..], b[1..], c[1..]);
    }
  }

  /** It is the dictionary order: a start comes first, otherwise the first difference decides. */
  lemma {:induction false} LessEqIs(a: string, b: string)
    ensures LessEq(a, b) <==> a <= b || exists i :: 0 <= i < |a| && i < |b| && a[..i] == b[..i] && a[i] < b[i]
  {
    if a != "" && b != "" {
      var c, d := a[1..], b[1..];
      LessEqIs(c, d);
      assert a == [a[0]] + c && b == [b[0]] + d;
      if a[0] == b[0] {
        if i :| 0 <= i < |c| && i < |d| && c[..i] == d[..i] && c[i] < d[i] {
          assert a[..i + 1] == [a[0]] + c[..i] && b[..i + 1] == [b[0]] + d[..i];
          assert a[i + 1] < b[i + 1];
        }
        if i :| 0 <= i < |a| && i < |b| && a[..i] == b[..i] && a[i] < b[i] {
          assert i > 0 && c[..i - 1] == a[..i][1..] && d[..i - 1] == b[..i][1..] && c[i - 1] < d[i - 1];
        }
      } else if a[0] < b[0] {
        assert a[..0] == b[..0];
      } else {
        forall i | 0 < i < |a| && i < |b|
          ensures a[..i] != b[..i]
        {
          assert a[..i][0] == a[0] && b[..i][0] == b[0];
        }
      }
    }
  }

  ghost predicate Sorted(keys: seq<string>) {
    forall i, j :: 0 <= i < j < |keys| ==> LessEq(keys[i], keys[j]) && keys[i] != keys[j]
  }

  /** `keys` lists the map's keys in order: there is only one such list. */
  ghost predicate KeyOrder(params: map<string, string>, keys: seq<string>) {
    Sorted(keys) && forall k :: k in keys <==> k in params
  }

  lemma FirstIsKey(params: map<string, string>, keys: seq<string>)
    requires KeyOrder(params, keys) && keys != []
    ensures keys[0] in params
  {
    assert keys[0] in keys;
  }

  /** Without its first key a list orders the map without that key. */
  lemma KeyOrderRest(params: map<string, string>, keys: seq<string>)
    requires KeyOrder(params, keys) && keys != []
    ensures KeyOrder(params - {keys[0]}, keys[1..])
  {
    forall k
      ensures k in keys[1..] <==> k in params - {keys[0]}
    {
      assert keys == [keys[0]] + keys[1..];
    }
  }

  lemma FirstIsLeast(params: map<string, string>, keys: seq<string>, k: string)
    requires KeyOrder(params, keys) && k in params
    ensures keys != [] && LessEq(keys[0], k)
  {
    assert k in keys;
    LessEqTotal(k, k);
  }

  lemma {:induction false} KeyOrderUnique(params: map<string, string>, a: seq<string>, b: seq<string>)
    requires KeyOrder(params, a) && KeyOrder(params, b)
    ensures a == b
    decreases |a|
  {
    if a == [] {
      if b != [] {
        FirstIsKey(params, b);
      }
    } else {
      FirstIsKey(params, a);
      FirstIsLeast(params, b, a[0]);
      FirstIsKey(params, b);
      FirstIsLeast(params, a, b[0]);
      LessEqTotal(a[0], b[0]);
      KeyOrderRest(params, a);
      KeyOrderRest(params, b);
      KeyOrderUnique(params - {a[0]}, a[1..], b[1..]);
      assert a == [a[0]] + a[1..] && b == [b[0]] + b[1..];
    }
  }

  function Pieces(params: map<string, string>, keys: seq<string>): seq<string>
    requires forall k :: k in keys ==> k in params
  {
    if keys == [] then []
    else Pieces(params, keys[..|keys| - 1]) + [keys[|keys| - 1] + "=" + params[keys[|keys| - 1]]]
  }

  /** `text` prints the entry `c`, its parameters in key order. */
  ghost predicate PrintsEntry(c: HookConfig, text: string) {
    if c.params == map[] then text == c.typ
    else exists keys :: KeyOrder(c.params, keys) && text == c.typ + ":" + Join(Pieces(c.params, keys), ';')
  }

  ghost predicate PrintsAll(cfgs: seq<HookConfig>, entries: seq<string>) {
    |entries| == |cfgs| && forall i :: 0 <= i < |cfgs| ==> PrintsEntry(cfgs[i], entries[i])
  }

  /** `text` prints the list. */
  ghost predicate Prints(cfgs: seq<HookConfig>, text: string) {
    exists entries :: PrintsAll(cfgs, entries) && text == Join(entries, ',')
  }

  /** Printing is canonical: whatever order the maps are walked in, there is one text. */
  lemma PrintsOnce(cfgs: seq<HookConfig>, a: string, b: string)
    requires Prints(cfgs, a) && Prints(cfgs, b)
    ensures a == b
  {
    var es :| PrintsAll(cfgs, es) && a == Join(es, ',');
    var fs :| PrintsAll(cfgs, fs) && b == Join(fs, ',');
    forall i | 0 <= i < |cfgs|
      ensures es[i] == fs[i]
    {
      var c := cfgs[i];
      assert PrintsEntry(c, es[i]) && PrintsEntry(c, fs[i]);
      if c.params != map[] {
        var ks :| KeyOrder(c.params, ks) && es[i] == c.typ + ":" + Join(Pieces(c.params, ks), ';');
        var ls :| KeyOrder(c.params, ls) && fs[i] == c.typ + ":" + Join(Pieces(c.params, ls), ';');
        KeyOrderUnique(c.params, ks, ls);
      }
    }
    assert es == fs;
  }

  // ---- what parsing can give ----

  ghost predicate GoodKey(k: string) {
    k != "" && Trimmed(k) && ',' !in k && ';' !in k && '=' !in k
  }

  ghost predicate GoodValue(v: string) {
    ',' !in v && ';' !in v && (v == "" || !IsSpace(v[|v| - 1]))
  }

  ghost predicate GoodParams(params: map<string, string>) {
    forall k :: k in params ==> GoodKey(k) && GoodValue(params[k])
  }

  ghost predicate GoodType(t: string) {
    t != "" && Trimmed(t) && ',' !in t && ':' !in t
  }

  ghost predicate GoodConfig(c: HookConfig) {
    GoodType(c.typ) && GoodParams(c.params)
  }

  lemma AddParamGood(typ: string, params: map<string, string>, piece: string)
    requires GoodParams(params) && ',' !in piece && ';' !in piece
    ensures var r := AddParam(typ, params, piece); r.Params? ==> GoodParams(r.params)
  {
    var kv := TrimSpace(piece);
    var cut := Cut(kv, '=');
    if kv != "" && cut.Found? {
      assert forall c :: c in cut.before ==> c in kv;
      assert forall c :: c in cut.after ==> c in kv;
      assert cut.after != "" ==> cut.after[|cut.after| - 1] == kv[|kv| - 1];
    }
  }

  lemma {:induction false} ParseParamsGood(typ: string, pieces: seq<string>)
    requires forall i :: 0 <= i < |pieces| ==> ',' !in pieces[i] && ';' !in pieces[i]
    ensures ParseParams(typ, pieces).Params? ==> GoodParams(ParseParams(typ, pieces).params)
    decreases |pieces|
  {
    if pieces != [] {
      ParseParamsGood(typ, pieces[..|pieces| - 1]);
      var r := ParseParams(typ, pieces[..|pieces| - 1]);
      if r.Params? {
        AddParamGood(typ, r.params, pieces[|pieces| - 1]);
      }
    }
  }

  lemma ParseEntryGood(piece: string)
    requires ',' !in piece
    ensures ParseEntry(piece).Entry? ==> GoodConfig(ParseEntry(piece).cfg)
  {
    var entry := TrimSpace(piece);
    match Cut(entry, ':')
    case NotFound =>
      ParseParamsGood(TrimSpace(entry), []);
    case Found(before, after) =>
      assert forall c :: c in after || c in before ==> c in entry;
      SplitHasNoMore(after, ';', ',');
      ParseParamsGood(TrimSpace(before), Split(after, ';'));
  }

  lemma {:induction false} ParseEntriesGood(pieces: seq<string>)
    requires forall i :: 0 <= i < |pieces| ==> ',' !in pieces[i]
    ensures ParseEntries(pieces).Parsed? ==> forall c :: c in ParseEntries(pieces).cfgs ==> GoodConfig(c)
    decreases |pieces|
  {
    if pieces != [] {
      ParseEntriesGood(pieces[..|pieces| - 1]);
      ParseEntryGood(pieces[|pieces| - 1]);
    }
  }

  // ---- what is refused ----

  lemma NotInSpace(s: string, c: char)
    requires Spaces(s) && !IsSpace(c)
    ensures c !in s
  {
  }

  /** Cutting a text at a character that is no space, with space around it. */
  lemma CutAround(a: string, t: string, b: string, sep: char)
    requires Spaces(a) && Spaces(b) && !IsSpace(sep)
    ensures sep in a + t + b <==> sep in t
    ensures sep in t ==> Cut(a + t + b, sep) == Found(a + Cut(t, sep).before, Cut(t, sep).after + b)
  {
    NotInSpace(a, sep);
    NotInSpace(b, sep);
    if sep in t {
      var cut := Cut(t, sep);
      CutInside(a, cut.before, cut.after, b, sep);
    }
  }

  lemma CutInside(a: string, before: string, after: string, b: string, sep: char)
    requires sep !in a && sep !in before
    ensures Cut(a + (before + [sep] + after) + b, sep) == Found(a + before, after + b)
  {
    assert a + (before + [sep] + after) + b == (a + before) + [sep] + (after + b);
    CutFirst(a + before, after + b, sep);
  }

  lemma SpaceBefore(a: string, s: string)
    requires Spaces(a)
    ensures TrimSpace(a + s) == TrimSpace(s)
  {
    SpaceAround(a, s, "");
    assert a + s + "" == a + s;
  }

  lemma SpaceBehind(s: string, b: string)
    requires Spaces(b)
    ensures TrimSpace(s + b) == TrimSpace(s)
  {
    SpaceAround("", s, b);
    assert "" + s + b == s + b;
  }

  /** The two sides of the cut, up to outer space. */
  lemma CutTrimmed(s: string, sep: char)
    requires !IsSpace(sep)
    ensures sep in TrimSpace(s) <==> sep in s
    ensures sep in s ==>
              && TrimSpace(Cut(TrimSpace(s), sep).before) == TrimSpace(Cut(s, sep).before)
              && TrimSpace(Cut(TrimSpace(s), sep).after) == TrimSpace(Cut(s, sep).after)
  {
    var a, b := OuterSpace(s);
    var t := TrimSpace(s);
    CutAround(a, t, b, sep);
    if sep in t {
      var cut := Cut(t, sep);
      SpaceBefore(a, cut.before);
      SpaceBehind(cut.after, b);
    }
  }

  /** A parameter that is not blank and has no key. */
  predicate Keyless(piece: string) {
    !Spaces(piece) && ('=' !in piece || Spaces(Cut(piece, '=').before))
  }

  /** One parameter: refused exactly when it has no key; otherwise its value, up to outer space, is that of the key. */
  lemma AddParamRefuses(typ: string, params: map<string, string>, piece: string)
    ensures var r := AddParam(typ, params, piece);
            && (r.BadParam? <==> Keyless(piece))
            && (Keyless(piece) ==>
                  var kv := TrimSpace(piece);
                  r.error == if '=' in piece then EmptyKey(typ, kv) else NotKeyValue(typ, kv))
            && (Spaces(piece) ==> r == Params(params))
            && (!Spaces(piece) && !Keyless(piece) ==>
                  var key := TrimSpace(Cut(piece, '=').before);
                  && key in r.params && r.params == params[key := r.params[key]]
                  && TrimSpace(r.params[key]) == TrimSpace(Cut(piece, '=').after))
  {
    SpaceAround("", piece, "");
    if !Spaces(piece) {
      CutTrimmed(piece, '=');
      if '=' in piece {
        SpaceAround("", Cut(piece, '=').before, "");
      }
    }
  }

  lemma {:induction false} ParseParamsRefuses(typ: string, pieces: seq<string>)
    ensures ParseParams(typ, pieces).BadParam? <==> exists p :: p in pieces && Keyless(p)
    decreases |pieces|
  {
    if pieces != [] {
      var last := |pieces| - 1;
      var front := pieces[..last];
      assert pieces == front + [pieces[last]];
      ParseParamsRefuses(typ, front);
      if ParseParams(typ, front).Params? {
        AddParamRefuses(typ, ParseParams(typ, front).params, pieces[last]);
      }
      assert forall p :: p in pieces <==> p in front || p == pieces[last];
    }
  }

  /** The parameters of an entry, unparsed. */
  function ParamsOf(entry: string): seq<string> {
    match Cut(entry, ':')
    case NotFound => []
    case Found(_, after) => Split(after, ';')
  }

  /** An entry that is not blank, and has no type or a parameter without a key. */
  ghost predicate Wrong(piece: string) {
    var params := ParamsOf(TrimSpace(piece));
    && !Spaces(piece) && ':' in piece
    && (Spaces(Cut(piece, ':').before) || exists p :: p in params && Keyless(p))
  }

  lemma ParseEntryRefuses(piece: string)
    ensures ParseEntry(piece).BadEntry? <==> Wrong(piece)
    ensures ParseEntry(piece).Blank? <==> Spaces(piece)
    ensures Wrong(piece) && Spaces(Cut(piece, ':').before) ==>
              ParseEntry(piece) == BadEntry(MissingType(TrimSpace(piece)))
    ensures ParseEntry(piece).Entry? ==>
              ParseEntry(piece).cfg.typ == TrimSpace(if ':' in piece then Cut(piece, ':').before else piece)
  {
    var entry := TrimSpace(piece);
    SpaceAround("", piece, "");
    CutTrimmed(piece, ':');
    ParseParamsRefuses(TrimSpace(if ':' in entry then Cut(entry, ':').before else entry), ParamsOf(entry));
    if ':' in piece {
      SpaceAround("", Cut(piece, ':').before, "");
    } else {
      TrimmedStays(entry);
    }
  }

  /** The first entry that does not parse decides. */
  lemma {:induction false} FirstErrorDecides(pieces: seq<string>)
    ensures var r := ParseEntries(pieces);
            && (r.Parsed? ==> forall p :: p in pieces ==> !ParseEntry(p).BadEntry?)
            && (r.Failed? ==> exists i: nat :: i < |pieces| && ParseEntry(pieces[i]) == BadEntry(r.error)
                                               && forall p :: p in pieces[..i] ==> !ParseEntry(p).BadEntry?)
    decreases |pieces|
  {
    if pieces != [] {
      var last := |pieces| - 1;
      var front := pieces[..last];
      FirstErrorDecides(front);
      assert pieces == front + [pieces[last]];
      if ParseEntries(front).Failed? {
        var i: nat :| i < |front| && ParseEntry(front[i]) == BadEntry(ParseEntries(front).error)
                      && forall p :: p in front[..i] ==> !ParseEntry(p).BadEntry?;
        assert pieces[i] == front[i] && pieces[..i] == front[..i];
      } else if ParseEntry(pieces[last]).BadEntry? {
        assert pieces[..last] == front;
      }
    }
  }

  /** A list is refused exactly when an entry of it is wrong, and the error is that of the first one. */
  lemma ParseRefusesIff(s: string)
    ensures Parse(s).Failed? <==> exists p :: p in Split(s, ',') && Wrong(p)
  {
    var pieces := Split(s, ',');
    FirstErrorDecides(pieces);
    forall p
      ensures ParseEntry(p).BadEntry? <==> Wrong(p)
    {
      ParseEntryRefuses(p);
    }
    if Parse(s).Failed? {
      var i: nat :| i < |pieces| && ParseEntry(pieces[i]) == BadEntry(Parse(s).error);
      assert pieces[i] in pieces;
    }
  }

  // ---- printing, then parsing ----

  lemma PieceParses(typ: string, params: map<string, string>, k: string, v: string)
    requires GoodKey(k) && GoodValue(v)
    ensures AddParam(typ, params, k + "=" + v) == Params(params[k := v])
    ensures ';' !in k + "=" + v && ',' !in k + "=" + v
  {
    var kv := k + "=" + v;
    assert kv[0] == k[0] && kv[|kv| - 1] == (if v == "" then '=' else v[|v| - 1]);
    TrimmedStays(kv);
    TrimmedStays(k);
    CutFirst(k, v, '=');
    assert k + ['='] + v == kv;
  }

  ghost function Restrict(params: map<string, string>, keys: seq<string>): map<string, string> {
    map k | k in params && k in keys :: params[k]
  }

  lemma RestrictMore(params: map<string, string>, front: seq<string>, k: string)
    requires k in params
    ensures Restrict(params, front)[k := params[k]] == Restrict(params, front + [k])
  {
  }

  ghost predicate Clean(pieces: seq<string>) {
    forall i :: 0 <= i < |pieces| ==> ';' !in pieces[i] && ',' !in pieces[i]
  }

  /** The pieces of some keys parse back to the map on those keys. */
  lemma {:induction false} PiecesParse(typ: string, params: map<string, string>, keys: seq<string>)
    requires GoodParams(params) && (forall k :: k in keys ==> k in params)
    ensures ParseParams(typ, Pieces(params, keys)) == Params(Restrict(params, keys))
    ensures |Pieces(params, keys)| == |keys| && Clean(Pieces(params, keys))
    decreases |keys|
  {
    if keys != [] {
      var front, k := keys[..|keys| - 1], keys[|keys| - 1];
      assert k in keys;
      PiecesParse(typ, params, front);
      LastPieceParses(typ, params, Pieces(params, front), Restrict(params, front), k);
      RestrictMore(params, front, k);
      assert keys == front + [k];
    } else {
      assert Restrict(params, keys) == map[];
    }
  }

  lemma LastPieceParses(typ: string, params: map<string, string>, front: seq<string>, sofar: map<string, string>,
                        k: string)
    requires GoodParams(params) && k in params && Clean(front)
    requires ParseParams(typ, front) == Params(sofar)
    ensures var pieces := front + [k + "=" + params[k]];
      Clean(pieces) && ParseParams(typ, pieces) == Params(sofar[k := params[k]])
  {
    var pieces := front + [k + "=" + params[k]];
    PieceParses(typ, sofar, k, params[k]);
    assert pieces[..|pieces| - 1] == front;
  }

  lemma JoinHas(parts: seq<string>, sep: char, c: char)
    requires c != sep && forall i :: 0 <= i < |parts| ==> c !in parts[i]
    ensures c !in Join(parts, sep)
  {
  }

  lemma {:induction false} JoinEnds(parts: seq<string>, sep: char)
    requires parts != [] && parts[|parts| - 1] != ""
    ensures var s := Join(parts, sep); s != "" && s[|s| - 1] == parts[|parts| - 1][|parts[|parts| - 1]| - 1]
    decreases |parts|
  {
    if |parts| > 1 {
      JoinEnds(parts[1..], sep);
    }
  }

  lemma BareEntryParses(c: HookConfig)
    requires GoodConfig(c) && c.params == map[]
    ensures ParseEntry(c.typ) == Entry(c)
  {
    TrimmedStays(c.typ);
    assert Cut(c.typ, ':') == NotFound;
  }

  lemma SomeKey(params: map<string, string>, keys: seq<string>)
    requires params != map[] && KeyOrder(params, keys)
    ensures keys != [] && keys[|keys| - 1] in params
  {
    var any :| any in params;
    assert any in keys;
    assert keys[|keys| - 1] in keys;
  }

  lemma LastPieceEnds(k: string, v: string)
    requires GoodKey(k) && GoodValue(v)
    ensures var p := k + "=" + v; p != "" && !IsSpace(p[|p| - 1])
  {
    var p := k + "=" + v;
    assert p[|p| - 1] == if v == "" then '=' else v[|v| - 1];
  }

  /** The pieces of all keys, joined: not empty, no comma, and no space at the end. */
  lemma PiecesJoined(c: HookConfig, keys: seq<string>)
    requires GoodConfig(c) && c.params != map[] && KeyOrder(c.params, keys)
    ensures |Pieces(c.params, keys)| == |keys| > 0 && Clean(Pieces(c.params, keys))
    ensures var s := Join(Pieces(c.params, keys), ';'); ',' !in s && s != "" && !IsSpace(s[|s| - 1])
  {
    var pieces := Pieces(c.params, keys);
    PiecesParse(c.typ, c.params, keys);
    SomeKey(c.params, keys);
    JoinHas(pieces, ';', ',');
    var k := keys[|keys| - 1];
    LastPieceEnds(k, c.params[k]);
    assert pieces[|pieces| - 1] == k + "=" + c.params[k];
    JoinEnds(pieces, ';');
  }

  lemma HeadAndParams(typ: string, rest: string)
    requires GoodType(typ) && rest != "" && !IsSpace(rest[|rest| - 1])
    ensures var text := typ + ":" + rest; TrimSpace(text) == text && Cut(text, ':') == Found(typ, rest) && text != ""
  {
    var text := typ + ":" + rest;
    assert text[0] == typ[0] && text[|text| - 1] == rest[|rest| - 1];
    TrimmedStays(text);
    CutFirst(typ, rest, ':');
    assert typ + [':'] + rest == text;
  }

  lemma FullEntryParses(c: HookConfig, keys: seq<string>)
    requires GoodConfig(c) && c.params != map[] && KeyOrder(c.params, keys)
    ensures ParseEntry(c.typ + ":" + Join(Pieces(c.params, keys), ';')) == Entry(c)
  {
    var pieces := Pieces(c.params, keys);
    PiecesJoined(c, keys);
    HeadAndParams(c.typ, Join(pieces, ';'));
    SplitJoin(pieces, ';');
    PiecesParse(c.typ, c.params, keys);
    assert Restrict(c.params, keys) == c.params;
    TrimmedStays(c.typ);
  }

  lemma EntryParses(c: HookConfig, text: string)
    requires GoodConfig(c) && PrintsEntry(c, text)
    ensures ParseEntry(text) == Entry(c) && ',' !in text
  {
    if c.params == map[] {
      BareEntryParses(c);
    } else {
      var keys :| KeyOrder(c.params, keys) && text == c.typ + ":" + Join(Pieces(c.params, keys), ';');
      FullEntryParses(c, keys);
      PiecesJoined(c, keys);
    }
  }

  /** All but the last configuration print as all but the last entry. */
  lemma FrontPrints(cfgs: seq<HookConfig>, entries: seq<string>)
    requires PrintsAll(cfgs, entries) && cfgs != [] && forall c :: c in cfgs ==> GoodConfig(c)
    ensures var last := |cfgs| - 1;
            && |entries| == |cfgs| && PrintsAll(cfgs[..last], entries[..last]) && PrintsEntry(cfgs[last], entries[last])
            && GoodConfig(cfgs[last]) && forall c :: c in cfgs[..last] ==> GoodConfig(c)
  {
  }

  lemma FrontAndLast<T>(s: seq<T>)
    requires s != []
    ensures s[..|s| - 1] + [s[|s| - 1]] == s
  {
  }

  lemma LastEntryParses(cfgs: seq<HookConfig>, entries: seq<string>)
    requires cfgs != [] && |entries| == |cfgs|
    requires var last := |cfgs| - 1;
             && GoodConfig(cfgs[last]) && PrintsEntry(cfgs[last], entries[last])
             && ParseEntries(entries[..last]) == Parsed(cfgs[..last])
    ensures ParseEntries(entries) == Parsed(cfgs)
  {
    EntryParses(cfgs[|cfgs| - 1], entries[|cfgs| - 1]);
    FrontAndLast(cfgs);
  }

  lemma {:induction false} EntriesParse(cfgs: seq<HookConfig>, entries: seq<string>)
    requires PrintsAll(cfgs, entries) && forall c :: c in cfgs ==> GoodConfig(c)
    ensures ParseEntries(entries) == Parsed(cfgs)
    decreases |cfgs|
  {
    if cfgs != [] {
      var last := |cfgs| - 1;
      FrontPrints(cfgs, entries);
      EntriesParse(cfgs[..last], entries[..last]);
      LastEntryParses(cfgs, entries);
    }
  }

  lemma NoCommas(cfgs: seq<HookConfig>, entries: seq<string>)
    requires PrintsAll(cfgs, entries) && forall c :: c in cfgs ==> GoodConfig(c)
    ensures forall i :: 0 <= i < |entries| ==> ',' !in entries[i]
  {
    forall i | 0 <= i < |entries|
      ensures ',' !in entries[i]
    {
      EntryParses(cfgs[i], entries[i]);
    }
  }

  /** Whenever a list parses, its canonical print parses to the same configurations. */
  lemma RoundTrip(s: string, text: string)
    requires Parse(s).Parsed? && Prints(Parse(s).cfgs, text)
    ensures Parse(text) == Parse(s)
  {
    var cfgs := Parse(s).cfgs;
    ParseEntriesGood(Split(s, ','));
    var entries :| PrintsAll(cfgs, entries) && text == Join(entries, ',');
    EntriesParse(cfgs, entries);
    NoCommas(cfgs, entries);
    if cfgs == [] {
      assert Split("", ',') == [""];
      assert ParseEntries([""]) == Parsed([]) by {
        assert [""][..0] == [];
      }
    } else {
      SplitJoin(entries, ',');
    }
  }

  // ---- the code ----

  /** The inner loop of ParseHookList, over the parameters of one entry. */
  method ParseParamList(typ: string, pieces: seq<string>) returns (res: ParamsResult)
    ensures res == ParseParams(typ, pieces)
  {
    var params := map[];
    for i := 0 to |pieces|
      invariant ParseParams(typ, pieces[..i]) == Params(params)
    {
      assert pieces[..i + 1][..i] == pieces[..i];
      var kv := TrimSpace(pieces[i]);
      if kv == "" {
        continue;
      }
      var cut := Cut(kv, '=');
      if cut.NotFound? {
        ParamFailureStays(typ, pieces, i + 1);
        return BadParam(NotKeyValue(typ, kv));
      }
      var key := TrimSpace(cut.before);
      if key == "" {
        ParamFailureStays(typ, pieces, i + 1);
        return BadParam(EmptyKey(typ, kv));
      }
      params := params[key := cut.after];
    }
    assert pieces[..|pieces|] == pieces;
    return Params(params);
  }

  /** One step of the outer loop, on the function it computes. */
  lemma ParseEntriesStep(pieces: seq<string>, i: nat, cfgs: seq<HookConfig>)
    requires i < |pieces| && ParseEntries(pieces[..i]) == Parsed(cfgs)
    ensures var r := ParseEntry(pieces[i]);
      && (r.Blank? ==> ParseEntries(pieces[..i + 1]) == Parsed(cfgs))
      && (r.Entry? ==> ParseEntries(pieces[..i + 1]) == Parsed(cfgs + [r.cfg]))
      && (r.BadEntry? ==> ParseEntries(pieces) == Failed(r.error))
  {
    assert pieces[..i + 1][..i] == pieces[..i];
    if ParseEntry(pieces[i]).BadEntry? {
      FailureStays(pieces, i + 1);
    }
  }

  method ParseHookList(s: string) returns (res: ParseResult)
    ensures res == Parse(s)
  {
    var cfgs := [];
    var pieces := Split(s, ',');
    for i := 0 to |pieces|
      invariant ParseEntries(pieces[..i]) == Parsed(cfgs)
    {
      ParseEntriesStep(pieces, i, cfgs);
      var entry := TrimSpace(pieces[i]);
      if entry == "" {
        continue;
      }
      var cut := Cut(entry, ':');
      var typ := TrimSpace(if cut.Found? then cut.before else entry);
      if typ == "" {
        return Failed(MissingType(entry));
      }
      var params := map[];
      if cut.Found? {
        var parsed := ParseParamList(typ, Split(cut.after, ';'));
        if parsed.BadParam? {
          return Failed(parsed.error);
        }
        params := parsed.params;
      }
      cfgs := cfgs + [HookConfig(typ, params)];
    }
    assert pieces[..|pieces|] == pieces;
    return Parsed(cfgs);
  }

  /** The first wrong entry decides. */
  lemma {:induction false} FailureStays(pieces: seq<string>, n: nat)
    requires n <= |pieces| && ParseEntries(pieces[..n]).Failed?
    ensures ParseEntries(pieces) == ParseEntries(pieces[..n])
    decreases |pieces|
  {
    if n == |pieces| {
      assert pieces[..n] == pieces;
    } else {
      assert pieces[..|pieces| - 1][..n] == pieces[..n];
      FailureStays(pieces[..|pieces| - 1], n);
    }
  }

  lemma {:induction false} ParamFailureStays(typ: string, pieces: seq<string>, n: nat)
    requires n <= |pieces| && ParseParams(typ, pieces[..n]).BadParam?
    ensures ParseParams(typ, pieces) == ParseParams(typ, pieces[..n])
    decreases |pieces|
  {
    if n == |pieces| {
      assert pieces[..n] == pieces;
    } else {
      assert pieces[..|pieces| - 1][..n] == pieces[..n];
      ParamFailureStays(typ, pieces[..|pieces| - 1], n);
    }
  }

  /** sort.Strings on distinct strings. */
  method SortStrings(keys: seq<string>) returns (sorted: seq<string>)
    requires forall i, j :: 0 <= i < j < |keys| ==> keys[i] != keys[j]
    ensures Sorted(sorted) && forall k :: k in sorted <==> k in keys
  {
    sorted := [];
    for i := 0 to |keys|
      invariant Sorted(sorted)
      invariant forall k :: k in sorted <==> k in keys[..i]
    {
      var k := keys[i];
      assert k !in sorted;
      var at := 0;
      while at < |sorted| && LessEq(sorted[at], k)
        invariant 0 <= at <= |sorted|
        invariant forall j :: 0 <= j < at ==> LessEq(sorted[j], k)
      {
        at := at + 1;
      }
      assert forall j :: at <= j < |sorted| ==> LessEq(k, sorted[j]) by {
        forall j | at <= j < |sorted|
          ensures LessEq(k, sorted[j])
        {
          LessEqTotal(k, sorted[at]);
          if j > at {
            LessEqTransitive(k, sorted[at], sorted[j]);
          }
        }
      }
      sorted := sorted[..at] + [k] + sorted[at..];
      assert keys[..i + 1] == keys[..i] + [k];
    }
    assert keys[..|keys|] == keys;
  }

  /** FormatHookList: the map is walked in an arbitrary order, and the print is the canonical one. */
  method FormatHookList(cfgs: seq<HookConfig>) returns (text: string)
    ensures Prints(cfgs, text)
  {
    var entries: seq<string> := [];
    for i := 0 to |cfgs|
      invariant |entries| == i
      invariant forall j :: 0 <= j < i ==> PrintsEntry(cfgs[j], entries[j])
    {
      var c := cfgs[i];
      if |c.params| == 0 {
        assert c.params == map[];
        entries := entries + [c.typ];
        continue;
      }
      var keys: seq<string> := [];
      var todo := c.params.Keys;
      while todo != {}
        invariant todo <= c.params.Keys
        invariant forall k :: k in keys <==> k in c.params && k !in todo
        invariant forall a, b :: 0 <= a < b < |keys| ==> keys[a] != keys[b]
        decreases todo
      {
        var k :| k in todo;
        keys, todo := keys + [k], todo - {k};
      }
      keys := SortStrings(keys);
      var parts: seq<string> := [];
      for j := 0 to |keys|
        invariant parts == Pieces(c.params, keys[..j])
      {
        assert keys[..j + 1][..j] == keys[..j];
        parts := parts + [keys[j] + "=" + c.params[keys[j]]];
      }
      assert keys[..|keys|] == keys;
      assert KeyOrder(c.params, keys);
      entries := entries + [c.typ + ":" + Join(parts, ';')];
    }
    assert PrintsAll(cfgs, entries);
    return Join(entries, ',');
  }
}
