/**
 * `XMLHelper.xml_to_dict` of common/xml_helper.py: a parsed XML element
 * turned into nested mappings, lists and strings.
 */
module XmlHelper {
  import opened Wrappers
  import opened Text
  import opened Values

  /**
   * A parsed element: its tag (possibly "{namespace}local"), its attributes
   * in document order, the text before its first child, and its children.
   */
  datatype Element = Element(tag: string, attrs: seq<(string, string)>, text: Option<string>, children: seq<Element>)

  /**
   * An `ensure_array_keys` entry: the documented (parent, child) pair, or a
   * bare name, which a caller can pass although the option is typed as pairs.
   */
  datatype ArrayKey = Pair(parent: string, child: string) | Bare(name: string)

  datatype Options = Options(
    ensureArrayKeys: seq<ArrayKey>,
    remoteTypeTags: seq<string>,
    conditionalRemoteTypeTags: seq<(string, string)>,
    ignoreAttributes: seq<string>)

  const XsiNamespace: string := "{http://www.w3.org/2001/XMLSchema-instance}"

  // ------------------------------------------------------------------ names

  /** The local part of a "{namespace}local" name; a name without a namespace is its own local part. */
  function LocalName(tag: string): string {
    if |tag| > 0 && tag[0] == '{' then
      match Find(tag, "}")
      case Some(i) => tag[i + 1..]
      case None => tag
    else tag
  }

  /** Keys use the element's local name: the namespace is dropped. */
  lemma LocalNameOfQualified(ns: string, local: string)
    requires '}' !in ns
    ensures LocalName("{" + ns + "}" + local) == local
  {
    var tag := "{" + ns + "}" + local;
    assert tag == ("{" + ns) + ['}'] + local;
    FindCharAfter("{" + ns, '}', local);
  }

  lemma LocalNameOfPlain(tag: string)
    requires |tag| == 0 || tag[0] != '{'
    ensures LocalName(tag) == tag
  {
  }

  /** A child key "class" is stored as "class_". */
  function RenameClass(key: string): (r: string)
    ensures key != "class" ==> r == key
  {
    if key == "class" then "class_" else key
  }

  /** An attribute name with the XML Schema instance namespace prefix removed. */
  function StripXsi(key: string): string {
    ReplaceAll(key, XsiNamespace, "")
  }

  // ------------------------------------------------------------- attributes

  /** The attributes whose name is not in `ignore_attributes`, in order. */
  function Surviving(attrs: seq<(string, string)>, ignore: seq<string>): (r: seq<(string, string)>)
    ensures forall a :: a in r <==> a in attrs && a.0 !in ignore
  {
    if |attrs| == 0 then []
    else (if attrs[0].0 in ignore then [] else [attrs[0]]) + Surviving(attrs[1..], ignore)
  }

  /** The attributes stored one by one under their stripped names; a later one overwrites an earlier key. */
  function PutAttrs(acc: Fields, attrs: seq<(string, string)>): Fields
    decreases |attrs|
  {
    if |attrs| == 0 then acc
    else PutAttrs(Put(acc, StripXsi(attrs[0].0), Str(attrs[0].1)), attrs[1..])
  }

  // ------------------------------------------------------- child gathering

  /** The `defaultdict(list)` of gathered child values: keys in first-seen order. */
  type Gathered = seq<(string, seq<Value>)>

  predicate GatheredHas(g: Gathered, k: string) {
    |g| > 0 && (g[0].0 == k || GatheredHas(g[1..], k))
  }

  /** The list gathered under `k`, empty when `k` was never seen. */
  function GatheredAt(g: Gathered, k: string): seq<Value> {
    if |g| == 0 then [] else if g[0].0 == k then g[0].1 else GatheredAt(g[1..], k)
  }

  predicate UniqueKeys(g: Gathered) {
    |g| == 0 || (!GatheredHas(g[1..], g[0].0) && UniqueKeys(g[1..]))
  }

  /** `aggregated_child_dict[key].append(value)`: an existing key's list grows, a new key goes last. */
  function Append(g: Gathered, key: string, v: Value): (r: Gathered)
    ensures forall k :: GatheredHas(r, k) <==> GatheredHas(g, k) || k == key
    ensures UniqueKeys(g) ==> UniqueKeys(r)
    ensures forall k :: GatheredAt(r, k) == GatheredAt(g, k) + (if k == key then [v] else [])
  {
    if |g| == 0 then [(key, [v])]
    else if g[0].0 == key then
      var r := [(key, g[0].1 + [v])] + g[1..];
      assert r[1..] == g[1..];
      r
    else
      var r := [g[0]] + Append(g[1..], key, v);
      assert r[1..] == Append(g[1..], key, v);
      r
  }

  /** Every item of one child's dict appended in order. */
  function AppendAll(g: Gathered, items: Fields): (r: Gathered)
    ensures UniqueKeys(g) ==> UniqueKeys(r)
    decreases |items|
  {
    if |items| == 0 then g else AppendAll(Append(g, items[0].0, items[0].1), items[1..])
  }

  /** The values stored under `k` in one dict, in order. */
  function ValuesAt(items: Fields, k: string): seq<Value> {
    if |items| == 0 then []
    else (if items[0].0 == k then [items[0].1] else []) + ValuesAt(items[1..], k)
  }

  lemma {:induction false} AppendAllAt(g: Gathered, items: Fields, k: string)
    ensures GatheredAt(AppendAll(g, items), k) == GatheredAt(g, k) + ValuesAt(items, k)
    ensures GatheredHas(AppendAll(g, items), k) <==> GatheredHas(g, k) || ValuesAt(items, k) != []
    decreases |items|
  {
    if |items| > 0 {
      var g1 := Append(g, items[0].0, items[0].1);
      AppendAllAt(g1, items[1..], k);
      assert ValuesAt(items, k) == (if items[0].0 == k then [items[0].1] else []) + ValuesAt(items[1..], k);
      assert GatheredAt(g1, k) == GatheredAt(g, k) + (if items[0].0 == k then [items[0].1] else []);
      assert GatheredHas(g1, k) <==> GatheredHas(g, k) || items[0].0 == k;
    }
  }

  /** The children's dicts gathered in document order. */
  function GatherFrom(g: Gathered, dicts: seq<Fields>): (r: Gathered)
    ensures UniqueKeys(g) ==> UniqueKeys(r)
    decreases |dicts|
  {
    if |dicts| == 0 then g else GatherFrom(AppendAll(g, dicts[0]), dicts[1..])
  }

  /** Every value any child stored under `k`, in document order. */
  function Collected(dicts: seq<Fields>, k: string): seq<Value> {
    if |dicts| == 0 then [] else ValuesAt(dicts[0], k) + Collected(dicts[1..], k)
  }

  /** Gathering keeps every value under its key, in document order. */
  lemma {:induction false} GatherCollects(g: Gathered, dicts: seq<Fields>, k: string)
    ensures GatheredAt(GatherFrom(g, dicts), k) == GatheredAt(g, k) + Collected(dicts, k)
    ensures GatheredHas(GatherFrom(g, dicts), k) <==> GatheredHas(g, k) || Collected(dicts, k) != []
    decreases |dicts|
  {
    if |dicts| > 0 {
      var g1 := AppendAll(g, dicts[0]);
      AppendAllAt(g, dicts[0], k);
      GatherCollects(g1, dicts[1..], k);
      var here, rest := ValuesAt(dicts[0], k), Collected(dicts[1..], k);
      assert GatherFrom(g, dicts) == GatherFrom(g1, dicts[1..]);
      assert Collected(dicts, k) == here + rest;
      assert GatheredAt(g, k) + here + rest == GatheredAt(g, k) + (here + rest);
    }
  }

  // -------------------------------------------------- the tag's own mapping

  predicate ArrayKeyed(opts: Options, parent: string, key: string) {
    Pair(parent, key) in opts.ensureArrayKeys
  }

  /** A single gathered value collapses to a scalar unless (parent, key) is an ensure-array pair. */
  function Collapse(opts: Options, parent: string, key: string, vs: seq<Value>): (r: Value)
    ensures |vs| != 1 ==> r == List(vs)
    ensures ArrayKeyed(opts, parent, key) ==> r == List(vs)
    ensures |vs| == 1 && !ArrayKeyed(opts, parent, key) ==> r == vs[0]
  {
    if |vs| == 1 && !ArrayKeyed(opts, parent, key) then vs[0] else List(vs)
  }

  /** The gathered keys stored one by one, renamed and collapsed. */
  function PutGathered(acc: Fields, opts: Options, parent: string, g: Gathered): Fields
    decreases |g|
  {
    if |g| == 0 then acc
    else
      var key := RenameClass(g[0].0);
      PutGathered(Put(acc, key, Collapse(opts, parent, key, g[0].1)), opts, parent, g[1..])
  }

  /** A key that renaming neither produces nor changes reads its collapsed gathered list. */
  lemma {:induction false} PutGatheredAt(acc: Fields, opts: Options, parent: string, g: Gathered, k: string)
    requires UniqueKeys(g) && k != "class" && k != "class_"
    ensures Lookup(PutGathered(acc, opts, parent, g), k) ==
      if GatheredHas(g, k) then Some(Collapse(opts, parent, k, GatheredAt(g, k))) else Lookup(acc, k)
    decreases |g|
  {
    if |g| > 0 {
      var key := RenameClass(g[0].0);
      var acc1 := Put(acc, key, Collapse(opts, parent, key, g[0].1));
      LookupPut(acc, key, Collapse(opts, parent, key, g[0].1), k);
      PutGatheredAt(acc1, opts, parent, g[1..], k);
    }
  }

  /** A child key "class" is stored under "class_", with the ensure-array test made on the new name. */
  lemma {:induction false} PutGatheredClass(acc: Fields, opts: Options, parent: string, g: Gathered)
    requires UniqueKeys(g) && !GatheredHas(g, "class_")
    ensures Lookup(PutGathered(acc, opts, parent, g), "class_") ==
      if GatheredHas(g, "class") then Some(Collapse(opts, parent, "class_", GatheredAt(g, "class")))
      else Lookup(acc, "class_")
    ensures Lookup(PutGathered(acc, opts, parent, g), "class") == Lookup(acc, "class")
    decreases |g|
  {
    if |g| > 0 {
      var key := RenameClass(g[0].0);
      var acc1 := Put(acc, key, Collapse(opts, parent, key, g[0].1));
      LookupPut(acc, key, Collapse(opts, parent, key, g[0].1), "class_");
      LookupPut(acc, key, Collapse(opts, parent, key, g[0].1), "class");
      PutGatheredClass(acc1, opts, parent, g[1..]);
    }
  }

  /** The entries of a returned dict (every returned value is a dict). */
  function Items(v: Value): Fields {
    if v.Obj? then v.fields else []
  }

  /** Non-empty stripped text of an element that has children or kept attributes goes under "_text". */
  function PutText(fs: Fields, text: Option<string>): Fields {
    if text.Some? && text.value != "" && Strip(text.value) != "" then Put(fs, "_text", Str(Strip(text.value)))
    else fs
  }

  /** A dict with exactly one entry whose key is a remote-type tag, or a conditional pair with this tag, is replaced by that entry's value. */
  function SkipRemoteChild(opts: Options, name: string, v: Value): (r: Value)
    ensures !v.Obj? || |v.fields| != 1 ==> r == v
  {
    if v.Obj? && |v.fields| == 1
       && (v.fields[0].0 in opts.remoteTypeTags || (name, v.fields[0].0) in opts.conditionalRemoteTypeTags)
    then v.fields[0].1
    else v
  }

  predicate KeepsAttrs(e: Element, opts: Options) {
    |Surviving(e.attrs, opts.ignoreAttributes)| > 0
  }

  /** The value stored under the element's own name, before the top-level remote-type step. */
  function TagValue(e: Element, opts: Options): Value
    decreases e, 1
  {
    var name := LocalName(e.tag);
    var keep := KeepsAttrs(e, opts);
    var structured := |e.children| > 0 || keep;
    var base :=
      if |e.children| > 0 then PutGathered([], opts, name, GatherFrom([], ChildDicts(e, opts))) else [];
    var withAttrs := if keep then PutAttrs(base, Surviving(e.attrs, opts.ignoreAttributes)) else base;
    var v :=
      if structured then Obj(PutText(withAttrs, e.text))
      else if e.text.Some? && e.text.value != "" then Str(Strip(e.text.value))
      else Null;
    SkipRemoteChild(opts, name, v)
  }

  /** The dicts the children convert to, in document order. */
  function ChildDicts(e: Element, opts: Options): (r: seq<Fields>)
    ensures |r| == |e.children|
    decreases e, 0
  {
    seq(|e.children|, i requires 0 <= i < |e.children| => Items(XmlToDict(e.children[i], opts)))
  }

  /**
   * `xml_to_dict`: the element's value under its local name, except that a
   * remote-type tag whose value is a dict returns that dict itself, so the
   * result is always a mapping.
   */
  function XmlToDict(e: Element, opts: Options): (r: Value)
    ensures r.Obj?
    ensures LocalName(e.tag) !in opts.remoteTypeTags ==> r.fields == [(LocalName(e.tag), TagValue(e, opts))]
    ensures LocalName(e.tag) in opts.remoteTypeTags && TagValue(e, opts).Obj? ==> r == TagValue(e, opts)
    decreases e, 2
  {
    var name := LocalName(e.tag);
    var v := TagValue(e, opts);
    if v.Obj? && name in opts.remoteTypeTags then v else Obj([(name, v)])
  }

  // ------------------------------------------------------------ properties

  /**
   * A leaf with no text and no attribute that survives the ignore list is
   * null, whatever remote-type options are given: `<x xsi:nil="true"/>`
   * with that attribute ignored reads as `{"x": None}`.
   */
  lemma EmptyLeafIsNull(e: Element, opts: Options)
    requires |e.children| == 0
    requires forall a :: a in e.attrs ==> a.0 in opts.ignoreAttributes
    requires e.text.None? || e.text == Some("")
    ensures XmlToDict(e, opts) == Obj([(LocalName(e.tag), Null)])
  {
    assert Surviving(e.attrs, opts.ignoreAttributes) == [];
  }

  /** A leaf with text and no surviving attribute is its stripped text. */
  lemma TextLeafIsString(e: Element, opts: Options)
    requires |e.children| == 0 && |Surviving(e.attrs, opts.ignoreAttributes)| == 0
    requires e.text.Some? && e.text.value != ""
    ensures XmlToDict(e, opts) == Obj([(LocalName(e.tag), Str(Strip(e.text.value)))])
  {
  }

  /** No tag is its own remote-type tag and none has conditional pairs: the element keeps its own key level. */
  predicate PlainLevels(opts: Options, name: string) {
    |opts.remoteTypeTags| == 0
    && forall p :: p in opts.conditionalRemoteTypeTags ==> p.0 != name
  }

  /** An element with children, no kept attribute and no text maps its name to the stored gathered children. */
  lemma PlainParentValue(e: Element, opts: Options)
    requires |e.children| > 0 && !KeepsAttrs(e, opts) && e.text.None?
    requires PlainLevels(opts, LocalName(e.tag))
    ensures TagValue(e, opts) == Obj(PutGathered([], opts, LocalName(e.tag), GatherFrom([], ChildDicts(e, opts))))
  {
    var name := LocalName(e.tag);
    var fs := PutGathered([], opts, name, GatherFrom([], ChildDicts(e, opts)));
    assert PutText(fs, None) == fs;
    assert SkipRemoteChild(opts, name, Obj(fs)) == Obj(fs) by {
      if |fs| == 1 {
        assert fs[0].0 !in opts.remoteTypeTags;
        assert (name, fs[0].0) !in opts.conditionalRemoteTypeTags;
      }
    }
  }

  /**
   * Same-named children are gathered in document order under their key: one
   * occurrence is stored as is unless (parent, key) is an ensure-array pair,
   * several (or an ensure-array pair) as a list.
   */
  lemma ChildrenGathered(e: Element, opts: Options, k: string)
    requires |e.children| > 0 && !KeepsAttrs(e, opts) && e.text.None?
    requires PlainLevels(opts, LocalName(e.tag))
    requires k != "class" && k != "class_"
    ensures XmlToDict(e, opts) == Obj([(LocalName(e.tag), TagValue(e, opts))])
    ensures TagValue(e, opts).Obj?
    ensures Lookup(TagValue(e, opts).fields, k) ==
      if Collected(ChildDicts(e, opts), k) == [] then None
      else Some(Collapse(opts, LocalName(e.tag), k, Collected(ChildDicts(e, opts), k)))
  {
    var name := LocalName(e.tag);
    var dicts := ChildDicts(e, opts);
    var g := GatherFrom([], dicts);
    PlainParentValue(e, opts);
    assert UniqueKeys(g) by {
      assert UniqueKeys([]);
    }
    GatherCollects([], dicts, k);
    PutGatheredAt([], opts, name, g, k);
    assert Lookup(TagValue(e, opts).fields, k) == Lookup(PutGathered([], opts, name, g), k);
    assert GatheredHas(g, k) <==> Collected(dicts, k) != [];
    assert GatheredAt(g, k) == Collected(dicts, k);
  }

  /** `<status><T>x</T></status>` with T a remote-type tag reads as `{"status": "x"}`. */
  lemma RemoteTypeChildSkipped(parent: string, child: string, text: string, opts: Options)
    requires LocalName(parent) !in opts.remoteTypeTags && LocalName(child) in opts.remoteTypeTags
    requires LocalName(child) != "class" && !ArrayKeyed(opts, LocalName(parent), LocalName(child))
    requires text != ""
    ensures XmlToDict(Element(parent, [], None, [Element(child, [], Some(text), [])]), opts)
      == Obj([(LocalName(parent), Str(Strip(text)))])
  {
    var c := Element(child, [], Some(text), []);
    var e := Element(parent, [], None, [c]);
    var name := LocalName(parent);
    var key := LocalName(child);
    TextLeafIsString(c, opts);
    var dicts := ChildDicts(e, opts);
    assert dicts == [[(key, Str(Strip(text)))]];
    var g := GatherFrom([], dicts);
    var v := Str(Strip(text));
    assert g == [(key, [v])] by {
      assert dicts[1..] == [];
      assert g == GatherFrom(AppendAll([], dicts[0]), dicts[1..]);
      assert GatherFrom(AppendAll([], dicts[0]), []) == AppendAll([], dicts[0]);
      assert dicts[0][1..] == [];
      assert AppendAll([], dicts[0]) == AppendAll(Append([], key, v), []);
    }
    var fs := PutGathered([], opts, name, g);
    assert fs == [(key, v)] by {
      assert g[1..] == [];
      assert Collapse(opts, name, key, [v]) == v;
      assert RenameClass(key) == key;
      assert fs == PutGathered(Put([], key, v), opts, name, g[1..]);
    }
    assert TagValue(e, opts) == Str(Strip(text));
  }

  /** An attribute name in the XML Schema instance namespace loses its prefix. */
  lemma StripXsiPrefix(local: string)
    requires '{' !in local
    ensures StripXsi(XsiNamespace + local) == local
  {
    var s := XsiNamespace + local;
    assert s[..|XsiNamespace|] == XsiNamespace;
    FindFirst(s, XsiNamespace, 0);
    assert s[|XsiNamespace|..] == local;
    NoSepWithoutFirstChar(local, XsiNamespace);
    assert StripXsi(s) == s[..0] + "" + ReplaceAll(local, XsiNamespace, "");
  }

  /**
   * A childless element with one kept attribute stores it under its stripped
   * name, and its non-empty stripped text beside it under "_text".
   */
  lemma AttributeBesideText(tag: string, key: string, value: string, text: string, opts: Options)
    requires key !in opts.ignoreAttributes && StripXsi(key) != "_text" && Strip(text) != ""
    requires PlainLevels(opts, LocalName(tag))
    ensures TagValue(Element(tag, [(key, value)], Some(text), []), opts)
      == Obj([(StripXsi(key), Str(value)), ("_text", Str(Strip(text)))])
  {
    var e := Element(tag, [(key, value)], Some(text), []);
    assert Surviving(e.attrs, opts.ignoreAttributes) == [(key, value)];
    assert PutAttrs([], [(key, value)]) == [(StripXsi(key), Str(value))];
    var fs := [(StripXsi(key), Str(value)), ("_text", Str(Strip(text)))];
    assert PutText([(StripXsi(key), Str(value))], Some(text)) == fs;
  }

  // --------------------------------------------------- ensure-array entries

  /** Two option sets that differ at most in entries no (parent, key) test can match. */
  ghost predicate SamePairs(a: Options, b: Options) {
    a.remoteTypeTags == b.remoteTypeTags
    && a.conditionalRemoteTypeTags == b.conditionalRemoteTypeTags
    && a.ignoreAttributes == b.ignoreAttributes
    && forall p, c :: Pair(p, c) in a.ensureArrayKeys <==> Pair(p, c) in b.ensureArrayKeys
  }

  lemma {:induction false} PutGatheredSamePairs(acc: Fields, a: Options, b: Options, parent: string, g: Gathered)
    requires SamePairs(a, b)
    ensures PutGathered(acc, a, parent, g) == PutGathered(acc, b, parent, g)
    decreases |g|
  {
    if |g| > 0 {
      var key := RenameClass(g[0].0);
      assert Collapse(a, parent, key, g[0].1) == Collapse(b, parent, key, g[0].1) by {
        assert ArrayKeyed(a, parent, key) <==> ArrayKeyed(b, parent, key);
      }
      PutGatheredSamePairs(Put(acc, key, Collapse(a, parent, key, g[0].1)), a, b, parent, g[1..]);
    }
  }

  /** Only (parent, key) pairs among the ensure-array entries affect the result. */
  lemma {:induction false} OnlyPairsMatter(e: Element, a: Options, b: Options)
    requires SamePairs(a, b)
    ensures XmlToDict(e, a) == XmlToDict(e, b)
    decreases e
  {
    forall i | 0 <= i < |e.children|
      ensures XmlToDict(e.children[i], a) == XmlToDict(e.children[i], b)
    {
      OnlyPairsMatter(e.children[i], a, b);
    }
    assert ChildDicts(e, a) == ChildDicts(e, b);
    PutGatheredSamePairs([], a, b, LocalName(e.tag), GatherFrom([], ChildDicts(e, a)));
    assert TagValue(e, a) == TagValue(e, b);
  }

  /** Bare names in `ensure_array_keys` never match the (parent, key) test: the option then has no effect. */
  lemma BareKeysHaveNoEffect(e: Element, opts: Options)
    requires forall k :: k in opts.ensureArrayKeys ==> k.Bare?
    ensures XmlToDict(e, opts) == XmlToDict(e, opts.(ensureArrayKeys := []))
  {
    OnlyPairsMatter(e, opts, opts.(ensureArrayKeys := []));
  }
}
