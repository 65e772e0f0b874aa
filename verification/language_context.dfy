/** The translation lookup `t` and the language state of the language provider. */
module LanguageContext {
  import opened Wrappers

  datatype Lang = En | Tr

  /** The language codes, which are also the values persisted in local storage. */
  function LangCode(l: Lang): string {
    match l
    case En => "en"
    case Tr => "tr"
  }

  function ParseLang(s: string): (r: Option<Lang>)
    ensures r.Some? ==> LangCode(r.value) == s
    ensures r.None? <==> forall l :: LangCode(l) != s
  {
    if s == "en" then Some(En) else if s == "tr" then Some(Tr) else None
  }

  /** The local-storage key under which the chosen language is kept. */
  const LangStorageKey: string := "whalink_lang"

  // ---------------------------------------------------------------- key paths

  /** `path.split('.')`: the dot-free segments of `path`; there is always at least one. */
  function Split(s: string): (r: seq<string>)
    ensures |r| >= 1
    ensures forall i :: 0 <= i < |r| ==> '.' !in r[i]
    decreases |s|
  {
    if s == [] then [""]
    else
      var rest := Split(s[1..]);
      if s[0] == '.' then [""] + rest
      else [[s[0]] + rest[0]] + rest[1..]
  }

  /** `segments.join('.')`. */
  function Join(segments: seq<string>): string
    requires |segments| >= 1
    decreases |segments|
  {
    if |segments| == 1 then segments[0] else segments[0] + "." + Join(segments[1..])
  }

  /** Joining the segments of a path gives the path back. */
  lemma {:induction false} JoinSplit(s: string)
    ensures Join(Split(s)) == s
    decreases |s|
  {
    if s != [] {
      var rest := Split(s[1..]);
      JoinSplit(s[1..]);
      if s[0] == '.' {
        assert Split(s) == [""] + rest;
        assert ([""] + rest)[1..] == rest;
      } else {
        var r := Split(s);
        assert r == [[s[0]] + rest[0]] + rest[1..];
        if |rest| == 1 {
          assert r == [[s[0]] + rest[0]];
        } else {
          assert r[1..] == rest[1..];
          assert Join(rest) == rest[0] + "." + Join(rest[1..]);
        }
      }
    }
  }

  /** Splitting a join of dot-free segments gives the segments back. */
  lemma {:induction false} SplitJoin(segments: seq<string>)
    requires |segments| >= 1
    requires forall i :: 0 <= i < |segments| ==> '.' !in segments[i]
    ensures Split(Join(segments)) == segments
    decreases |segments|
  {
    if |segments| == 1 {
      SplitDotFree(segments[0]);
    } else {
      SplitJoin(segments[1..]);
      SplitAfterDot(segments[0], Join(segments[1..]));
      assert segments == [segments[0]] + segments[1..];
    }
  }

  lemma {:induction false} SplitDotFree(w: string)
    requires '.' !in w
    ensures Split(w) == [w]
    decreases |w|
  {
    if w != [] {
      assert '.' !in w[1..] by {
        forall i | 0 <= i < |w[1..]| ensures w[1..][i] != '.' { assert w[1..][i] == w[i + 1]; }
      }
      SplitDotFree(w[1..]);
      assert [w[0]] + w[1..] == w;
    }
  }

  lemma {:induction false} SplitAfterDot(w: string, rest: string)
    requires '.' !in w
    ensures Split(w + "." + rest) == [w] + Split(rest)
    decreases |w|
  {
    if w == [] {
      assert w + "." + rest == ['.'] + rest;
      assert (['.'] + rest)[1..] == rest;
    } else {
      assert '.' !in w[1..] by {
        forall i | 0 <= i < |w[1..]| ensures w[1..][i] != '.' { assert w[1..][i] == w[i + 1]; }
      }
      SplitAfterDot(w[1..], rest);
      var s := w + "." + rest;
      assert s[0] == w[0];
      assert s[1..] == w[1..] + "." + rest;
      assert [w[0]] + w[1..] == w;
    }
  }

  // ---------------------------------------------------------------- translation tables

  /** A translation table: string leaves and nested objects keyed by segment. */
  datatype Node = Leaf(text: string) | Branch(children: map<string, Node>)

  /** The table of each language. */
  datatype Translations = Translations(en: Node, tr: Node)

  function Table(tables: Translations, l: Lang): Node {
    match l
    case En => tables.en
    case Tr => tables.tr
  }

  /** `node[key]`, `None` standing for `undefined`; a leaf has no named properties. */
  function Child(n: Node, key: string): Option<Node> {
    if n.Branch? && key in n.children then Some(n.children[key]) else None
  }

  /** The node a key path names, if every segment is defined on the way down. */
  function Resolve(n: Node, keys: seq<string>): Option<Node>
    decreases keys
  {
    if keys == [] then Some(n)
    else match Child(n, keys[0])
      case None => None
      case Some(c) => Resolve(c, keys[1..])
  }

  /** JavaScript truthiness of a looked-up value: only the empty string is falsy; every object is truthy. */
  predicate Truthy(n: Node) {
    match n
    case Leaf(s) => s != ""
    case Branch(_) => true
  }

  /** The English fallback walk `for (k of keys) fallback = fallback?.[k]`, starting from `current`. */
  function FallbackWalk(current: Option<Node>, keys: seq<string>): (r: Option<Node>)
    ensures current.None? ==> r.None?
    ensures current.Some? ==> r == Resolve(current.value, keys)
    decreases |keys|
  {
    if keys == [] then current
    else
      var next := match current case None => None case Some(n) => Child(n, keys[0]);
      FallbackWalk(next, keys[1..])
  }

  /** What `t` answers once a segment is missing in the current language. */
  function Fallback(tables: Translations, keys: seq<string>, path: string): (r: Node)
    ensures Resolve(tables.en, keys).Some? && Truthy(Resolve(tables.en, keys).value) ==> r == Resolve(tables.en, keys).value
    ensures Resolve(tables.en, keys).None? || !Truthy(Resolve(tables.en, keys).value) ==> r == Leaf(path)
  {
    var fallback := FallbackWalk(Some(tables.en), keys);
    if fallback.Some? && Truthy(fallback.value) then fallback.value else Leaf(path)
  }

  /** The main loop of `t` from segment `i` on, with `current` the value reached so far. */
  function Walk(tables: Translations, keys: seq<string>, path: string, i: nat, current: Node): (r: Node)
    requires i <= |keys|
    ensures Resolve(current, keys[i..]).Some? ==> r == Resolve(current, keys[i..]).value
    ensures Resolve(current, keys[i..]).None? ==> r == Fallback(tables, keys, path)
    decreases |keys| - i
  {
    if i == |keys| then current
    else match Child(current, keys[i])
      case None => Fallback(tables, keys, path)
      case Some(next) =>
        assert keys[i..][1..] == keys[i + 1..];
        Walk(tables, keys, path, i + 1, next)
  }

  /** `t(path)`: the value at the dotted path in the current language's table (a string, or a
      whole sub-table when the path stops at an inner node); otherwise the English value when it
      exists and is truthy; otherwise the path itself. */
  function T(tables: Translations, lang: Lang, path: string): (r: Node)
    ensures Resolve(Table(tables, lang), Split(path)).Some? ==> r == Resolve(Table(tables, lang), Split(path)).value
    ensures (Resolve(Table(tables, lang), Split(path)).None? && Resolve(tables.en, Split(path)).Some? &&
             Truthy(Resolve(tables.en, Split(path)).value)) ==> r == Resolve(tables.en, Split(path)).value
    ensures (Resolve(Table(tables, lang), Split(path)).None? &&
             (Resolve(tables.en, Split(path)).None? || !Truthy(Resolve(tables.en, Split(path)).value))) ==> r == Leaf(path)
  {
    var keys := Split(path);
    assert keys[0..] == keys;
    Walk(tables, keys, path, 0, Table(tables, lang))
  }

  /** The pricing tier cards look up `pricing.tiers.<id>` and read fields of the sub-table they get. */
  lemma TierCardLookup(tables: Translations, lang: Lang, id: string, tier: map<string, Node>)
    requires '.' !in id
    requires Resolve(Table(tables, lang), ["pricing", "tiers", id]) == Some(Branch(tier))
    ensures T(tables, lang, "pricing.tiers." + id) == Branch(tier)
  {
    var segments := ["pricing", "tiers", id];
    assert Join(segments) == "pricing.tiers." + id by {
      assert Join(segments[2..]) == id;
      assert Join(segments[1..]) == "tiers" + "." + id;
    }
    SplitJoin(segments);
  }

  // ---------------------------------------------------------------- provider state

  /** The provider's current language and the browser's local storage. */
  datatype LanguageState = LanguageState(language: Lang, storage: map<string, string>)

  /** The state once the provider has mounted: 'en' by default, replaced by a persisted language
      when one is stored. The stored value is read, not written back. */
  function Mount(storage: map<string, string>): (r: LanguageState)
    ensures r.storage == storage
    ensures LangStorageKey !in storage ==> r.language == En
    ensures LangStorageKey in storage && ParseLang(storage[LangStorageKey]).Some? ==>
      r.language == ParseLang(storage[LangStorageKey]).value
    ensures LangStorageKey in storage && ParseLang(storage[LangStorageKey]).None? ==> r.language == En
  {
    if LangStorageKey in storage && ParseLang(storage[LangStorageKey]).Some? then
      LanguageState(ParseLang(storage[LangStorageKey]).value, storage)
    else LanguageState(En, storage)
  }

  /** `setLanguage` as exposed by the context: switches the language and persists it. */
  function SetLanguage(st: LanguageState, lang: Lang): (r: LanguageState)
    ensures r.language == lang
    ensures LangStorageKey in r.storage && r.storage[LangStorageKey] == LangCode(lang)
    ensures forall k :: k in st.storage && k != LangStorageKey ==> k in r.storage && r.storage[k] == st.storage[k]
    ensures forall k :: k in r.storage ==> k in st.storage || k == LangStorageKey
  {
    LanguageState(lang, st.storage[LangStorageKey := LangCode(lang)])
  }

  /** A chosen language survives a reload: mounting again on the persisted storage restores it. */
  lemma SetLanguageSurvivesReload(st: LanguageState, lang: Lang)
    ensures Mount(SetLanguage(st, lang).storage).language == lang
  {
  }
}
