/**
 * buildInlineStyle.ts and buildTransformStyle.ts: a list of properties, some
 * undefined, rendered as the text of a `style` attribute ("p: v; q: w") or
 * of a `transform` value ("p(v) q(w)"). Both accept a `Map`, an array of
 * pairs or a plain object.
 */
module InlineStyle {
  import opened Wrappers
  import opened Text
  import opened JsMaps

  /** A property with its value; an undefined value is None. */
  type Entry = (string, Option<string>)

  /** The three shapes the builders accept. */
  datatype StyleSource =
    | FromMap(entries: JsMap<Option<string>>)
    | FromPairs(pairs: seq<Entry>)
    | FromObject(fields: JsMap<Option<string>>)

  /** Which builder: declarations joined by "; ", or transform functions joined by " ". */
  datatype Format = Declaration | TransformFunction

  ghost predicate ValidSource(src: StyleSource) {
    match src
    case FromMap(m) => Valid(m)
    case FromPairs(_) => true
    case FromObject(o) => Valid(o)
  }

  /** `Array.from(m.entries())`, the array itself, or `Object.entries(o)`. */
  function EntriesOf(src: StyleSource): (r: seq<Entry>)
    requires ValidSource(src)
    ensures src.FromPairs? ==> r == src.pairs
  {
    match src
    case FromMap(m) => Entries(m)
    case FromPairs(pairs) => pairs
    case FromObject(o) => Entries(o)
  }

  /** `.filter((entry) => entry?.[1] !== undefined)`, order kept. */
  function Defined(entries: seq<Entry>): (r: seq<(string, string)>)
    ensures |r| <= |entries|
    ensures (forall i :: 0 <= i < |entries| ==> entries[i].1.None?) ==> r == []
    ensures (forall i :: 0 <= i < |entries| ==> entries[i].1.Some?) ==> |r| == |entries|
  {
    if entries == [] then []
    else
      var head := entries[0];
      (if head.1.Some? then [(head.0, head.1.value)] else []) + Defined(entries[1..])
  }

  function Render(f: Format, property: string, value: string): (s: string)
    ensures |s| > |property|
  {
    match f
    case Declaration => property + ": " + value
    case TransformFunction => property + "(" + value + ")"
  }

  function Separator(f: Format): string {
    match f
    case Declaration => "; "
    case TransformFunction => " "
  }

  /** `.map(([property, value]) => ...)`. */
  function Renders(f: Format, ds: seq<(string, string)>): (r: seq<string>)
    ensures |r| == |ds|
    ensures forall i :: 0 <= i < |ds| ==> r[i] == Render(f, ds[i].0, ds[i].1)
  {
    if ds == [] then [] else [Render(f, ds[0].0, ds[0].1)] + Renders(f, ds[1..])
  }

  /**
   * The kept entries rendered and joined: empty exactly when nothing is
   * kept, and starting with the first kept entry otherwise.
   */
  function Build(f: Format, src: StyleSource): (r: string)
    requires ValidSource(src)
    ensures var ds := Defined(EntriesOf(src));
      && (r == "" <==> ds == [])
      && (ds != [] ==> Render(f, ds[0].0, ds[0].1) <= r)
  {
    var parts := Renders(f, Defined(EntriesOf(src)));
    JoinEmpty(parts, Separator(f));
    if parts != [] then JoinStartsWithFirst(parts, Separator(f)); Join(parts, Separator(f))
    else Join(parts, Separator(f))
  }

  /**
   * `buildInlineStyle`: "" when every value is undefined; otherwise the
   * first defined entry comes first, as `property: value`.
   */
  function BuildInlineStyle(src: StyleSource): (r: string)
    requires ValidSource(src)
    ensures var ds := Defined(EntriesOf(src));
      && (r == "" <==> ds == [])
      && (ds != [] ==> ds[0].0 + ": " + ds[0].1 <= r)
  {
    Build(Declaration, src)
  }

  /**
   * `buildTransformStyle`: "" when every value is undefined; otherwise the
   * first defined entry comes first, as `property(value)`.
   */
  function BuildTransformStyle(src: StyleSource): (r: string)
    requires ValidSource(src)
    ensures var ds := Defined(EntriesOf(src));
      && (r == "" <==> ds == [])
      && (ds != [] ==> ds[0].0 + "(" + ds[0].1 + ")" <= r)
  {
    Build(TransformFunction, src)
  }

  /** Two non-empty texts with one separator between them; an empty one adds nothing. */
  function Concat(x: string, y: string, sep: string): string {
    if x == "" then y else if y == "" then x else x + sep + y
  }

  lemma {:induction false} DefinedAppend(a: seq<Entry>, b: seq<Entry>)
    ensures Defined(a + b) == Defined(a) + Defined(b)
  {
    if a != [] {
      assert (a + b)[0] == a[0];
      assert (a + b)[1..] == a[1..] + b;
      DefinedAppend(a[1..], b);
    } else {
      assert a + b == b;
    }
  }

  lemma {:induction false} RendersAppend(f: Format, a: seq<(string, string)>, b: seq<(string, string)>)
    ensures Renders(f, a + b) == Renders(f, a) + Renders(f, b)
  {
    if a != [] {
      assert (a + b)[1..] == a[1..] + b;
      RendersAppend(f, a[1..], b);
    } else {
      assert a + b == b;
    }
  }

  /** A join of non-empty parts is empty exactly when there are no parts. */
  lemma JoinEmpty(parts: seq<string>, sep: string)
    requires forall i :: 0 <= i < |parts| ==> parts[i] != ""
    ensures Join(parts, sep) == "" <==> parts == []
  {
    if |parts| > 1 {
      assert Join(parts, sep) == parts[0] + sep + Join(parts[1..], sep);
      assert |Join(parts, sep)| >= |parts[0]|;
    }
  }

  /** The style of `a` followed by `b` is the style of `a` and the style of `b`, one separator apart. */
  lemma BuildAppend(f: Format, a: seq<Entry>, b: seq<Entry>)
    ensures Build(f, FromPairs(a + b)) == Concat(Build(f, FromPairs(a)), Build(f, FromPairs(b)), Separator(f))
  {
    var ra := Renders(f, Defined(a));
    var rb := Renders(f, Defined(b));
    DefinedAppend(a, b);
    RendersAppend(f, Defined(a), Defined(b));
    JoinEmpty(ra, Separator(f));
    JoinEmpty(rb, Separator(f));
    if ra == [] {
      assert ra + rb == rb;
    } else if rb == [] {
      assert ra + rb == ra;
    } else {
      JoinAppend(ra, rb, Separator(f));
    }
  }

  /** An undefined property is left out, wherever it stands. */
  lemma UndefinedDropped(f: Format, a: seq<Entry>, property: string, b: seq<Entry>)
    ensures Build(f, FromPairs(a + [(property, None)] + b)) == Build(f, FromPairs(a + b))
  {
    DefinedAppend(a + [(property, None)], b);
    DefinedAppend(a, [(property, None)]);
    DefinedAppend(a, b);
    assert Defined([(property, None)]) == [];
    assert Defined(a) + [] == Defined(a);
  }

  /** The style is empty exactly when every property is undefined. */
  lemma EmptyIffAllUndefined(f: Format, entries: seq<Entry>)
    ensures Build(f, FromPairs(entries)) == "" <==> forall i :: 0 <= i < |entries| ==> entries[i].1.None?
  {
    if exists i :: 0 <= i < |entries| && entries[i].1.Some? {
      var i :| 0 <= i < |entries| && entries[i].1.Some?;
      assert entries == entries[..i] + [entries[i]] + entries[i + 1..];
      DefinedAppend(entries[..i] + [entries[i]], entries[i + 1..]);
      DefinedAppend(entries[..i], [entries[i]]);
      assert |Defined([entries[i]])| == 1;
    }
  }

  /** One defined property renders as a single declaration. */
  lemma SingleDeclaration(property: string, value: string)
    ensures BuildInlineStyle(FromPairs([(property, Some(value))])) == property + ": " + value
  {
    assert Defined([(property, Some(value))]) == [(property, value)];
  }

  /** One defined transform renders as a single function call. */
  lemma SingleTransform(property: string, value: string)
    ensures BuildTransformStyle(FromPairs([(property, Some(value))])) == property + "(" + value + ")"
  {
    assert Defined([(property, Some(value))]) == [(property, value)];
  }

  /** `new Map(pairs)`: later pairs overwrite earlier ones, a key keeps its first place. */
  function MapOf(pairs: seq<Entry>): (m: JsMap<Option<string>>)
    ensures Valid(m)
    decreases |pairs|
  {
    if pairs == [] then Empty()
    else Set(MapOf(pairs[..|pairs| - 1]), pairs[|pairs| - 1].0, pairs[|pairs| - 1].1)
  }

  ghost predicate DistinctProperties(pairs: seq<Entry>) {
    forall i, j :: 0 <= i < j < |pairs| ==> pairs[i].0 != pairs[j].0
  }

  /** The property names of `pairs`, in order. */
  function Properties(pairs: seq<Entry>): (r: seq<string>)
    ensures |r| == |pairs|
    ensures forall i :: 0 <= i < |pairs| ==> r[i] == pairs[i].0
  {
    seq(|pairs|, i requires 0 <= i < |pairs| => pairs[i].0)
  }

  /** With no property repeated, the map's key order is the order of the pairs. */
  lemma {:induction false} MapOfKeys(pairs: seq<Entry>)
    requires DistinctProperties(pairs)
    ensures MapOf(pairs).keys == Properties(pairs)
    decreases |pairs|
  {
    if pairs != [] {
      var init := pairs[..|pairs| - 1];
      var last := pairs[|pairs| - 1];
      MapOfKeys(init);
      assert last.0 !in Properties(init) by {
        forall i | 0 <= i < |init| ensures Properties(init)[i] != last.0 {
          assert pairs[i].0 != pairs[|pairs| - 1].0;
        }
      }
      assert Properties(pairs) == Properties(init) + [last.0];
    }
  }

  /** With no property repeated, every pair's value is stored under its property. */
  lemma {:induction false} MapOfValues(pairs: seq<Entry>)
    requires DistinctProperties(pairs)
    ensures forall i :: 0 <= i < |pairs| ==> pairs[i].0 in MapOf(pairs).values && MapOf(pairs).values[pairs[i].0] == pairs[i].1
    decreases |pairs|
  {
    if pairs != [] {
      var init := pairs[..|pairs| - 1];
      var last := pairs[|pairs| - 1];
      assert DistinctProperties(init);
      MapOfValues(init);
      var values := MapOf(pairs).values;
      assert values == MapOf(init).values[last.0 := last.1];
      forall i | 0 <= i < |pairs| ensures pairs[i].0 in values && values[pairs[i].0] == pairs[i].1 {
        if i < |init| {
          assert pairs[i] == init[i];
          assert pairs[i].0 != last.0;
        }
      }
    }
  }

  /** With no property repeated, the map lists the pairs exactly as given. */
  lemma MapOfEntries(pairs: seq<Entry>)
    requires DistinctProperties(pairs)
    ensures Entries(MapOf(pairs)) == pairs
  {
    MapOfKeys(pairs);
    MapOfValues(pairs);
  }

  /** A `Map` built from distinct properties renders exactly as the array of pairs. */
  lemma MapMatchesPairs(f: Format, pairs: seq<Entry>)
    requires DistinctProperties(pairs)
    ensures Build(f, FromMap(MapOf(pairs))) == Build(f, FromPairs(pairs))
  {
    MapOfEntries(pairs);
  }

  /** `.filter((f) => f)` on a list of optional strings: undefined and empty entries go. */
  function Truthy(parts: seq<Option<string>>): (r: seq<string>)
    ensures |r| <= |parts|
    ensures forall i :: 0 <= i < |r| ==> r[i] != ""
  {
    if parts == [] then []
    else (if parts[0].Some? && parts[0].value != "" then [parts[0].value] else []) + Truthy(parts[1..])
  }

  /** Filtering changes nothing when every part is a non-empty string. */
  lemma {:induction false} TruthyPresent(xs: seq<Option<string>>)
    requires forall i :: 0 <= i < |xs| ==> xs[i].Some? && xs[i].value != ""
    ensures Truthy(xs) == seq(|xs|, i requires 0 <= i < |xs| => xs[i].value)
  {
    if xs != [] {
      TruthyPresent(xs[1..]);
    }
  }

  /** `p: v` when `v` is defined. */
  function Declare(property: string, value: Option<string>): Option<string> {
    if value.Some? then Some(property + ": " + value.value) else None
  }

  /** The declarations of `entries`, each present only when its value is. */
  function Declarations(entries: seq<Entry>): (r: seq<Option<string>>)
    ensures |r| == |entries|
    ensures forall i :: 0 <= i < |entries| ==> r[i] == Declare(entries[i].0, entries[i].1)
  {
    if entries == [] then [] else [Declare(entries[0].0, entries[0].1)] + Declarations(entries[1..])
  }

  /**
   * The hand-written form `[c && "p: v", ...].filter((f) => f).join("; ")`
   * builds the same text as `buildInlineStyle` of the pairs.
   */
  lemma {:induction false} TruthyMatchesInlineStyle(entries: seq<Entry>)
    ensures Truthy(Declarations(entries)) == Renders(Declaration, Defined(entries))
    ensures Join(Truthy(Declarations(entries)), "; ") == BuildInlineStyle(FromPairs(entries))
  {
    if entries != [] {
      TruthyMatchesInlineStyle(entries[1..]);
      assert Declarations(entries)[1..] == Declarations(entries[1..]);
      var head := entries[0];
      if head.1.Some? {
        assert Renders(Declaration, [(head.0, head.1.value)] + Defined(entries[1..]))
          == [Render(Declaration, head.0, head.1.value)] + Renders(Declaration, Defined(entries[1..]));
      } else {
        assert Defined(entries) == Defined(entries[1..]);
      }
    }
  }
}
