/** The message loader's helpers of `src/i18n/request.ts`: the locale fallback and
    `deepMerge`, which lays the legal namespaces over the root messages. */
module I18nRequest {

  import opened Wrappers
  import opened Values
  import Browser

  /** `routing.locales.includes(locale)` with `routing.defaultLocale` for anything missing,
      empty or not configured. */
  function ResolveLocale(requested: Option<string>, locales: set<string>, defaultLocale: string): string {
    if Browser.IsSet(requested) && requested.value in locales then requested.value else defaultLocale
  }

  /** A source value `deepMerge` descends into: truthy, of `typeof` `'object'` and not an
      array. */
  predicate Descends(v: Value) {
    v.Obj? || v.Date?
  }

  /** The keys `for (const key in v)` visits: an object's own fields; a `Date` has none. */
  function SourceFields(v: Value): map<string, Value> {
    if v.Obj? then v.fields else map[]
  }

  /** `result[key] || {}` before `key` is assigned. */
  function Base(target: map<string, Value>, k: string): Value {
    if k in target && Truthy(target[k]) then target[k] else Obj(map[])
  }

  /** `deepMerge(target, source)`, with `target` the fields `{ ...target }` copies. */
  function DeepMerge(target: map<string, Value>, source: Value): map<string, Value>
    decreases source, 0
  {
    var f := SourceFields(source);
    map k | k in target.Keys + f.Keys :: if k in f then Entry(target, k, f[k]) else target[k]
  }

  /** What `deepMerge` assigns to `result[k]` for the source value `v`. */
  function Entry(target: map<string, Value>, k: string, v: Value): Value
    decreases v, 1
  {
    if Descends(v) then Obj(DeepMerge(Spread(Base(target, k)), v)) else v
  }

  /** What the loop assigns to each source key. */
  function Entries(target: map<string, Value>, f: map<string, Value>): map<string, Value> {
    map k | k in f :: Entry(target, k, f[k])
  }

  /** The result after the keys `done` have been assigned their values in `g`. */
  function Overlay(target: map<string, Value>, g: map<string, Value>, done: set<string>): map<string, Value>
    requires done <= g.Keys
  {
    map k | k in target.Keys + done :: if k in done then g[k] else target[k]
  }

  lemma OverlayStep(target: map<string, Value>, g: map<string, Value>, done: set<string>, k: string)
    requires done <= g.Keys && k in g && k !in done
    ensures Overlay(target, g, done)[k := g[k]] == Overlay(target, g, done + {k})
  {
  }

  lemma EntryBeforeAssigned(target: map<string, Value>, f: map<string, Value>, done: set<string>, k: string)
    requires done <= f.Keys && k in f && k !in done
    ensures Entry(Overlay(target, Entries(target, f), done), k, f[k]) == Entries(target, f)[k]
  {
    var r := Overlay(target, Entries(target, f), done);
    assert Base(r, k) == Base(target, k);
  }

  lemma OverlayEnds(target: map<string, Value>, source: Value)
    ensures Overlay(target, Entries(target, SourceFields(source)), {}) == target
    ensures Overlay(target, Entries(target, SourceFields(source)), SourceFields(source).Keys) == DeepMerge(target, source)
  {
  }

  /** `deepMerge` as the loop it is: copy the target, then assign each source key in
      turn. */
  method Merge(target: map<string, Value>, source: Value) returns (result: map<string, Value>)
    ensures result == DeepMerge(target, source)
    decreases source, 0
  {
    var f := SourceFields(source);
    ghost var g := Entries(target, f);
    result := target;
    var todo := f.Keys;
    ghost var done: set<string> := {};
    assert result == Overlay(target, g, done) by {
      OverlayEnds(target, source);
    }
    while todo != {}
      invariant done + todo == g.Keys && done !! todo
      invariant result == Overlay(target, g, done)
      decreases todo
    {
      var k :| k in todo;
      assert f[k] < source by {
        assert f[k] in source.fields.Values;
      }
      var e := MergeEntry(result, k, f[k]);
      assert e == g[k] by {
        EntryBeforeAssigned(target, f, done, k);
      }
      OverlayStep(target, g, done, k);
      result := result[k := e];
      done := done + {k};
      todo := todo - {k};
    }
    assert result == DeepMerge(target, source) by {
      OverlayEnds(target, source);
    }
  }

  /** One step of the loop: an object (or date) value is merged into `result[key] || {}`,
      anything else is assigned as it is. */
  method MergeEntry(result: map<string, Value>, k: string, v: Value) returns (e: Value)
    ensures e == Entry(result, k, v)
    decreases v, 1
  {
    if Descends(v) {
      var inner := Merge(Spread(Base(result, k)), v);
      e := Obj(inner);
    } else {
      e := v;
    }
  }

  /** The message loader's result: the root messages with each legal file that loaded
      merged over them, in the order the loads completed (`None` for a file that failed
      to load and is skipped). */
  function Messages(root: map<string, Value>, arrivals: seq<Option<Value>>): map<string, Value>
    decreases |arrivals|
  {
    if |arrivals| == 0 then root
    else Layer(Messages(root, arrivals[..|arrivals| - 1]), arrivals[|arrivals| - 1])
  }

  function Layer(messages: map<string, Value>, file: Option<Value>): map<string, Value> {
    match file
    case None => messages
    case Some(v) => DeepMerge(messages, v)
  }

  /** Everything `source` says is present in `r`: a plain value as it is, and an object
      (or date) value as an object that covers it in turn. */
  predicate Covers(r: map<string, Value>, source: Value)
    decreases source, 0
  {
    source.Obj? ==> forall k :: k in source.fields ==> k in r && CoversEntry(r[k], source.fields[k])
  }

  predicate CoversEntry(have: Value, v: Value)
    decreases v, 1
  {
    if Descends(v) then have.Obj? && Covers(have.fields, v) else have == v
  }

  // ---------------------------------------------------------------------------------
  // Properties

  /** The locale used is the requested one exactly when it is set and configured; with
      the default configured, it is always a configured locale and resolving it again
      changes nothing. */
  lemma ResolveLocaleChoice(requested: Option<string>, locales: set<string>, defaultLocale: string)
    ensures var r := ResolveLocale(requested, locales, defaultLocale);
      && (requested.Some? && requested.value != "" && requested.value in locales ==> r == requested.value)
      && (r != defaultLocale ==> requested == Some(r) && r in locales)
      && (defaultLocale in locales ==> r in locales && ResolveLocale(Some(r), locales, defaultLocale) == r)
  {
  }

  /** The merged keys are the target's and the source's; a target key the source lacks
      keeps its value, and a source value that is not an object (or date) replaces the
      target's. */
  lemma MergeKeys(target: map<string, Value>, source: Value)
    ensures var r := DeepMerge(target, source);
      && r.Keys == target.Keys + SourceFields(source).Keys
      && (forall k :: k in target && k !in SourceFields(source) ==> r[k] == target[k])
      && (forall k :: k in SourceFields(source) && !Descends(SourceFields(source)[k]) ==> r[k] == SourceFields(source)[k])
  {
  }

  lemma MergeAt(target: map<string, Value>, source: Value, k: string)
    ensures k in DeepMerge(target, source) <==> k in target || k in SourceFields(source)
    ensures k in SourceFields(source) ==> DeepMerge(target, source)[k] == Entry(target, k, SourceFields(source)[k])
    ensures k in target && k !in SourceFields(source) ==> DeepMerge(target, source)[k] == target[k]
  {
  }

  lemma EntrySameBase(t1: map<string, Value>, t2: map<string, Value>, k: string, v: Value)
    requires Base(t1, k) == Base(t2, k)
    ensures Entry(t1, k, v) == Entry(t2, k, v)
  {
  }

  /** Nothing to merge leaves the target as it is. */
  lemma MergeNothing(target: map<string, Value>, source: Value)
    requires SourceFields(source) == map[]
    ensures DeepMerge(target, source) == target
  {
  }

  /** A date is merged as an object without fields: the target's entry loses its date
      and keeps only what spreading it copies. */
  lemma DateBecomesObject(target: map<string, Value>, k: string, ms: int)
    ensures DeepMerge(target, Obj(map[k := Date(ms)]))[k] == Obj(Spread(Base(target, k)))
  {
    MergeNothing(Spread(Base(target, k)), Date(ms));
  }

  /** The merge result covers the source. */
  lemma {:induction false} MergeCovers(target: map<string, Value>, source: Value)
    ensures Covers(DeepMerge(target, source), source)
    decreases source, 0
  {
    if source.Obj? {
      forall k | k in source.fields
        ensures k in DeepMerge(target, source) && CoversEntry(DeepMerge(target, source)[k], source.fields[k])
      {
        assert source.fields[k] in source.fields.Values;
        EntryCovers(target, k, source.fields[k]);
      }
    }
  }

  lemma {:induction false} EntryCovers(target: map<string, Value>, k: string, v: Value)
    ensures CoversEntry(Entry(target, k, v), v)
    decreases v, 1
  {
    if Descends(v) {
      MergeCovers(Spread(Base(target, k)), v);
    }
  }

  /** Merging what is already covered changes nothing. */
  lemma {:induction false} CoveredUnchanged(r: map<string, Value>, source: Value)
    requires Covers(r, source)
    ensures DeepMerge(r, source) == r
    decreases source, 0
  {
    var m := DeepMerge(r, source);
    forall k | k in SourceFields(source)
      ensures m[k] == r[k]
    {
      assert source.fields[k] in source.fields.Values;
      EntryUnchanged(r, k, source.fields[k]);
    }
    assert m.Keys == r.Keys;
  }

  lemma {:induction false} EntryUnchanged(r: map<string, Value>, k: string, v: Value)
    requires k in r && CoversEntry(r[k], v)
    ensures Entry(r, k, v) == r[k]
    decreases v, 1
  {
    if Descends(v) {
      assert Base(r, k) == r[k];
      CoveredUnchanged(r[k].fields, v);
    }
  }

  /** Merging the same file twice is merging it once. */
  lemma MergeIdempotent(target: map<string, Value>, source: Value)
    ensures DeepMerge(DeepMerge(target, source), source) == DeepMerge(target, source)
  {
    MergeCovers(target, source);
    CoveredUnchanged(DeepMerge(target, source), source);
  }

  /** Two files with no top-level key in common can be merged in either order. */
  lemma MergeCommutes(target: map<string, Value>, a: Value, b: Value)
    requires SourceFields(a).Keys !! SourceFields(b).Keys
    ensures DeepMerge(DeepMerge(target, a), b) == DeepMerge(DeepMerge(target, b), a)
  {
    var ta, tb := DeepMerge(target, a), DeepMerge(target, b);
    var ab, ba := DeepMerge(ta, b), DeepMerge(tb, a);
    var fa, fb := SourceFields(a), SourceFields(b);
    forall k | k in ab
      ensures k in ba && ab[k] == ba[k]
    {
      MergeAt(target, a, k);
      MergeAt(target, b, k);
      MergeAt(ta, b, k);
      MergeAt(tb, a, k);
      if k in fa {
        EntrySameBase(tb, target, k, fa[k]);
      } else if k in fb {
        EntrySameBase(ta, target, k, fb[k]);
      }
    }
    assert ab.Keys == ba.Keys;
  }

  /** The top-level keys a loaded file contributes. */
  function FileKeys(file: Option<Value>): set<string> {
    match file
    case None => {}
    case Some(v) => SourceFields(v).Keys
  }

  lemma {:induction false} MessagesAppend(root: map<string, Value>, p: seq<Option<Value>>, q: seq<Option<Value>>)
    ensures Messages(root, p + q) == Messages(Messages(root, p), q)
    decreases |q|
  {
    if |q| == 0 {
      assert p + q == p;
    } else {
      assert (p + q)[..|p + q| - 1] == p + q[..|q| - 1];
      MessagesAppend(root, p, q[..|q| - 1]);
    }
  }

  lemma TwoLayers(m: map<string, Value>, x: Option<Value>, y: Option<Value>)
    ensures Messages(m, [x, y]) == Layer(Layer(m, x), y)
  {
    assert [x, y][..1] == [x] && [x][..0] == [];
    assert Messages(m, [x]) == Layer(m, x);
  }

  lemma LayersCommute(m: map<string, Value>, x: Option<Value>, y: Option<Value>)
    requires FileKeys(x) !! FileKeys(y)
    ensures Layer(Layer(m, x), y) == Layer(Layer(m, y), x)
  {
    if x.Some? && y.Some? {
      MergeCommutes(m, x.value, y.value);
    }
  }

  /** The completion order of two legal files without a shared top-level namespace does
      not matter: swapping them anywhere in the arrival order gives the same messages. */
  lemma ArrivalOrderIrrelevant(root: map<string, Value>, p: seq<Option<Value>>, x: Option<Value>, y: Option<Value>,
                               q: seq<Option<Value>>)
    requires FileKeys(x) !! FileKeys(y)
    ensures Messages(root, p + [x, y] + q) == Messages(root, p + [y, x] + q)
  {
    var m := Messages(root, p);
    calc {
      Messages(root, p + [x, y] + q);
      { MessagesAppend(root, p + [x, y], q); }
      Messages(Messages(root, p + [x, y]), q);
      { MessagesAppend(root, p, [x, y]); TwoLayers(m, x, y); }
      Messages(Layer(Layer(m, x), y), q);
      { LayersCommute(m, x, y); }
      Messages(Layer(Layer(m, y), x), q);
      { MessagesAppend(root, p, [y, x]); TwoLayers(m, y, x); }
      Messages(Messages(root, p + [y, x]), q);
      { MessagesAppend(root, p + [y, x], q); }
      Messages(root, p + [y, x] + q);
    }
  }
}
