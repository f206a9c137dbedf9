/**
  How every tool handler builds the URL it fetches: the backend base, the path
  template with each path argument spliced in as it is, and, when any optional
  argument is truthy, `?` and the URLSearchParams serialization of those
  arguments in the order the handler appends them.
*/
module RequestBuilder {
  import opened Wrappers
  import opened Registry
  import opened FormUrlEncoded
  import opened Decimal

  /** JavaScript truthiness of an argument value: a non-empty string, a non-zero number. */
  predicate Truthy(v: ArgValue) {
    match v
    case Str(s) => s != ""
    case Num(n) => n != 0
  }

  /** The handler's guard `if (key)`: an absent argument is `undefined`, hence falsy. */
  predicate Sends(args: Args, key: string) {
    key in args && Truthy(args[key])
  }

  /** How the handler writes an argument: a string as it is, a number by `toString()`. */
  function ArgText(v: ArgValue): string {
    match v
    case Str(s) => s
    case Num(n) => IntToString(n)
  }

  /** What `${name}` in a template literal writes; a missing argument reads `undefined`. */
  function Interpolate(args: Args, name: string): string {
    if name in args then ArgText(args[name]) else "undefined"
  }

  function SegmentText(seg: Segment, args: Args): string {
    match seg
    case Lit(text) => text
    case Param(name) => Interpolate(args, name)
  }

  /** The path template with its arguments spliced in, without any encoding. */
  function SplicePath(path: seq<Segment>, args: Args): string {
    if path == [] then "" else SplicePath(path[..|path| - 1], args) + SegmentText(path[|path| - 1], args)
  }

  /** The pairs the chain of guarded `params.append` calls leaves in the list. */
  function QueryPairs(keys: seq<string>, args: Args): seq<Pair> {
    if keys == [] then []
    else
      var last := keys[|keys| - 1];
      QueryPairs(keys[..|keys| - 1], args)
      + (if Sends(args, last) then [(last, ArgText(args[last]))] else [])
  }

  /** `if (params.toString()) url += `?${params.toString()}``. */
  function QuerySuffix(tool: ToolDef, args: Args): string {
    var query := Serialize(QueryPairs(tool.queryKeys, args));
    if query != "" then "?" + query else ""
  }

  /** The URL a tool handler passes to `fetch`. */
  function RequestUrl(tool: ToolDef, args: Args): string {
    Base + SplicePath(tool.path, args) + QuerySuffix(tool, args)
  }

  // ---------------------------------------------------------------------------
  // The handler's code, step by step

  /** The `URLSearchParams` object a handler creates and appends to. */
  class SearchParams {
    var list: seq<Pair>

    constructor ()
      ensures list == []
    {
      list := [];
    }

    method Append(name: string, value: string)
      modifies this
      ensures list == old(list) + [(name, value)]
    {
      list := list + [(name, value)];
    }

    /** `toString()`: the serialization, from which the parser recovers the list. */
    function ToString(): (s: string)
      reads this
      ensures Parse(s) == Some(list)
      ensures (s == "") == (list == [])
    {
      ParseSerialize(list);
      Serialize(list)
    }
  }

  /** The body shared by every tool handler, up to the `fetch` call. */
  method BuildUrl(tool: ToolDef, args: Args) returns (url: string)
    ensures url == RequestUrl(tool, args)
  {
    url := Base + SplicePath(tool.path, args);
    var params := new SearchParams();
    var i := 0;
    while i < |tool.queryKeys|
      invariant 0 <= i <= |tool.queryKeys|
      invariant params.list == QueryPairs(tool.queryKeys[..i], args)
    {
      var key := tool.queryKeys[i];
      assert tool.queryKeys[..i + 1][..i] == tool.queryKeys[..i];
      if key in args && Truthy(args[key]) {
        params.Append(key, ArgText(args[key]));
      }
      i := i + 1;
    }
    assert tool.queryKeys[..i] == tool.queryKeys;
    var query := params.ToString();
    if query != "" {
      url := url + "?" + query;
    }
  }

  // ---------------------------------------------------------------------------
  // The query string

  function IndexOf(s: seq<string>, x: string): (i: nat)
    requires x in s
    ensures i < |s| && s[i] == x && x !in s[..i]
  {
    if s[0] == x then 0 else 1 + IndexOf(s[1..], x)
  }

  lemma {:induction false} IndexOfPrefix(s: seq<string>, y: string, x: string)
    requires x in s
    ensures IndexOf(s + [y], x) == IndexOf(s, x)
  {
    if s[0] != x {
      assert (s + [y])[1..] == s[1..] + [y];
      IndexOfPrefix(s[1..], y, x);
    }
  }

  /** A pair is sent exactly when its key is one the handler appends, the argument
      is truthy, and the value is the argument's text. */
  lemma {:induction false} QueryPairsMember(keys: seq<string>, args: Args, p: Pair)
    ensures p in QueryPairs(keys, args) <==> p.0 in keys && Sends(args, p.0) && p.1 == ArgText(args[p.0])
  {
    if keys != [] {
      var init, last := keys[..|keys| - 1], keys[|keys| - 1];
      assert keys == init + [last];
      QueryPairsMember(init, args, p);
    }
  }

  /** An argument that is `0`, `""` or absent never reaches the query. */
  lemma FalsyArgumentDropped(keys: seq<string>, args: Args, key: string)
    requires !Sends(args, key)
    ensures forall p :: p in QueryPairs(keys, args) ==> p.0 != key
  {
    forall p | p in QueryPairs(keys, args) ensures p.0 != key {
      QueryPairsMember(keys, args, p);
    }
  }

  /** When no argument the handler appends is truthy, nothing is sent. */
  lemma QueryEmptyWhenNoneSent(keys: seq<string>, args: Args)
    requires forall k :: k in keys ==> !Sends(args, k)
    ensures QueryPairs(keys, args) == []
  {
    var ps := QueryPairs(keys, args);
    if ps != [] {
      QueryPairsMember(keys, args, ps[0]);
    }
  }

  /** When exactly one of the handler's keys is truthy, the query is that one pair. */
  lemma QuerySingleSent(keys: seq<string>, args: Args, k: string)
    requires Distinct(keys) && k in keys && Sends(args, k)
    requires forall k' :: k' in keys && k' != k ==> !Sends(args, k')
    ensures QueryPairs(keys, args) == [(k, ArgText(args[k]))]
  {
    var ps := QueryPairs(keys, args);
    var want := (k, ArgText(args[k]));
    QueryPairsMember(keys, args, want);
    forall i | 0 <= i < |ps| ensures ps[i] == want {
      QueryPairsMember(keys, args, ps[i]);
    }
    if |ps| > 1 {
      assert ps[0].0 == ps[1].0;
      QueryKeysUnique(keys, args);
      assert false;
    }
  }

  /** The pairs follow the order of the handler's keys, whatever the caller's
      argument order, so no key occurs twice. */
  lemma {:induction false} QueryPairsOrdered(keys: seq<string>, args: Args)
    requires Distinct(keys)
    ensures forall i :: 0 <= i < |QueryPairs(keys, args)| ==> QueryPairs(keys, args)[i].0 in keys
    ensures forall i, j :: 0 <= i < j < |QueryPairs(keys, args)| ==>
      IndexOf(keys, QueryPairs(keys, args)[i].0) < IndexOf(keys, QueryPairs(keys, args)[j].0)
  {
    if keys != [] {
      var init, last := keys[..|keys| - 1], keys[|keys| - 1];
      assert keys == init + [last];
      var before := QueryPairs(init, args);
      QueryPairsOrdered(init, args);
      var ps := QueryPairs(keys, args);
      assert ps[..|before|] == before;
      forall i | 0 <= i < |before| ensures ps[i].0 in init && IndexOf(keys, ps[i].0) == IndexOf(init, ps[i].0) {
        assert ps[i] == before[i];
        IndexOfPrefix(init, last, ps[i].0);
      }
      if |ps| > |before| {
        assert ps[|before|].0 == last;
        assert forall k :: 0 <= k < |init| ==> init[k] == keys[k] && keys[k] != keys[|keys| - 1];
        assert last !in init;
        assert IndexOf(keys, last) == |init|;
      }
    }
  }

  lemma QueryKeysUnique(keys: seq<string>, args: Args)
    requires Distinct(keys)
    ensures forall i, j :: 0 <= i < j < |QueryPairs(keys, args)| ==>
      QueryPairs(keys, args)[i].0 != QueryPairs(keys, args)[j].0
  {
    QueryPairsOrdered(keys, args);
  }

  /** At most one pair per key the handler appends, and one for each exactly when all are truthy. */
  lemma {:induction false} QueryPairsCount(keys: seq<string>, args: Args)
    ensures |QueryPairs(keys, args)| <= |keys|
    ensures |QueryPairs(keys, args)| == |keys| <==> forall i :: 0 <= i < |keys| ==> Sends(args, keys[i])
  {
    if keys != [] {
      var init, last := keys[..|keys| - 1], keys[|keys| - 1];
      QueryPairsCount(init, args);
      if !Sends(args, last) {
        assert !forall i :: 0 <= i < |keys| ==> Sends(args, keys[i]);
      }
      assert (forall i :: 0 <= i < |keys| ==> Sends(args, keys[i])) <==>
             (forall i :: 0 <= i < |init| ==> Sends(args, init[i])) && Sends(args, last) by {
        assert forall i :: 0 <= i < |init| ==> init[i] == keys[i];
      }
    }
  }

  /** Only the arguments named by the handler's keys affect the query. */
  lemma {:induction false} QueryPairsLocal(keys: seq<string>, args: Args, other: Args)
    requires forall k :: k in keys ==> (k in args) == (k in other)
    requires forall k :: k in keys && k in args ==> args[k] == other[k]
    ensures QueryPairs(keys, args) == QueryPairs(keys, other)
  {
    if keys != [] {
      var init := keys[..|keys| - 1];
      assert forall k :: k in init ==> k in keys;
      QueryPairsLocal(init, args, other);
    }
  }

  // ---------------------------------------------------------------------------
  // The URL

  /** `?` is added exactly when some pair is sent, and then followed by the serialized pairs. */
  lemma QuestionMarkRule(tool: ToolDef, args: Args)
    ensures var ps := QueryPairs(tool.queryKeys, args);
      && (RequestUrl(tool, args) == Base + SplicePath(tool.path, args) <==> ps == [])
      && (ps != [] ==> RequestUrl(tool, args) == Base + SplicePath(tool.path, args) + "?" + Serialize(ps))
  {
    var ps := QueryPairs(tool.queryKeys, args);
    if ps != [] {
      assert |RequestUrl(tool, args)| > |Base + SplicePath(tool.path, args)|;
    }
  }

  /** A tool whose schema has no optional field fetches the bare path. */
  lemma RequiredOnlyNoQuery(tool: ToolDef, args: Args)
    requires WellFormed(tool)
    requires forall i :: 0 <= i < |tool.inputSchema| ==> tool.inputSchema[i].required
    ensures RequestUrl(tool, args) == Base + SplicePath(tool.path, args)
  {
    OptionalNamesAfterRequired(tool.inputSchema, []);
    assert tool.inputSchema + [] == tool.inputSchema;
  }

  /** No more pairs than the schema declares optional fields. */
  lemma QueryBoundedBySchema(tool: ToolDef, args: Args)
    requires WellFormed(tool)
    ensures |QueryPairs(tool.queryKeys, args)| <= |OptionalNames(tool.inputSchema)|
  {
    QueryPairsCount(tool.queryKeys, args);
  }

  lemma SpliceSnoc(path: seq<Segment>, seg: Segment, args: Args)
    ensures SplicePath(path + [seg], args) == SplicePath(path, args) + SegmentText(seg, args)
  {
    var p := path + [seg];
    assert p[..|p| - 1] == path;
  }

  lemma {:induction false} SpliceAppend(a: seq<Segment>, b: seq<Segment>, args: Args)
    ensures SplicePath(a + b, args) == SplicePath(a, args) + SplicePath(b, args)
    decreases |b|
  {
    if b == [] {
      assert a + b == a;
    } else {
      var init, last := b[..|b| - 1], b[|b| - 1];
      var x, y, z := SplicePath(a, args), SplicePath(init, args), SegmentText(last, args);
      assert SplicePath(a + b, args) == SplicePath(a + init, args) + z by {
        assert a + b == (a + init) + [last];
        SpliceSnoc(a + init, last, args);
      }
      assert SplicePath(b, args) == y + z by {
        assert b == init + [last];
        SpliceSnoc(init, last, args);
      }
      SpliceAppend(a, init, args);
      assert (x + y) + z == x + (y + z);
    }
  }

  lemma SpliceAt(path: seq<Segment>, args: Args, i: nat)
    requires i < |path|
    ensures SplicePath(path, args) ==
      SplicePath(path[..i], args) + SegmentText(path[i], args) + SplicePath(path[i + 1..], args)
  {
    assert path == path[..i] + [path[i]] + path[i + 1..];
    SpliceAppend(path[..i] + [path[i]], path[i + 1..], args);
    SpliceAppend(path[..i], [path[i]], args);
    assert [path[i]][..0] == [];
  }

  /** A path argument appears in the URL as it is, right after the text before it. */
  lemma PathArgumentVerbatim(tool: ToolDef, args: Args, i: nat)
    requires i < |tool.path| && tool.path[i].Param?
    ensures var url, v := RequestUrl(tool, args), Interpolate(args, tool.path[i].name);
      var at := |Base| + |SplicePath(tool.path[..i], args)|;
      at + |v| <= |url| && url[at..at + |v|] == v
  {
    SpliceAt(tool.path, args, i);
    SliceMiddle(Base, SplicePath(tool.path[..i], args), Interpolate(args, tool.path[i].name),
      SplicePath(tool.path[i + 1..], args), QuerySuffix(tool, args));
  }

  lemma SliceMiddle(base: string, pre: string, v: string, post: string, rest: string)
    ensures |base| + |pre| + |v| <= |base + (pre + v + post) + rest|
    ensures (base + (pre + v + post) + rest)[|base| + |pre|..|base| + |pre| + |v|] == v
  {
    assert base + (pre + v + post) + rest == (base + pre) + v + (post + rest);
  }

  /** The arguments a handler receives once the schema has dropped the keys it
      does not declare. */
  function Strip(args: Args, names: seq<string>): (r: Args)
    ensures forall k :: k in r <==> k in args && k in names
    ensures forall k :: k in r ==> r[k] == args[k]
  {
    map k | k in args && k in names :: args[k]
  }

  /** Only the arguments named by the template's parameters affect the path. */
  lemma {:induction false} SpliceLocal(path: seq<Segment>, args: Args, other: Args)
    requires forall i :: 0 <= i < |path| && path[i].Param? ==> (path[i].name in args) == (path[i].name in other)
    requires forall i :: 0 <= i < |path| && path[i].Param? && path[i].name in args ==>
      args[path[i].name] == other[path[i].name]
    ensures SplicePath(path, args) == SplicePath(path, other)
  {
    if path != [] {
      SpliceLocal(path[..|path| - 1], args, other);
    }
  }

  /** Dropping the undeclared keys before the handler runs changes neither the
      path nor the query of a well-formed tool. */
  lemma StripKeepsUrl(tool: ToolDef, args: Args)
    requires WellFormed(tool)
    ensures RequestUrl(tool, Strip(args, FieldNames(tool.inputSchema))) == RequestUrl(tool, args)
  {
    var names := FieldNames(tool.inputSchema);
    var stripped := Strip(args, names);
    forall i | 0 <= i < |tool.path| && tool.path[i].Param? ensures tool.path[i].name in names {
      var j :| 0 <= j < |tool.inputSchema| && tool.inputSchema[j] == Field(tool.path[i].name, StringField, true);
      assert names[j] == tool.path[i].name;
    }
    SpliceLocal(tool.path, stripped, args);
    OptionalNamesDeclared(tool.inputSchema);
    QueryPairsLocal(tool.queryKeys, stripped, args);
  }

  /** The target and the query the backend reads: the fragment, from the first
      `#` on, is never sent, and the query runs from the first `?` before it. */
  function SplitTarget(url: string): (string, string) {
    var sent := SplitFirst(url, '#').0;
    SplitFirst(sent, '?')
  }

  /** A URL whose path arguments hold no `#` has no fragment: the base and the
      serialized query never contain one. */
  lemma NoFragment(tool: ToolDef, args: Args)
    requires '#' !in SplicePath(tool.path, args)
    ensures '#' !in RequestUrl(tool, args)
  {
    var q := Serialize(QueryPairs(tool.queryKeys, args));
    SerializedHasNoHash(QueryPairs(tool.queryKeys, args));
    assert '#' !in QuerySuffix(tool, args) by {
      if q != "" {
        Lacks(['?'], q, '#');
      }
    }
    assert '#' !in Base;
    Lacks(Base, SplicePath(tool.path, args), '#');
    Lacks(Base + SplicePath(tool.path, args), QuerySuffix(tool, args), '#');
  }

  lemma SerializedHasNoHash(ps: seq<Pair>)
    ensures '#' !in Serialize(ps)
  {
    var q := Serialize(ps);
    assert !IsQueryChar('#');
    forall k | 0 <= k < |q| ensures q[k] != '#' {
      assert IsQueryChar(q[k]);
    }
  }

  lemma Lacks(a: string, b: string, c: char)
    requires c !in a && c !in b
    ensures c !in a + b
  {
    forall k | 0 <= k < |a + b| ensures (a + b)[k] != c {
      if k < |a| {
        assert (a + b)[k] == a[k];
      } else {
        assert (a + b)[k] == b[k - |a|];
      }
    }
  }

  /** When no path argument contains `?` or `#`, the backend reads the path the
      template gives and parses exactly the sent pairs back from the query. */
  lemma BackendReadsQuery(tool: ToolDef, args: Args)
    requires '?' !in SplicePath(tool.path, args) && '#' !in SplicePath(tool.path, args)
    ensures SplitTarget(RequestUrl(tool, args)) ==
      (Base + SplicePath(tool.path, args), Serialize(QueryPairs(tool.queryKeys, args)))
    ensures Parse(SplitTarget(RequestUrl(tool, args)).1) == Some(QueryPairs(tool.queryKeys, args))
  {
    var ps := QueryPairs(tool.queryKeys, args);
    NoFragment(tool, args);
    SplitFirstWithout(RequestUrl(tool, args), '#');
    BaseHasNoQuestionMark(SplicePath(tool.path, args));
    SplitAtQuery(Base + SplicePath(tool.path, args), Serialize(ps));
    ParseSerialize(ps);
  }

  lemma BaseHasNoQuestionMark(path: string)
    requires '?' !in path
    ensures '?' !in Base + path
  {
    assert forall k :: 0 <= k < |Base| ==> Base[k] != '?';
    forall k | |Base| <= k < |Base + path| ensures (Base + path)[k] != '?' {
      assert (Base + path)[k] == path[k - |Base|];
    }
  }

  lemma SplitAtQuery(target: string, query: string)
    requires '?' !in target
    ensures SplitFirst(target + (if query != "" then "?" + query else ""), '?') == (target, query)
  {
    if query == "" {
      assert target + "" == target;
      SplitFirstWithout(target, '?');
    } else {
      assert target + ("?" + query) == target + ['?'] + query;
      SplitFirstAt(target, '?', query);
    }
  }

  lemma {:induction false} SplitFirstWithout(s: string, sep: char)
    requires sep !in s
    ensures SplitFirst(s, sep) == (s, "")
  {
    if s != [] {
      SplitFirstWithout(s[1..], sep);
      assert [s[0]] + s[1..] == s;
    }
  }

  /** A numeric argument sent in the query reads back as the same number. */
  lemma NumericArgumentRoundTrip(tool: ToolDef, args: Args, key: string)
    requires '?' !in SplicePath(tool.path, args) && '#' !in SplicePath(tool.path, args)
    requires key in tool.queryKeys && key in args && args[key].Num? && args[key].n != 0
    ensures var sent := Parse(SplitTarget(RequestUrl(tool, args)).1);
      sent.Some? && (key, IntToString(args[key].n)) in sent.value
      && IntValue(IntToString(args[key].n)) == Some(args[key].n)
  {
    BackendReadsQuery(tool, args);
    QueryPairsMember(tool.queryKeys, args, (key, IntToString(args[key].n)));
    IntToStringRoundTrip(args[key].n);
  }
}
