/**
 * Configuration: layered YAML documents merged key by key, dotted-path
 * lookup, and `${NAME}` substitution from the process environment. Reading
 * and parsing a file is an oracle (`files` maps a file name to its parsed
 * document, or to nothing when the file is missing or unreadable), and the
 * environment is a map parameter.
 */
module Config {
  import opened Values

  // ---------------------------------------------------------------------------
  // _deep_merge

  /**
   * The deep merge of two mappings: every key of either; a key only in the
   * base keeps its value; a key in both whose values are both mappings gets
   * their merge; otherwise the override's value.
   */
  function MergeDicts(base: map<string, Value>, over: map<string, Value>): (r: map<string, Value>)
    ensures r.Keys == base.Keys + over.Keys
    decreases Dict(over)
  {
    map k | k in base.Keys + over.Keys ::
      if k !in over then base[k]
      else if k in base && base[k].Dict? && over[k].Dict? then Dict(MergeDicts(base[k].fields, over[k].fields))
      else over[k]
  }

  /** The text of the AttributeError raised by `v.<attr>` on a value without that method. */
  function AttrError(v: Value, attr: string): string
  {
    "'" + TypeName(v) + "' object has no attribute '" + attr + "'"
  }

  /** The text of the TypeError raised by indexing a list with a string. */
  const ListIndexError := "list indices must be integers or slices, not str"

  /**
   * `_deep_merge(base, override)` on arbitrary documents: `base.copy()` needs
   * a mapping or a list, `override.items()` needs a mapping, and a list base
   * survives only an empty override (indexing it by a key raises).
   */
  function MergeResult(base: Value, over: Value): Try<Value>
  {
    if !base.Dict? && !base.List? then Raised(AttrError(base, "copy"))
    else if !over.Dict? then Raised(AttrError(over, "items"))
    else if base.List? then (if over.fields == map[] then Returned(base) else Raised(ListIndexError))
    else Returned(Dict(MergeDicts(base.fields, over.fields)))
  }

  /**
   * The merge loop's state: the keys still to do are override keys; those
   * done hold their merged entry, and the others their base entry.
   */
  ghost predicate MergeProgress(base: map<string, Value>, over: map<string, Value>, todo: set<string>,
    result: map<string, Value>)
  {
    && todo <= over.Keys
    && result.Keys == base.Keys + (over.Keys - todo)
    && forall k :: k in result ==> result[k] == if k in over && k !in todo then MergeDicts(base, over)[k] else base[k]
  }

  lemma MergeProgressStep(base: map<string, Value>, over: map<string, Value>, todo: set<string>,
    result: map<string, Value>, key: string, entry: Value)
    requires MergeProgress(base, over, todo, result) && key in todo
    requires key in result && result[key].Dict? && over[key].Dict? ==>
      entry == Dict(MergeDicts(result[key].fields, over[key].fields))
    requires !(key in result && result[key].Dict? && over[key].Dict?) ==> entry == over[key]
    ensures MergeProgress(base, over, todo - {key}, result[key := entry])
  {
    MergeEntries(base, over, key);
  }

  lemma MergeProgressDone(base: map<string, Value>, over: map<string, Value>, result: map<string, Value>)
    requires MergeProgress(base, over, {}, result)
    ensures result == MergeDicts(base, over)
  {
  }

  /**
   * `_deep_merge`: copies the base, then assigns each override key in turn,
   * merging recursively where both sides hold a mapping.
   */
  method DeepMerge(base: Value, over: Value) returns (r: Try<Value>)
    ensures r == MergeResult(base, over)
    decreases over
  {
    if !base.Dict? && !base.List? {
      return Raised(AttrError(base, "copy"));
    }
    if !over.Dict? {
      return Raised(AttrError(over, "items"));
    }
    if base.List? {
      if over.fields == map[] {
        return Returned(base);
      }
      return Raised(ListIndexError);
    }
    var result := base.fields;
    var todo := over.fields.Keys;
    while todo != {}
      invariant MergeProgress(base.fields, over.fields, todo, result)
      decreases |todo|
    {
      var key :| key in todo;
      var value := over.fields[key];
      var entry;
      if key in result && result[key].Dict? && value.Dict? {
        var sub := DeepMerge(result[key], value);
        entry := sub.value;
      } else {
        entry := value;
      }
      MergeProgressStep(base.fields, over.fields, todo, result, key, entry);
      result := result[key := entry];
      todo := todo - {key};
    }
    MergeProgressDone(base.fields, over.fields, result);
    return Returned(Dict(result));
  }

  /** The three kinds of entry of a merge: base-only kept, both-mappings merged, otherwise override. */
  lemma MergeEntries(base: map<string, Value>, over: map<string, Value>, k: string)
    requires k in base.Keys + over.Keys
    ensures k !in over ==> MergeDicts(base, over)[k] == base[k]
    ensures k in over && k in base && base[k].Dict? && over[k].Dict? ==>
      MergeDicts(base, over)[k] == Dict(MergeDicts(base[k].fields, over[k].fields))
    ensures k in over && !(k in base && base[k].Dict? && over[k].Dict?) ==> MergeDicts(base, over)[k] == over[k]
  {
  }

  /** Merging an empty override gives the base, and merging into an empty base gives the override. */
  lemma MergeIdentities(base: map<string, Value>, over: map<string, Value>)
    ensures MergeDicts(base, map[]) == base
    ensures MergeDicts(map[], over) == over
  {
  }

  /** Merging a document with itself gives it back. */
  lemma {:induction false} MergeIdempotent(d: map<string, Value>)
    ensures MergeDicts(d, d) == d
    decreases Dict(d)
  {
    forall k | k in d && d[k].Dict?
      ensures MergeDicts(d[k].fields, d[k].fields) == d[k].fields
    {
      MergeIdempotent(d[k].fields);
    }
  }

  /** Applying the same override layer a second time changes nothing. */
  lemma {:induction false} MergeAbsorbs(base: map<string, Value>, over: map<string, Value>)
    ensures MergeDicts(MergeDicts(base, over), over) == MergeDicts(base, over)
    decreases Dict(over)
  {
    var once := MergeDicts(base, over);
    forall k | k in over && once[k].Dict? && over[k].Dict?
      ensures MergeDicts(once[k].fields, over[k].fields) == once[k].fields
    {
      if k in base && base[k].Dict? {
        MergeAbsorbs(base[k].fields, over[k].fields);
      } else {
        MergeIdempotent(over[k].fields);
      }
    }
  }

  // ---------------------------------------------------------------------------
  // Dotted paths and `get`

  /** The index of the first `c` in `s`. */
  function IndexOf(s: string, c: char): (i: nat)
    requires c in s
    ensures i < |s| && s[i] == c && c !in s[..i]
  {
    if s[0] == c then 0
    else
      assert s[1..][IndexOf(s[1..], c)] == c;
      assert s[..IndexOf(s[1..], c) + 1] == [s[0]] + s[1..][..IndexOf(s[1..], c)];
      IndexOf(s[1..], c) + 1
  }

  /** `s.split(sep)`: the pieces between separators, at least one. */
  function Split(s: string, sep: char): (r: seq<string>)
    ensures |r| >= 1
    ensures forall k :: 0 <= k < |r| ==> sep !in r[k]
    decreases |s|
  {
    if sep !in s then [s]
    else
      var i := IndexOf(s, sep);
      [s[..i]] + Split(s[i + 1..], sep)
  }

  /** `sep.join(parts)`. */
  function Join(parts: seq<string>, sep: char): string
    requires |parts| >= 1
  {
    if |parts| == 1 then parts[0] else parts[0] + [sep] + Join(parts[1..], sep)
  }

  /** Joining the pieces of a split gives the string back. */
  lemma {:induction false} JoinSplit(s: string, sep: char)
    ensures Join(Split(s, sep), sep) == s
    decreases |s|
  {
    if sep in s {
      var i := IndexOf(s, sep);
      var parts := Split(s, sep);
      assert parts == [s[..i]] + Split(s[i + 1..], sep);
      assert parts[1..] == Split(s[i + 1..], sep);
      assert Join(parts, sep) == s[..i] + [sep] + Join(parts[1..], sep);
      JoinSplit(s[i + 1..], sep);
      assert s == s[..i] + [sep] + s[i + 1..];
    }
  }

  /** A piece without the separator, then the separator, splits off exactly that piece. */
  lemma SplitAtFirst(head: string, sep: char, tail: string)
    requires sep !in head
    ensures Split(head + [sep] + tail, sep) == [head] + Split(tail, sep)
  {
    var s := head + [sep] + tail;
    assert s[|head|] == sep;
    var i := IndexOf(s, sep);
    assert s[..i] == head;
    assert s[i + 1..] == tail;
  }

  /** Splitting a join of separator-free pieces gives the pieces back. */
  lemma {:induction false} SplitJoin(parts: seq<string>, sep: char)
    requires |parts| >= 1 && forall k :: 0 <= k < |parts| ==> sep !in parts[k]
    ensures Split(Join(parts, sep), sep) == parts
  {
    if |parts| == 1 {
    } else {
      SplitJoin(parts[1..], sep);
      SplitAtFirst(parts[0], sep, Join(parts[1..], sep));
    }
  }

  /**
   * The walk of `get` along a path: each step needs a mapping that holds the
   * key with a value other than None.
   */
  function Walk(v: Value, keys: seq<string>): Option<Value>
  {
    if keys == [] then Some(v)
    else if v.Dict? && keys[0] in v.fields && v.fields[keys[0]] != Null then Walk(v.fields[keys[0]], keys[1..])
    else None
  }

  /** What `get` answers: the value the walk reaches, or the default. */
  function Lookup(v: Value, keys: seq<string>, default: Value): Value
  {
    match Walk(v, keys)
    case Some(w) => w
    case None => default
  }

  /** A walk along a longer path continues from where the shorter one stopped. */
  lemma {:induction false} WalkAppend(v: Value, p: seq<string>, q: seq<string>)
    ensures Walk(v, p + q) == match Walk(v, p) case None => None case Some(w) => Walk(w, q)
  {
    if p == [] {
      assert p + q == q;
    } else {
      assert (p + q)[0] == p[0];
      assert (p + q)[1..] == p[1..] + q;
      if v.Dict? && p[0] in v.fields && v.fields[p[0]] != Null {
        WalkAppend(v.fields[p[0]], p[1..], q);
      }
    }
  }

  /**
   * One step of `get`: the default when the value is not a mapping, the key
   * is missing or holds None; any other value, falsy ones included, as is.
   */
  lemma LookupStep(v: Value, key: string, default: Value)
    ensures !v.Dict? ==> Lookup(v, [key], default) == default
    ensures v.Dict? && key !in v.fields ==> Lookup(v, [key], default) == default
    ensures v.Dict? && key in v.fields && v.fields[key] == Null ==> Lookup(v, [key], default) == default
    ensures v.Dict? && key in v.fields && v.fields[key] != Null ==> Lookup(v, [key], default) == v.fields[key]
  {
    if v.Dict? && key in v.fields && v.fields[key] != Null {
      assert [key][1..] == [];
      assert Walk(v.fields[key], []) == Some(v.fields[key]);
    }
  }

  /** A value that is not a mapping, reached along a path of the override, wins in the merge. */
  lemma {:induction false} OverrideWinsAlongPath(base: map<string, Value>, over: map<string, Value>, path: seq<string>, x: Value)
    requires Walk(Dict(over), path) == Some(x) && !x.Dict?
    ensures Walk(Dict(MergeDicts(base, over)), path) == Some(x)
    decreases |path|
  {
    assert path != [];
    var k := path[0];
    var merged := MergeDicts(base, over);
    if k in base && base[k].Dict? && over[k].Dict? {
      assert merged[k] == Dict(MergeDicts(base[k].fields, over[k].fields));
      OverrideWinsAlongPath(base[k].fields, over[k].fields, path[1..], x);
    } else {
      assert merged[k] == over[k];
    }
  }

  /** A path whose first key the override lacks reads the same in the merge as in the base. */
  lemma BaseShowsThroughGaps(base: map<string, Value>, over: map<string, Value>, path: seq<string>)
    requires path != [] && path[0] !in over
    ensures Walk(Dict(MergeDicts(base, over)), path) == Walk(Dict(base), path)
  {
    if path[0] in base {
      assert MergeDicts(base, over)[path[0]] == base[path[0]];
    }
  }

  // ---------------------------------------------------------------------------
  // ${NAME} substitution

  /** The first `}` at or after `from`. */
  function CloseAt(s: string, from: nat): (r: Option<nat>)
    ensures r.Some? ==> from <= r.value < |s| && s[r.value] == '}'
    ensures r.Some? ==> forall m :: from <= m < r.value ==> s[m] != '}'
    ensures r.None? ==> forall m :: from <= m < |s| ==> s[m] != '}'
    decreases |s| - from
  {
    if from >= |s| then None
    else if s[from] == '}' then Some(from)
    else CloseAt(s, from + 1)
  }

  /**
   * Where a match of `\$\{([^}]+)\}` starting at `i` ends: `${`, then one or
   * more characters other than `}`, then `}`; the result is the index of
   * that `}`.
   */
  function MatchAt(s: string, i: nat): (r: Option<nat>)
    ensures r.Some? ==> i + 2 < r.value < |s|
    ensures r.Some? ==> s[i] == '$' && s[i + 1] == '{' && s[r.value] == '}'
    ensures r.Some? ==> forall m :: i + 2 <= m < r.value ==> s[m] != '}'
  {
    if i + 1 < |s| && s[i] == '$' && s[i + 1] == '{' then
      match CloseAt(s, i + 2)
      case Some(j) => if j > i + 2 then Some(j) else None
      case None => None
    else None
  }

  /**
   * `re.findall` of the pattern: the names, left to right, without overlap;
   * after a match the scan resumes behind its `}`, otherwise one character on.
   */
  function Matches(s: string): seq<string>
    decreases |s|
  {
    if s == [] then []
    else match MatchAt(s, 0)
      case Some(j) => [s[2..j]] + Matches(s[j + 1..])
      case None => Matches(s[1..])
  }

  /** `s.replace(pat, rep)`: every occurrence, left to right, without overlap. */
  function ReplaceAll(s: string, pat: string, rep: string): string
    requires pat != []
    decreases |s|
  {
    if |s| < |pat| then s
    else if s[..|pat|] == pat then rep + ReplaceAll(s[|pat|..], pat, rep)
    else [s[0]] + ReplaceAll(s[1..], pat, rep)
  }

  function Placeholder(name: string): (p: string)
    ensures |p| >= 3 && p[0] == '$'
  {
    "${" + name + "}"
  }

  /** One round of the loop: a defined name has all its placeholders replaced, an undefined one is kept. */
  function SubstOne(s: string, name: string, env: map<string, string>): string
  {
    if name in env then ReplaceAll(s, Placeholder(name), env[name]) else s
  }

  /** The loop over the names found, in order, each round working on the previous round's text. */
  function SubstNames(s: string, names: seq<string>, env: map<string, string>): string
    decreases |names|
  {
    if names == [] then s else SubstNames(SubstOne(s, names[0], env), names[1..], env)
  }

  /** `substitute` on a string: the names are found once, in the original text. */
  function SubstStr(s: string, env: map<string, string>): string
  {
    SubstNames(s, Matches(s), env)
  }

  /**
   * `substitute`: strings are rewritten, mappings and lists are rebuilt
   * entry by entry, and every other value is kept.
   */
  function Substituted(v: Value, env: map<string, string>): (r: Value)
    ensures v.Str? <==> r.Str?
    ensures v.List? <==> r.List?
    ensures v.Dict? <==> r.Dict?
    ensures v.List? ==> |r.items| == |v.items|
    ensures v.Dict? ==> r.fields.Keys == v.fields.Keys
    ensures !v.Str? && !v.List? && !v.Dict? ==> r == v
  {
    match v
    case Str(s) => Str(SubstStr(s, env))
    case List(items) => List(seq(|items|, i requires 0 <= i < |items| => Substituted(items[i], env)))
    case Dict(fields) => Dict(map k | k in fields :: Substituted(fields[k], env))
    case _ => v
  }

  /** The substitution loop on a string. */
  method SubstituteString(value: string, env: map<string, string>) returns (r: string)
    ensures r == SubstStr(value, env)
  {
    var names := Matches(value);
    r := value;
    var i := 0;
    while i < |names|
      invariant 0 <= i <= |names|
      invariant SubstNames(value, names, env) == SubstNames(r, names[i..], env)
    {
      assert names[i..][1..] == names[i + 1..];
      if names[i] in env {
        r := ReplaceAll(r, Placeholder(names[i]), env[names[i]]);
      }
      i := i + 1;
    }
  }

  /** `substitute`, walking the document. */
  method SubstituteValue(v: Value, env: map<string, string>) returns (r: Value)
    ensures r == Substituted(v, env)
    decreases v, 1
  {
    match v
    case Str(s) =>
      var t := SubstituteString(s, env);
      r := Str(t);
    case List(items) =>
      var out := SubstituteItems(items, env);
      r := List(out);
    case Dict(fields) =>
      var out := SubstituteFields(fields, env);
      r := Dict(out);
    case _ =>
      r := v;
  }

  /** The list comprehension of `substitute`. */
  method SubstituteItems(items: seq<Value>, env: map<string, string>) returns (out: seq<Value>)
    ensures |out| == |items|
    ensures forall k :: 0 <= k < |items| ==> out[k] == Substituted(items[k], env)
    decreases List(items), 0
  {
    out := [];
    var i := 0;
    while i < |items|
      invariant 0 <= i <= |items|
      invariant |out| == i
      invariant forall k :: 0 <= k < i ==> out[k] == Substituted(items[k], env)
    {
      var item := SubstituteValue(items[i], env);
      out := out + [item];
      i := i + 1;
    }
  }

  /** The mapping comprehension of `substitute`. */
  method SubstituteFields(fields: map<string, Value>, env: map<string, string>) returns (out: map<string, Value>)
    ensures out.Keys == fields.Keys
    ensures forall k :: k in fields ==> out[k] == Substituted(fields[k], env)
    decreases Dict(fields), 0
  {
    out := map[];
    var todo := fields.Keys;
    while todo != {}
      invariant todo <= fields.Keys
      invariant forall k :: k in out <==> k in fields && k !in todo
      invariant forall k :: k in out ==> out[k] == Substituted(fields[k], env)
      decreases |todo|
    {
      var key :| key in todo;
      var item := SubstituteValue(fields[key], env);
      out := out[key := item];
      todo := todo - {key};
    }
  }

  /** With every name found undefined, a string is kept verbatim. */
  lemma {:induction false} UndefinedNamesKept(s: string, names: seq<string>, env: map<string, string>)
    requires forall k :: 0 <= k < |names| ==> names[k] !in env
    ensures SubstNames(s, names, env) == s
  {
    if names != [] {
      UndefinedNamesKept(s, names[1..], env);
    }
  }

  /** An empty environment changes nothing anywhere in the document. */
  lemma {:induction false} EmptyEnvironmentKeeps(v: Value)
    ensures Substituted(v, map[]) == v
  {
    match v
    case Str(s) =>
      UndefinedNamesKept(s, Matches(s), map[]);
    case List(items) =>
      forall i | 0 <= i < |items| ensures Substituted(items[i], map[]) == items[i] {
        EmptyEnvironmentKeeps(items[i]);
      }
    case Dict(fields) =>
      forall k | k in fields ensures Substituted(fields[k], map[]) == fields[k] {
        EmptyEnvironmentKeeps(fields[k]);
      }
    case _ =>
  }

  lemma {:induction false} CloseAtFinds(s: string, from: nat, j: nat)
    requires from <= j < |s| && s[j] == '}' && forall m :: from <= m < j ==> s[m] != '}'
    ensures CloseAt(s, from) == Some(j)
    decreases j - from
  {
    if from < j {
      CloseAtFinds(s, from + 1, j);
    }
  }

  /** A first character that cannot start the pattern is kept. */
  lemma ReplaceFirstChar(s: string, pat: string, rep: string)
    requires pat != [] && s != [] && s[0] != pat[0]
    ensures ReplaceAll(s, pat, rep) == [s[0]] + ReplaceAll(s[1..], pat, rep)
  {
    if |s| >= |pat| {
      assert s[..|pat|][0] == s[0];
    } else {
      assert ReplaceAll(s[1..], pat, rep) == s[1..];
      assert [s[0]] + s[1..] == s;
    }
  }

  lemma {:induction false} ReplaceSkipsPrefix(a: string, b: string, pat: string, rep: string)
    requires pat != [] && pat[0] !in a
    ensures ReplaceAll(a + b, pat, rep) == a + ReplaceAll(b, pat, rep)
    decreases |a|
  {
    if a == [] {
      assert a + b == b;
    } else {
      var s := a + b;
      ReplaceFirstChar(s, pat, rep);
      assert s[1..] == a[1..] + b;
      ReplaceSkipsPrefix(a[1..], b, pat, rep);
      assert [a[0]] + a[1..] == a;
    }
  }

  lemma ReplaceMissing(s: string, pat: string, rep: string)
    requires pat != [] && pat[0] !in s
    ensures ReplaceAll(s, pat, rep) == s
  {
    ReplaceSkipsPrefix(s, [], pat, rep);
    assert s + [] == s;
  }

  /** The names found in a string with one well-formed placeholder and no other `$`. */
  lemma MatchesOfOnePlaceholder(prefix: string, name: string, suffix: string)
    requires '$' !in prefix && '$' !in suffix
    requires name != "" && '}' !in name
    ensures Matches(prefix + Placeholder(name) + suffix) == [name]
  {
    var ph := Placeholder(name);
    assert prefix + ph + suffix == prefix + (ph + suffix);
    NoDollarPrefix(prefix, ph + suffix);
    PlaceholderPrefix(name, suffix);
    NoDollarPrefix(suffix, []);
    assert suffix + [] == suffix;
  }

  /** Replacing the placeholder of such a string. */
  lemma ReplaceOnePlaceholder(prefix: string, name: string, suffix: string, value: string)
    requires '$' !in prefix && '$' !in suffix
    ensures ReplaceAll(prefix + Placeholder(name) + suffix, Placeholder(name), value) == prefix + value + suffix
  {
    var ph := Placeholder(name);
    ReplaceSkipsPrefix(prefix, ph + suffix, ph, value);
    assert (ph + suffix)[..|ph|] == ph;
    assert (ph + suffix)[|ph|..] == suffix;
    ReplaceMissing(suffix, ph, value);
    assert prefix + ph + suffix == prefix + (ph + suffix);
  }

  /**
   * A string with one well-formed placeholder and no other `$`: a defined
   * name is replaced by its value, an undefined one is kept verbatim.
   */
  lemma OnePlaceholder(prefix: string, name: string, suffix: string, env: map<string, string>)
    requires '$' !in prefix && '$' !in suffix
    requires name != "" && '}' !in name
    ensures name in env ==> SubstStr(prefix + Placeholder(name) + suffix, env) == prefix + env[name] + suffix
    ensures name !in env ==> SubstStr(prefix + Placeholder(name) + suffix, env) == prefix + Placeholder(name) + suffix
  {
    var s := prefix + Placeholder(name) + suffix;
    MatchesOfOnePlaceholder(prefix, name, suffix);
    assert SubstStr(s, env) == SubstNames(s, [name], env);
    assert [name][1..] == [];
    assert SubstNames(s, [name], env) == SubstOne(s, name, env);
    if name in env {
      ReplaceOnePlaceholder(prefix, name, suffix, env[name]);
    }
  }

  /** A text that starts with a well-formed placeholder matches it there, with its name. */
  lemma PlaceholderMatchAt(name: string, rest: string)
    requires name != "" && '}' !in name
    ensures MatchAt(Placeholder(name) + rest, 0) == Some(|name| + 2)
    ensures (Placeholder(name) + rest)[2..|name| + 2] == name
  {
    var s := Placeholder(name) + rest;
    var j := |name| + 2;
    assert s[0] == '$' && s[1] == '{' && s[j] == '}';
    forall m | 2 <= m < j ensures s[m] != '}' {
      assert s[m] == name[m - 2];
    }
    CloseAtFinds(s, 2, j);
    assert s[2..j] == name;
  }

  /** A text that starts with the pattern has that first occurrence replaced. */
  lemma ReplaceAtStart(pat: string, rest: string, rep: string)
    requires pat != []
    ensures ReplaceAll(pat + rest, pat, rep) == rep + ReplaceAll(rest, pat, rep)
  {
    assert (pat + rest)[..|pat|] == pat;
    assert (pat + rest)[|pat|..] == rest;
  }

  /** The placeholder of another name is not an occurrence of this one, and is kept. */
  lemma OtherPlaceholderKept(other: string, name: string, rest: string, rep: string)
    requires other != name && '}' !in other && '}' !in name && '$' !in other
    ensures ReplaceAll(Placeholder(other) + rest, Placeholder(name), rep)
         == Placeholder(other) + ReplaceAll(rest, Placeholder(name), rep)
  {
    var ph, pat := Placeholder(other), Placeholder(name);
    var s := ph + rest;
    if |s| < |pat| {
      assert ReplaceAll(rest, pat, rep) == rest;
    } else {
      // The two differ at the first place where the names differ or one closes.
      var idx: nat;
      if |other| < |name| {
        idx := 2 + |other|;
        assert s[idx] == '}' && pat[idx] == name[|other|];
      } else if |other| > |name| {
        idx := 2 + |name|;
        assert pat[idx] == '}' && s[idx] == other[|name|];
      } else {
        var m :| 0 <= m < |name| && other[m] != name[m];
        idx := 2 + m;
        assert s[idx] == other[m] && pat[idx] == name[m];
      }
      assert s[..|pat|][idx] != pat[idx];
      assert ReplaceAll(s, pat, rep) == [s[0]] + ReplaceAll(s[1..], pat, rep);
      assert s[1..] == ph[1..] + rest;
      ReplaceSkipsPrefix(ph[1..], rest, pat, rep);
      assert [s[0]] + ph[1..] == ph;
    }
  }

  /** What substitution leaves in a placeholder's place: the value of a defined name, else the placeholder. */
  function Shown(name: string, env: map<string, string>): string
  {
    if name in env then env[name] else Placeholder(name)
  }

  /** Text without `$` in front adds no names. */
  lemma {:induction false} NoDollarPrefix(a: string, rest: string)
    requires '$' !in a
    ensures Matches(a + rest) == Matches(rest)
    decreases |a|
  {
    if a == [] {
      assert a + rest == rest;
    } else {
      var s := a + rest;
      assert s[0] == a[0] && s[1..] == a[1..] + rest;
      NoDollarPrefix(a[1..], rest);
    }
  }

  /** A well-formed placeholder in front adds its name first. */
  lemma PlaceholderPrefix(name: string, rest: string)
    requires name != "" && '}' !in name
    ensures Matches(Placeholder(name) + rest) == [name] + Matches(rest)
  {
    var ph := Placeholder(name);
    PlaceholderMatchAt(name, rest);
    assert (ph + rest)[|name| + 3..] == rest;
  }

  /** Text without `$`, then a well-formed placeholder: its name comes first, then those of the rest. */
  lemma LeadingPlaceholder(a: string, name: string, rest: string)
    requires '$' !in a && name != "" && '}' !in name
    ensures Matches(a + Placeholder(name) + rest) == [name] + Matches(rest)
  {
    var ph := Placeholder(name);
    assert a + ph + rest == a + (ph + rest);
    NoDollarPrefix(a, ph + rest);
    PlaceholderPrefix(name, rest);
  }

  /** The names found in text with two well-formed placeholders and no other `$`. */
  lemma MatchesOfTwoPlaceholders(a: string, first: string, b: string, second: string, c: string)
    requires '$' !in a && '$' !in b && '$' !in c
    requires first != "" && second != "" && '}' !in first && '}' !in second
    ensures Matches(a + Placeholder(first) + b + Placeholder(second) + c) == [first, second]
  {
    var p1, p2 := Placeholder(first), Placeholder(second);
    assert a + p1 + b + p2 + c == a + p1 + (b + p2 + c);
    LeadingPlaceholder(a, first, b + p2 + c);
    LeadingPlaceholder(b, second, c);
    NoDollarPrefix(c, []);
    assert c + [] == c;
  }

  /** The first round on such text: only the first placeholder can change. */
  lemma FirstOfTwoReplaced(a: string, first: string, b: string, second: string, c: string, v: string)
    requires '$' !in a && '$' !in b && '$' !in c
    requires first != second && '}' !in first && '}' !in second && '$' !in second
    ensures ReplaceAll(a + Placeholder(first) + b + Placeholder(second) + c, Placeholder(first), v)
         == a + v + b + Placeholder(second) + c
  {
    var p1, p2 := Placeholder(first), Placeholder(second);
    assert a + p1 + b + p2 + c == a + (p1 + (b + (p2 + c)));
    ReplaceSkipsPrefix(a, p1 + (b + (p2 + c)), p1, v);
    ReplaceAtStart(p1, b + (p2 + c), v);
    ReplaceSkipsPrefix(b, p2 + c, p1, v);
    OtherPlaceholderKept(second, first, c, v);
    ReplaceMissing(c, p1, v);
    assert a + (v + (b + (p2 + c))) == a + v + b + p2 + c;
  }

  /** Text without `$`, a placeholder, then text without `$`: the placeholder is replaced. */
  lemma PlaceholderAfterText(b: string, second: string, c: string, w: string)
    requires '$' !in b && '$' !in c
    ensures ReplaceAll(b + (Placeholder(second) + c), Placeholder(second), w) == b + (w + c)
  {
    var p2 := Placeholder(second);
    ReplaceSkipsPrefix(b, p2 + c, p2, w);
    ReplaceAtStart(p2, c, w);
    ReplaceMissing(c, p2, w);
  }

  /** What the first round left in the first placeholder's place is passed over by the second. */
  lemma ShownPassedOver(shown: string, first: string, second: string, tail: string, w: string)
    requires first != second && '}' !in first && '}' !in second && '$' !in first
    requires '$' !in shown || shown == Placeholder(first)
    ensures ReplaceAll(shown + tail, Placeholder(second), w) == shown + ReplaceAll(tail, Placeholder(second), w)
  {
    if '$' in shown {
      OtherPlaceholderKept(first, second, tail, w);
    } else {
      ReplaceSkipsPrefix(shown, tail, Placeholder(second), w);
    }
  }

  /** The second round: the second placeholder is replaced, a kept first one or a value without `$` passed over. */
  lemma SecondOfTwoReplaced(a: string, shown: string, first: string, b: string, second: string, c: string, w: string)
    requires '$' !in a && '$' !in b && '$' !in c
    requires first != second && '}' !in first && '}' !in second && '$' !in first
    requires '$' !in shown || shown == Placeholder(first)
    ensures ReplaceAll(a + shown + b + Placeholder(second) + c, Placeholder(second), w)
         == a + shown + b + w + c
  {
    var p2 := Placeholder(second);
    var tail := b + (p2 + c);
    assert a + shown + b + p2 + c == a + (shown + tail);
    ReplaceSkipsPrefix(a, shown + tail, p2, w);
    ShownPassedOver(shown, first, second, tail, w);
    PlaceholderAfterText(b, second, c, w);
    assert a + (shown + (b + (w + c))) == a + shown + b + w + c;
  }

  /**
   * Two placeholders of different names in text without other `$`: each is
   * replaced iff its name is defined, the other kept verbatim. The first
   * value carries no `$`, so it cannot feed the second round.
   */
  lemma TwoPlaceholders(a: string, first: string, b: string, second: string, c: string, env: map<string, string>)
    requires '$' !in a && '$' !in b && '$' !in c
    requires first != "" && second != "" && first != second
    requires '}' !in first && '}' !in second && '$' !in first && '$' !in second
    requires first in env ==> '$' !in env[first]
    ensures SubstStr(a + Placeholder(first) + b + Placeholder(second) + c, env)
         == a + Shown(first, env) + b + Shown(second, env) + c
  {
    var s := a + Placeholder(first) + b + Placeholder(second) + c;
    MatchesOfTwoPlaceholders(a, first, b, second, c);
    assert SubstStr(s, env) == SubstOne(SubstOne(s, first, env), second, env) by {
      assert [first, second][1..] == [second];
      assert [second][1..] == [];
      assert SubstNames(s, [first, second], env) == SubstNames(SubstOne(s, first, env), [second], env);
      assert SubstNames(SubstOne(s, first, env), [second], env)
          == SubstNames(SubstOne(SubstOne(s, first, env), second, env), [], env);
    }
    if first in env {
      FirstOfTwoReplaced(a, first, b, second, c, env[first]);
    }
    if second in env {
      SecondOfTwoReplaced(a, Shown(first, env), first, b, second, c, env[second]);
    }
  }

  /** Text without `$` around well-formed placeholders: `segs[0]`, then each name's placeholder followed by the next segment. */
  function Template(segs: seq<string>, names: seq<string>): string
    requires |segs| == |names| + 1
    decreases |names|
  {
    if names == [] then segs[0]
    else segs[0] + Placeholder(names[0]) + Template(segs[1..], names[1..])
  }

  /** The same text with every placeholder shown as substitution leaves it. */
  function Rendered(segs: seq<string>, names: seq<string>, env: map<string, string>): string
    requires |segs| == |names| + 1
    decreases |names|
  {
    if names == [] then segs[0]
    else segs[0] + Shown(names[0], env) + Rendered(segs[1..], names[1..], env)
  }

  /** How a placeholder stands after the rounds for the names in `done`. */
  function Slot(name: string, done: set<string>, env: map<string, string>): string
  {
    if name in done then Shown(name, env) else Placeholder(name)
  }

  /** The text after the rounds for the names in `done`: only their placeholders are shown substituted. */
  function Partial(segs: seq<string>, names: seq<string>, done: set<string>, env: map<string, string>): string
    requires |segs| == |names| + 1
    decreases |names|
  {
    if names == [] then segs[0]
    else segs[0] + (Slot(names[0], done, env) + Partial(segs[1..], names[1..], done, env))
  }

  /** The conditions under which a template substitutes placeholder by placeholder. */
  predicate PlainTemplate(segs: seq<string>, names: seq<string>, env: map<string, string>)
  {
    && |segs| == |names| + 1
    && (forall i :: 0 <= i < |segs| ==> '$' !in segs[i])
    && (forall i :: 0 <= i < |names| ==> names[i] != "" && '}' !in names[i] && '$' !in names[i])
    && (forall i :: 0 <= i < |names| && names[i] in env ==> '$' !in env[names[i]])
  }

  /** Dropping the first placeholder and segment keeps the conditions. */
  lemma PlainTemplateTail(segs: seq<string>, names: seq<string>, env: map<string, string>)
    requires PlainTemplate(segs, names, env) && names != []
    ensures PlainTemplate(segs[1..], names[1..], env)
  {
    forall i | 0 <= i < |segs| - 1 ensures '$' !in segs[1..][i] {
      assert segs[1..][i] == segs[i + 1];
    }
    forall i | 0 <= i < |names| - 1
      ensures names[1..][i] != "" && '}' !in names[1..][i] && '$' !in names[1..][i]
      ensures names[1..][i] in env ==> '$' !in env[names[1..][i]]
    {
      assert names[1..][i] == names[i + 1];
    }
  }

  /** The names found in a template are its placeholders' names, in order, repeats included. */
  lemma {:induction false} MatchesOfTemplate(segs: seq<string>, names: seq<string>, env: map<string, string>)
    requires PlainTemplate(segs, names, env)
    ensures Matches(Template(segs, names)) == names
    decreases |names|
  {
    if names == [] {
      NoDollarPrefix(segs[0], []);
      assert segs[0] + [] == segs[0];
    } else {
      PlainTemplateTail(segs, names, env);
      LeadingPlaceholder(segs[0], names[0], Template(segs[1..], names[1..]));
      MatchesOfTemplate(segs[1..], names[1..], env);
      assert names == [names[0]] + names[1..];
    }
  }

  /** Before any round, nothing is shown substituted. */
  lemma {:induction false} TemplateIsPartial(segs: seq<string>, names: seq<string>, env: map<string, string>)
    requires |segs| == |names| + 1
    ensures Template(segs, names) == Partial(segs, names, {}, env)
    decreases |names|
  {
    if names != [] {
      TemplateIsPartial(segs[1..], names[1..], env);
    }
  }

  /** Once every name is done, every placeholder is shown substituted. */
  lemma {:induction false} PartialAllDone(segs: seq<string>, names: seq<string>, done: set<string>, env: map<string, string>)
    requires |segs| == |names| + 1
    requires forall i :: 0 <= i < |names| ==> names[i] in done
    ensures Partial(segs, names, done, env) == Rendered(segs, names, env)
    decreases |names|
  {
    if names != [] {
      assert forall i :: 0 <= i < |names| - 1 ==> names[1..][i] == names[i + 1];
      PartialAllDone(segs[1..], names[1..], done, env);
    }
  }

  /** The round for an undefined name changes nothing, and marking it done shows nothing new. */
  lemma {:induction false} UndefinedRound(segs: seq<string>, names: seq<string>, done: set<string>, n: string, env: map<string, string>)
    requires |segs| == |names| + 1 && n !in env
    ensures Partial(segs, names, done + {n}, env) == Partial(segs, names, done, env)
    decreases |names|
  {
    if names != [] {
      UndefinedRound(segs[1..], names[1..], done, n, env);
    }
  }

  /** One placeholder position in the round for a defined name `n`: only `n`'s own placeholder changes. */
  lemma HeadRound(head: string, done: set<string>, n: string, env: map<string, string>, rest: string)
    requires '}' !in head && '$' !in head && '}' !in n && n in env
    requires head in done && head in env ==> '$' !in env[head]
    ensures ReplaceAll(Slot(head, done, env) + rest, Placeholder(n), env[n])
         == Slot(head, done + {n}, env) + ReplaceAll(rest, Placeholder(n), env[n])
  {
    var pat, v := Placeholder(n), env[n];
    if head in done && head in env {
      ReplaceSkipsPrefix(env[head], rest, pat, v);
    } else if head == n {
      ReplaceAtStart(pat, rest, v);
    } else {
      OtherPlaceholderKept(head, n, rest, v);
    }
  }

  /**
   * The round for a defined name replaces exactly its placeholders: values
   * already shown hold no `$`, and the placeholders of other names are kept.
   */
  lemma {:induction false} DefinedRound(segs: seq<string>, names: seq<string>, done: set<string>, n: string, env: map<string, string>)
    requires PlainTemplate(segs, names, env)
    requires n in env && '}' !in n
    ensures ReplaceAll(Partial(segs, names, done, env), Placeholder(n), env[n]) == Partial(segs, names, done + {n}, env)
    decreases |names|
  {
    if names == [] {
      ReplaceMissing(segs[0], Placeholder(n), env[n]);
    } else {
      PlainTemplateTail(segs, names, env);
      var rest := Partial(segs[1..], names[1..], done, env);
      ReplaceSkipsPrefix(segs[0], Slot(names[0], done, env) + rest, Placeholder(n), env[n]);
      HeadRound(names[0], done, n, env, rest);
      DefinedRound(segs[1..], names[1..], done, n, env);
    }
  }

  /** The loop's rounds over a list of names mark each of them done. */
  lemma {:induction false} RoundsOnPartial(segs: seq<string>, names: seq<string>, done: set<string>,
                                           ns: seq<string>, env: map<string, string>)
    requires PlainTemplate(segs, names, env)
    requires forall i :: 0 <= i < |ns| ==> '}' !in ns[i]
    ensures SubstNames(Partial(segs, names, done, env), ns, env) == Partial(segs, names, done + (set x | x in ns), env)
    decreases |ns|
  {
    if ns == [] {
      assert done + (set x | x in ns) == done;
    } else {
      if ns[0] in env {
        DefinedRound(segs, names, done, ns[0], env);
      } else {
        UndefinedRound(segs, names, done, ns[0], env);
      }
      assert forall i :: 0 <= i < |ns| - 1 ==> ns[1..][i] == ns[i + 1];
      RoundsOnPartial(segs, names, done + {ns[0]}, ns[1..], env);
      assert ns == [ns[0]] + ns[1..];
      assert done + {ns[0]} + (set x | x in ns[1..]) == done + (set x | x in ns);
    }
  }

  /**
   * `substitute` on text with any number of well-formed placeholders and no
   * other `$`, whose values hold no `$`: each placeholder is replaced by its
   * value when its name is defined and kept verbatim otherwise.
   */
  lemma Substitution(segs: seq<string>, names: seq<string>, env: map<string, string>)
    requires PlainTemplate(segs, names, env)
    ensures SubstStr(Template(segs, names), env) == Rendered(segs, names, env)
  {
    MatchesOfTemplate(segs, names, env);
    TemplateIsPartial(segs, names, env);
    RoundsOnPartial(segs, names, {}, names, env);
    PartialAllDone(segs, names, {} + (set x | x in names), env);
  }

  // ---------------------------------------------------------------------------
  // The manager

  /** `_load_yaml(name)`: the parsed document, or None for a missing, unreadable or empty file. */
  function FileValue(files: string -> Option<Value>, name: string): Value
  {
    match files(name)
    case None => Null
    case Some(v) => v
  }

  /** `x or {}` */
  function OrEmpty(v: Value): (r: Value)
    ensures Truthy(v) ==> r == v
    ensures !Truthy(v) ==> r == Dict(map[])
  {
    if Truthy(v) then v else Dict(map[])
  }

  /** The three layers `load` reads: base, the environment's overrides, and the secrets. */
  datatype Layers = Layers(base: Value, overrides: Value, secrets: Value)

  function ReadLayers(files: string -> Option<Value>, envName: string): (l: Layers)
    ensures !Truthy(l.base) <==> !Truthy(FileValue(files, "base.yaml"))
    ensures !Truthy(l.overrides) ==> l.overrides == Dict(map[])
    ensures !Truthy(l.secrets) ==> l.secrets == Dict(map[])
  {
    Layers(FileValue(files, "base.yaml"), OrEmpty(FileValue(files, envName + ".yaml")),
      OrEmpty(FileValue(files, "secrets.yaml")))
  }

  /**
   * When all three layers are mappings, the secrets beat the environment's
   * overrides, which beat the base: a value that is not a mapping, at a path
   * of a layer, is what the merge holds there unless a later layer has that
   * path's first key.
   */
  lemma LaterLayersWin(base: map<string, Value>, overrides: map<string, Value>, secrets: map<string, Value>,
    path: seq<string>, x: Value)
    requires !x.Dict?
    ensures Walk(Dict(secrets), path) == Some(x) ==>
      Walk(Dict(MergeDicts(MergeDicts(base, overrides), secrets)), path) == Some(x)
    ensures path != [] && path[0] !in secrets && Walk(Dict(overrides), path) == Some(x) ==>
      Walk(Dict(MergeDicts(MergeDicts(base, overrides), secrets)), path) == Some(x)
    ensures path != [] && path[0] !in secrets && path[0] !in overrides && Walk(Dict(base), path) == Some(x) ==>
      Walk(Dict(MergeDicts(MergeDicts(base, overrides), secrets)), path) == Some(x)
  {
    var first := MergeDicts(base, overrides);
    if Walk(Dict(secrets), path) == Some(x) {
      OverrideWinsAlongPath(first, secrets, path, x);
    }
    if path != [] && path[0] !in secrets {
      BaseShowsThroughGaps(first, secrets, path);
      if Walk(Dict(overrides), path) == Some(x) {
        OverrideWinsAlongPath(base, overrides, path, x);
      }
      if path[0] !in overrides {
        BaseShowsThroughGaps(base, overrides, path);
      }
    }
  }

  class ConfigManager {
    var config: Value

    /** A manager starts with an empty configuration. */
    constructor ()
      ensures config == Dict(map[])
    {
      config := Dict(map[]);
    }

    /** `_substitute_env_vars`: rewrites the whole configuration. */
    method SubstituteEnvVars(environ: map<string, string>)
      modifies this
      ensures config == Substituted(old(config), environ)
    {
      config := SubstituteValue(config, environ);
    }

    /**
     * `load(env)`: fails when base.yaml is missing or empty; otherwise merges
     * the environment's overrides into the base and the secrets into that,
     * assigning each merge as it completes (so a failing second merge leaves
     * the first in place), and finally substitutes the environment.
     */
    method Load(files: string -> Option<Value>, envName: string, environ: map<string, string>) returns (ok: bool)
      modifies this
      ensures var l := ReadLayers(files, envName);
        !Truthy(l.base) ==> !ok && config == old(config)
      ensures var l := ReadLayers(files, envName);
        Truthy(l.base) && MergeResult(l.base, l.overrides).Raised? ==> !ok && config == old(config)
      ensures var l := ReadLayers(files, envName);
        Truthy(l.base) && MergeResult(l.base, l.overrides).Returned? ==>
          var first := MergeResult(l.base, l.overrides).value;
          (MergeResult(first, l.secrets).Raised? ==> !ok && config == first) &&
          (MergeResult(first, l.secrets).Returned? ==> ok && config == Substituted(MergeResult(first, l.secrets).value, environ))
    {
      var l := ReadLayers(files, envName);
      if !Truthy(l.base) {
        return false;
      }
      var first := DeepMerge(l.base, l.overrides);
      if first.Raised? {
        return false;
      }
      config := first.value;
      var second := DeepMerge(config, l.secrets);
      if second.Raised? {
        return false;
      }
      config := second.value;
      SubstituteEnvVars(environ);
      return true;
    }

    /** `reload(env)`: empties the configuration, then loads. */
    method Reload(files: string -> Option<Value>, envName: string, environ: map<string, string>) returns (ok: bool)
      modifies this
      ensures var l := ReadLayers(files, envName);
        !Truthy(l.base) ==> !ok && config == Dict(map[])
      ensures var l := ReadLayers(files, envName);
        Truthy(l.base) && MergeResult(l.base, l.overrides).Raised? ==> !ok && config == Dict(map[])
      ensures var l := ReadLayers(files, envName);
        Truthy(l.base) && MergeResult(l.base, l.overrides).Returned? ==>
          var first := MergeResult(l.base, l.overrides).value;
          (MergeResult(first, l.secrets).Raised? ==> !ok && config == first) &&
          (MergeResult(first, l.secrets).Returned? ==> ok && config == Substituted(MergeResult(first, l.secrets).value, environ))
    {
      config := Dict(map[]);
      ok := Load(files, envName, environ);
    }

    /** `get(key_path, default)`: walks the dot-separated path through the configuration. */
    method Get(keyPath: string, default: Value) returns (r: Value)
      ensures r == Lookup(config, Split(keyPath, '.'), default)
    {
      var keys := Split(keyPath, '.');
      var value := config;
      var i := 0;
      while i < |keys|
        invariant 0 <= i <= |keys|
        invariant Walk(config, keys) == Walk(value, keys[i..])
      {
        assert keys[i..][1..] == keys[i + 1..];
        if value.Dict? {
          value := GetOr(value.fields, keys[i], Null);
          if value == Null {
            return default;
          }
        } else {
          return default;
        }
        i := i + 1;
      }
      return value;
    }

    /**
     * `get_plugin_config(name)`: the entry under `plugins`, or an empty
     * mapping; a name with dots in it is itself read as a path.
     */
    method GetPluginConfig(name: string) returns (r: Value)
      ensures r == Lookup(config, ["plugins"] + Split(name, '.'), Dict(map[]))
      ensures '.' !in name ==> r == Lookup(config, ["plugins", name], Dict(map[]))
    {
      assert "plugins." + name == "plugins" + ['.'] + name;
      SplitAtFirst("plugins", '.', name);
      r := Get("plugins." + name, Dict(map[]));
    }
  }
}
