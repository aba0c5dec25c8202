/** The build configuration as an object with its slices and map
    (pkg/network/build_config.go:61-342). A nil slice or map is an empty one. */
module BuildConfig {
  import opened Outcomes
  import opened SortedStrings
  import opened Trimming
  import opened BuildContents
  import opened BuildHash

  class EnvMap {
    var entries: map<string, string>

    constructor ()
      ensures entries == map[]
    {
      entries := map[];
    }
  }

  class Config {
    const tags: array<string>
    const ldflags: array<string>
    const env: EnvMap
    const extraArgs: array<string>

    constructor (tags: array<string>, ldflags: array<string>, env: EnvMap, extraArgs: array<string>)
      ensures this.tags == tags && this.ldflags == ldflags && this.env == env && this.extraArgs == extraArgs
    {
      this.tags := tags;
      this.ldflags := ldflags;
      this.env := env;
      this.extraArgs := extraArgs;
    }

    function Contents(): Contents
      reads tags, ldflags, env, extraArgs
    {
      BuildContents.Contents.Contents(tags[..], ldflags[..], env.entries, extraArgs[..])
    }

    /** The mutable parts. */
    ghost function Parts(): set<object> {
      {tags, ldflags, env, extraArgs}
    }

    ghost predicate PartsDistinct() {
      tags != ldflags && tags != extraArgs && ldflags != extraArgs
    }
  }

  /** What a possibly missing configuration holds. */
  function ContentsOf(c: Config?): Option<Contents>
    reads c, if c == null then {} else {c.tags, c.ldflags, c.env, c.extraArgs}
  {
    if c == null then None else Some(c.Contents())
  }

  /** A fresh slice with the elements of two. */
  method AppendAll(a: array<string>, b: array<string>) returns (r: array<string>)
    ensures fresh(r) && r[..] == a[..] + b[..]
  {
    r := new string[a.Length + b.Length];
    for i := 0 to a.Length
      invariant r[..i] == a[..i]
    {
      r[i] := a[i];
    }
    for i := 0 to b.Length
      invariant r[..a.Length + i] == a[..] + b[..i]
    {
      r[a.Length + i] := b[i];
    }
  }

  method CopyOf(a: array<string>) returns (r: array<string>)
    ensures fresh(r) && r[..] == a[..]
  {
    r := new string[a.Length];
    for i := 0 to a.Length
      invariant r[..i] == a[..i]
    {
      r[i] := a[i];
    }
  }

  /** Assigns every entry of a map, in whatever order the map yields them. */
  method PutAll(into: EnvMap, from: EnvMap)
    requires into != from
    modifies into
    ensures into.entries == old(into.entries) + from.entries
  {
    var remaining := from.entries.Keys;
    ghost var before := into.entries;
    while remaining != {}
      invariant remaining <= from.entries.Keys
      invariant into.entries == before + (from.entries - remaining)
      decreases |remaining|
    {
      var k :| k in remaining;
      into.entries := into.entries[k := from.entries[k]];
      remaining := remaining - {k};
    }
    assert from.entries - {} == from.entries;
  }

  /** `Clone`: equal contents, nothing shared. */
  method Clone(c: Config?) returns (r: Config)
    ensures fresh(r) && fresh(r.Parts()) && r.PartsDistinct()
    ensures r.Contents() == Value(ContentsOf(c))
    ensures c == null ==> r.tags.Length == r.ldflags.Length == r.extraArgs.Length == 0 && r.env.entries == map[]
    ensures c != null ==> && r.tags[..] == c.tags[..] && r.ldflags[..] == c.ldflags[..]
                          && r.extraArgs[..] == c.extraArgs[..] && r.env.entries == c.env.entries
  {
    var env := new EnvMap();
    if c == null {
      var tags, ldflags, extraArgs := new string[0], new string[0], new string[0];
      r := new Config(tags, ldflags, env, extraArgs);
      return;
    }
    var tags := CopyOf(c.tags);
    var ldflags := CopyOf(c.ldflags);
    var extraArgs := CopyOf(c.extraArgs);
    PutAll(env, c.env);
    assert map[] + c.env.entries == c.env.entries;
    r := new Config(tags, ldflags, env, extraArgs);
  }

  /** `Merge`: the merged contents in a configuration that shares nothing with
      either side, both of which stay as they were. */
  method MergeConfigs(base: Config?, other: Config?) returns (r: Config)
    ensures fresh(r) && fresh(r.Parts()) && r.PartsDistinct()
    ensures r.Contents() == Merge(ContentsOf(base), ContentsOf(other))
    ensures ContentsOf(base) == old(ContentsOf(base)) && ContentsOf(other) == old(ContentsOf(other))
    ensures base != null && other != null ==>
              && r.tags[..] == base.tags[..] + other.tags[..]
              && r.ldflags[..] == base.ldflags[..] + other.ldflags[..]
              && r.extraArgs[..] == base.extraArgs[..] + other.extraArgs[..]
              && (forall k :: k in r.env.entries <==> k in base.env.entries || k in other.env.entries)
              && (forall k :: k in r.env.entries ==>
                    r.env.entries[k] == if k in other.env.entries then other.env.entries[k] else base.env.entries[k])
  {
    if base == null || other == null {
      r := Clone(if base == null then other else base);
      return;
    }
    var tags := AppendAll(base.tags, other.tags);
    var ldflags := AppendAll(base.ldflags, other.ldflags);
    var env := new EnvMap();
    PutAll(env, base.env);
    PutAll(env, other.env);
    assert map[] + base.env.entries == base.env.entries;
    var extraArgs := AppendAll(base.extraArgs, other.extraArgs);
    r := new Config(tags, ldflags, env, extraArgs);
  }

  // ------------------------------------------------------------------- hashing

  /** Feeds one line per item to the hash. */
  method WriteLines(written: string, prefix: string, items: seq<string>) returns (out: string)
    ensures out == written + Text(Prefixed(prefix, items))
  {
    out := written;
    ghost var lines := Prefixed(prefix, items);
    assert Text(lines[..0]) == "";
    for i := 0 to |items|
      invariant out == written + Text(lines[..i])
    {
      out := out + (prefix + items[i] + "\n");
      NextLine(written, lines, i);
    }
    assert lines[..|items|] == lines;
  }

  lemma NextLine(written: string, lines: seq<string>, i: nat)
    requires i < |lines|
    ensures (written + Text(lines[..i])) + (lines[i] + "\n") == written + Text(lines[..i + 1])
  {
    assert lines[..i + 1] == lines[..i] + [lines[i]];
    TextAppend(lines[..i], [lines[i]]);
    assert Text([]) == "";
    assert Text([lines[i]]) == lines[i] + "\n";
  }

  /** The variables of the map as "key=value", with the keys collected in
      whatever order the map yields them and then sorted. */
  method SortedVariables(env: map<string, string>) returns (items: seq<string>)
    ensures items == Variables(env)
  {
    hide Sort, Listing, Assignments;
    var keys := MembersInSomeOrder(env.Keys);
    SortedMembers(keys, env.Keys);
    ListingMembers(env.Keys);
    items := Assignments(Sort(keys), env);
  }

  /** `Hash`, which hands its digest the canonical hash input. */
  method HashOf(c: Config?, digest: string -> string) returns (h: string)
    ensures h == Hash(ContentsOf(c), digest)
    ensures h == if c == null || (c.tags.Length == c.ldflags.Length == c.extraArgs.Length == 0 && c.env.entries == map[])
                 then "empty" else digest(HashInput(c.Contents()))
  {
    if c == null || IsEmpty(c.Contents()) {
      return "empty";
    }
    var text := WriteLines("", "tag:", Sort(c.tags[..]));
    text := WriteLines(text, "ldflag:", Sort(c.ldflags[..]));
    var variables := SortedVariables(c.env.entries);
    text := WriteLines(text, "env:", variables);
    text := WriteLines(text, "arg:", Sort(c.extraArgs[..]));
    FourSections(c.Contents());
    h := digest(text);
  }

  lemma FourSections(c: Contents)
    ensures HashInput(c) == (("" + Text(Prefixed("tag:", Sort(c.tags))) + Text(Prefixed("ldflag:", Sort(c.ldflags))))
                             + Text(Prefixed("env:", Variables(c.env)))) + Text(Prefixed("arg:", Sort(c.extraArgs)))
  {
    hide Text, Prefixed, Sort, Variables;
    var t, f := Prefixed("tag:", Sort(c.tags)), Prefixed("ldflag:", Sort(c.ldflags));
    var e, a := Prefixed("env:", Variables(c.env)), Prefixed("arg:", Sort(c.extraArgs));
    TextAppend(t, f + (e + a));
    TextAppend(f, e + a);
    TextAppend(e, a);
  }

  // ---------------------------------------------------------------- validation

  datatype Problem =
    | EmptyTag
    | DuplicateTag(tag: string)
    | EmptyFlag
    | FlagWithoutHyphen(flag: string)
    | DangerousFlag(flag: string, pattern: string)
    | EmptyKey
    | KeyNotAllowed(key: string)
    | SuspiciousValue(key: string, value: string)

  predicate TagProblem(p: Problem, tag: string) {
    p == if Trim(tag) == "" then EmptyTag else DuplicateTag(Trim(tag))
  }

  predicate FlagProblem(p: Problem, flag: string) {
    var f := Trim(flag);
    if f == "" then p == EmptyFlag
    else if f[0] != '-' then p == FlagWithoutHyphen(f)
    else p.DangerousFlag? && p.flag == f && p.pattern in DANGEROUS && Contains(Lower(f), p.pattern)
  }

  predicate EnvProblem(p: Problem, key: string, value: string) {
    p == if Trim(key) == "" then EmptyKey
         else if Trim(key) !in ALLOWED_ENV then KeyNotAllowed(Trim(key))
         else SuspiciousValue(Trim(key), value)
  }

  /** `validateTags` reports the first tag that is empty or repeats one before. */
  method ValidateTags(tags: array<string>) returns (r: Option<Problem>)
    ensures r.None? <==> ValidTags(tags[..])
    ensures r.Some? ==> exists i | 0 <= i < tags.Length ::
              ValidTags(tags[..i]) && !ValidTags(tags[..i + 1]) && TagProblem(r.value, tags[i])
  {
    hide Trim;
    var seen: set<string> := {};
    for i := 0 to tags.Length
      invariant seen == TagSet(tags[..i])
      invariant ValidTags(tags[..i])
    {
      var tag := Trim(tags[i]);
      OneMoreTag(tags[..i], tags[i]);
      assert tags[..i + 1] == tags[..i] + [tags[i]];
      if tag == "" || tag in seen {
        PrefixTagsValid(tags[..], i + 1);
        return Some(if tag == "" then EmptyTag else DuplicateTag(tag));
      }
      seen := seen + {tag};
    }
    assert tags[..] == tags[..tags.Length];
    return None;
  }

  lemma OneMoreTag(tags: seq<string>, tag: string)
    ensures TagSet(tags + [tag]) == TagSet(tags) + {Trim(tag)}
    ensures ValidTags(tags + [tag]) <==> ValidTags(tags) && Trim(tag) != "" && Trim(tag) !in TagSet(tags)
  {
    hide Trim;
    assert TagSet([tag]) == {Trim(tag)} by {
      assert [tag][0] == tag;
    }
    JoinedTagsValidIff(tags, [tag]);
    var all := tags + [tag];
    assert all[|tags|] == tag;
    assert forall i :: 0 <= i < |tags| ==> all[i] == tags[i];
  }

  lemma PrefixTagsValid(tags: seq<string>, n: nat)
    requires n <= |tags|
    ensures ValidTags(tags) ==> ValidTags(tags[..n])
  {
    JoinedTagsValidIff(tags[..n], tags[n..]);
    assert tags[..n] + tags[n..] == tags;
  }

  /** `validateLDFlags` reports the first invalid flag. */
  method ValidateLDFlags(flags: array<string>) returns (r: Option<Problem>)
    ensures r.None? <==> ValidFlags(flags[..])
    ensures r.Some? ==> exists i | 0 <= i < flags.Length ::
              ValidFlags(flags[..i]) && !ValidFlag(flags[i]) && FlagProblem(r.value, flags[i])
  {
    hide Trim, Lower, Contains;
    for i := 0 to flags.Length
      invariant ValidFlags(flags[..i])
    {
      var flag := Trim(flags[i]);
      if flag == "" {
        return Some(EmptyFlag);
      }
      if flag[0] != '-' {
        return Some(FlagWithoutHyphen(flag));
      }
      for k := 0 to |DANGEROUS|
        invariant forall j :: 0 <= j < k ==> !Contains(Lower(flag), DANGEROUS[j])
      {
        if Contains(Lower(flag), DANGEROUS[k]) {
          return Some(DangerousFlag(flag, DANGEROUS[k]));
        }
      }
      assert ValidFlag(flags[i]);
    }
    return None;
  }

  /** `validateEnv` reports some invalid variable, if there is one; which one
      depends on the order in which the map yields its keys. */
  method ValidateEnv(env: EnvMap) returns (r: Option<Problem>)
    ensures r.None? <==> ValidEnv(env.entries)
    ensures r.Some? ==> exists k | k in env.entries ::
              !ValidVariable(k, env.entries[k]) && EnvProblem(r.value, k, env.entries[k])
  {
    hide Trim, Clear;
    var remaining := env.entries.Keys;
    while remaining != {}
      invariant remaining <= env.entries.Keys
      invariant forall k :: k in env.entries && k !in remaining ==> ValidVariable(k, env.entries[k])
      decreases |remaining|
    {
      var k :| k in remaining;
      remaining := remaining - {k};
      var key, value := Trim(k), env.entries[k];
      if key == "" {
        return Some(EmptyKey);
      }
      if key !in ALLOWED_ENV {
        return Some(KeyNotAllowed(key));
      }
      if !Clear(value, SUSPICIOUS) {
        return Some(SuspiciousValue(key, value));
      }
    }
    return None;
  }

  /** `Validate`: the tags are checked first, then the flags, then the
      variables. A missing configuration is valid. */
  method Validate(c: Config?) returns (r: Option<Problem>)
    ensures r.None? <==> Valid(Value(ContentsOf(c)))
    ensures r.Some? ==> c != null
    ensures r.Some? ==> (r.value.EmptyTag? || r.value.DuplicateTag? <==> !ValidTags(c.tags[..]))
    ensures r.Some? && ValidTags(c.tags[..]) ==>
              (r.value.EmptyFlag? || r.value.FlagWithoutHyphen? || r.value.DangerousFlag?
               <==> !ValidFlags(c.ldflags[..]))
  {
    hide ValidFlag, ValidVariable;
    if c == null {
      return None;
    }
    r := ValidateTags(c.tags);
    if r.Some? { return; }
    r := ValidateLDFlags(c.ldflags);
    if r.Some? { return; }
    r := ValidateEnv(c.env);
  }
}
