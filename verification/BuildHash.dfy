/** The bytes a build configuration feeds to its hash
    (pkg/network/build_config.go:298-342). */
module BuildHash {
  import opened Outcomes
  import opened Sequences
  import opened SortedStrings
  import opened Trimming
  import opened BuildContents

  function Prefixed(prefix: string, items: seq<string>): (r: seq<string>)
    ensures |r| == |items|
  {
    seq(|items|, i requires 0 <= i < |items| => prefix + items[i])
  }

  function Assignment(key: string, value: string): string {
    key + ("=" + value)
  }

  function Assignments(keys: seq<string>, env: map<string, string>): (r: seq<string>)
    requires forall i :: 0 <= i < |keys| ==> keys[i] in env
    ensures |r| == |keys|
  {
    seq(|keys|, i requires 0 <= i < |keys| => Assignment(keys[i], env[keys[i]]))
  }

  /** The variables in key order, one "key=value" each. */
  ghost function Variables(env: map<string, string>): seq<string>
  {
    ListingMembers(env.Keys);
    Assignments(Listing(env.Keys), env)
  }

  /** The lines of the hash input. */
  ghost function Lines(c: Contents): seq<string> {
    Prefixed("tag:", Sort(c.tags))
    + (Prefixed("ldflag:", Sort(c.ldflags))
    + (Prefixed("env:", Variables(c.env))
    + Prefixed("arg:", Sort(c.extraArgs))))
  }

  /** Lines, each ended by a newline. */
  function Text(lines: seq<string>): string
  {
    if lines == [] then "" else lines[0] + ("\n" + Text(lines[1..]))
  }

  ghost function HashInput(c: Contents): string {
    Text(Lines(c))
  }

  /** `IsEmpty`. */
  predicate IsEmpty(c: Contents) {
    c.tags == [] && c.ldflags == [] && c.env == map[] && c.extraArgs == []
  }

  /** `Hash`, for a digest that stands for the first half of SHA-256 in
      hexadecimal. */
  ghost function Hash(c: Option<Contents>, digest: string -> string): string {
    if IsEmpty(Value(c)) then "empty" else digest(HashInput(Value(c)))
  }

  // -------------------------------------------------------------- reading back

  predicate Free(s: string, c: char) {
    forall i :: 0 <= i < |s| ==> s[i] != c
  }

  /** What stands before the first separator is determined. */
  lemma CutUnique(x: string, p: string, y: string, q: string, c: char)
    requires Free(x, c) && Free(y, c)
    requires x + ([c] + p) == y + ([c] + q)
    ensures x == y && p == q
  {
    var s := x + ([c] + p);
    assert forall i :: 0 <= i < |x| ==> s[i] == x[i];
    assert forall i :: 0 <= i < |y| ==> s[i] == y[i];
    assert s[|x|] == c && s[|y|] == c;
    assert x == s[..|x|] && y == s[..|y|];
    assert p == s[|x| + 1..] && q == s[|y| + 1..];
  }

  /** A text of newline-free lines is the text of no other such lines. */
  lemma {:induction false} TextInjective(a: seq<string>, b: seq<string>)
    requires forall i :: 0 <= i < |a| ==> Free(a[i], '\n')
    requires forall i :: 0 <= i < |b| ==> Free(b[i], '\n')
    requires Text(a) == Text(b)
    ensures a == b
  {
    assert a != [] ==> |Text(a)| > 0;
    assert b != [] ==> |Text(b)| > 0;
    if a != [] {
      CutUnique(a[0], Text(a[1..]), b[0], Text(b[1..]), '\n');
      TextInjective(a[1..], b[1..]);
      assert a == [a[0]] + a[1..] && b == [b[0]] + b[1..];
    }
  }

  lemma {:induction false} TextAppend(a: seq<string>, b: seq<string>)
    ensures Text(a + b) == Text(a) + Text(b)
  {
    if a == [] {
      assert a + b == b;
    } else {
      TextAppend(a[1..], b);
      assert (a + b)[1..] == a[1..] + b;
      Regroup(a[0], "\n" + Text(a[1..]), Text(b));
      Regroup("\n", Text(a[1..]), Text(b));
    }
  }

  ghost predicate AllStart(lines: seq<string>, c: char) {
    forall i :: 0 <= i < |lines| ==> lines[i] != "" && lines[i][0] == c
  }

  ghost predicate NoneStart(lines: seq<string>, c: char) {
    forall i :: 0 <= i < |lines| ==> lines[i] != "" && lines[i][0] != c
  }

  /** Sections with different first letters can be told apart. */
  lemma SectionUnique(a: seq<string>, rest: seq<string>, b: seq<string>, other: seq<string>, c: char)
    requires AllStart(a, c) && AllStart(b, c) && NoneStart(rest, c) && NoneStart(other, c)
    requires a + rest == b + other
    ensures a == b && rest == other
  {
    var s := a + rest;
    assert forall i :: 0 <= i < |a| ==> s[i] == a[i];
    assert forall i :: 0 <= i < |b| ==> s[i] == b[i];
    assert |a| < |s| ==> s[|a|] == rest[0];
    assert |b| < |s| ==> s[|b|] == other[0];
    assert a == s[..|a|] && b == s[..|b|] && rest == s[|a|..] && other == s[|b|..];
  }

  lemma PrefixedInjective(prefix: string, a: seq<string>, b: seq<string>)
    requires Prefixed(prefix, a) == Prefixed(prefix, b)
    ensures a == b
  {
    forall i | 0 <= i < |a|
      ensures a[i] == b[i]
    {
      assert prefix + a[i] == Prefixed(prefix, a)[i] == Prefixed(prefix, b)[i] == prefix + b[i];
      assert a[i] == (prefix + a[i])[|prefix|..];
    }
  }

  /** With '='-free keys the list of assignments determines the variables. */
  lemma VariablesInjective(d: map<string, string>, e: map<string, string>)
    requires forall k :: k in d ==> Free(k, '=')
    requires forall k :: k in e ==> Free(k, '=')
    requires Variables(d) == Variables(e)
    ensures d == e
  {
    hide Free, Listing, Assignments;
    var ds, es := Listing(d.Keys), Listing(e.Keys);
    ListingMembers(d.Keys);
    ListingMembers(e.Keys);
    AssignmentsInjective(ds, d, es, e);
    assert forall k :: k in d.Keys <==> k in ds;
    assert d.Keys == e.Keys;
  }

  lemma AssignmentsInjective(ds: seq<string>, d: map<string, string>, es: seq<string>, e: map<string, string>)
    requires forall i :: 0 <= i < |ds| ==> ds[i] in d && Free(ds[i], '=')
    requires forall i :: 0 <= i < |es| ==> es[i] in e && Free(es[i], '=')
    requires Assignments(ds, d) == Assignments(es, e)
    ensures ds == es && forall k :: k in ds ==> d[k] == e[k]
  {
    hide Free;
    forall i | 0 <= i < |ds|
      ensures ds[i] == es[i] && d[ds[i]] == e[es[i]]
    {
      assert Assignments(ds, d)[i] == Assignments(es, e)[i];
      CutUnique(ds[i], d[ds[i]], es[i], e[es[i]], '=');
    }
  }

  // ------------------------------------------------------------- the main claim

  ghost predicate CleanItems(items: seq<string>) {
    forall i :: 0 <= i < |items| ==> Free(items[i], '\n')
  }

  /** No newline anywhere and no '=' in a key. */
  ghost predicate Clean(c: Contents) {
    && CleanItems(c.tags) && CleanItems(c.ldflags) && CleanItems(c.extraArgs)
    && (forall k :: k in c.env ==> Free(k, '\n') && Free(k, '=') && Free(c.env[k], '\n'))
  }

  /** Equal up to the order of tags, flags and arguments. */
  ghost predicate Same(c: Contents, d: Contents) {
    && multiset(c.tags) == multiset(d.tags)
    && multiset(c.ldflags) == multiset(d.ldflags)
    && multiset(c.extraArgs) == multiset(d.extraArgs)
    && c.env == d.env
  }

  /** Two configurations that are equal up to order are hashed from the same
      bytes. */
  lemma SameHashInput(c: Contents, d: Contents)
    requires Same(c, d)
    ensures HashInput(c) == HashInput(d)
  {
    SameLines(c, d);
  }

  lemma SameLines(c: Contents, d: Contents)
    requires Same(c, d)
    ensures Lines(c) == Lines(d)
  {
    hide Sort, Prefixed, Variables;
    SortCanonical(c.tags, d.tags);
    SortCanonical(c.ldflags, d.ldflags);
    SortCanonical(c.extraArgs, d.extraArgs);
  }

  /** One line per tag, flag, variable and argument. */
  lemma LineCount(c: Contents)
    ensures |Lines(c)| == |c.tags| + |c.ldflags| + |c.env| + |c.extraArgs|
  {
    SortedLength(c.tags);
    SortedLength(c.ldflags);
    SortedLength(c.extraArgs);
    var keys := Listing(c.env.Keys);
    assert |keys| == |multiset(keys)| == |multiset(c.env.Keys)| == |c.env.Keys| == |c.env|;
  }

  lemma SortedLength(items: seq<string>)
    ensures |Sort(items)| == |items|
  {
    assert |Sort(items)| == |multiset(Sort(items))| == |multiset(items)| == |items|;
  }

  lemma SortedClean(items: seq<string>, prefix: string)
    requires CleanItems(items) && Free(prefix, '\n')
    ensures CleanItems(Prefixed(prefix, Sort(items)))
  {
    var sorted := Sort(items);
    forall i | 0 <= i < |sorted|
      ensures Free(Prefixed(prefix, sorted)[i], '\n')
    {
      assert sorted[i] in multiset(sorted);
      assert sorted[i] in items;
    }
  }

  lemma VariablesClean(env: map<string, string>)
    requires forall k :: k in env ==> Free(k, '\n') && Free(env[k], '\n')
    ensures CleanItems(Prefixed("env:", Variables(env)))
  {
    assert Free("=", '\n') && Free("env:", '\n');
    hide Free, Listing;
    var keys := Listing(env.Keys);
    ListingMembers(env.Keys);
    forall i | 0 <= i < |keys|
      ensures Free(Prefixed("env:", Variables(env))[i], '\n')
    {
      assert keys[i] in env;
      FreeJoin("=", env[keys[i]], '\n');
      FreeJoin(keys[i], "=" + env[keys[i]], '\n');
      FreeJoin("env:", Assignment(keys[i], env[keys[i]]), '\n');
    }
  }

  lemma FreeJoin(a: string, b: string, c: char)
    requires Free(a, c) && Free(b, c)
    ensures Free(a + b, c)
  {
  }

  lemma LinesClean(c: Contents)
    requires Clean(c)
    ensures CleanItems(Lines(c))
  {
    hide Prefixed, Variables, Sort;
    SortedClean(c.tags, "tag:");
    SortedClean(c.ldflags, "ldflag:");
    SortedClean(c.extraArgs, "arg:");
    VariablesClean(c.env);
  }

  lemma PrefixedStart(prefix: string, items: seq<string>)
    requires prefix != ""
    ensures AllStart(Prefixed(prefix, items), prefix[0])
    ensures forall c :: c != prefix[0] ==> NoneStart(Prefixed(prefix, items), c)
  {
  }

  /** The lines determine the configuration up to order. */
  lemma LinesInjective(c: Contents, d: Contents)
    requires forall k :: k in c.env ==> Free(k, '=')
    requires forall k :: k in d.env ==> Free(k, '=')
    requires Lines(c) == Lines(d)
    ensures Same(c, d)
  {
    hide Prefixed, Variables, Sort, Free;
    var t, f, e, a := Prefixed("tag:", Sort(c.tags)), Prefixed("ldflag:", Sort(c.ldflags)),
      Prefixed("env:", Variables(c.env)), Prefixed("arg:", Sort(c.extraArgs));
    var t', f', e', a' := Prefixed("tag:", Sort(d.tags)), Prefixed("ldflag:", Sort(d.ldflags)),
      Prefixed("env:", Variables(d.env)), Prefixed("arg:", Sort(d.extraArgs));
    PrefixedStart("tag:", Sort(c.tags));
    PrefixedStart("tag:", Sort(d.tags));
    PrefixedStart("ldflag:", Sort(c.ldflags));
    PrefixedStart("ldflag:", Sort(d.ldflags));
    PrefixedStart("env:", Variables(c.env));
    PrefixedStart("env:", Variables(d.env));
    PrefixedStart("arg:", Sort(c.extraArgs));
    PrefixedStart("arg:", Sort(d.extraArgs));
    SectionUnique(t, f + (e + a), t', f' + (e' + a'), 't');
    SectionUnique(f, e + a, f', e' + a', 'l');
    SectionUnique(e, a, e', a', 'e');
    PrefixedInjective("tag:", Sort(c.tags), Sort(d.tags));
    PrefixedInjective("ldflag:", Sort(c.ldflags), Sort(d.ldflags));
    PrefixedInjective("env:", Variables(c.env), Variables(d.env));
    PrefixedInjective("arg:", Sort(c.extraArgs), Sort(d.extraArgs));
    SortCanonical(c.tags, d.tags);
    SortCanonical(c.ldflags, d.ldflags);
    SortCanonical(c.extraArgs, d.extraArgs);
    VariablesInjective(c.env, d.env);
  }

  /** Clean configurations are hashed from the same bytes exactly when they are
      equal up to order. */
  lemma HashInputCanonical(c: Contents, d: Contents)
    requires Clean(c) && Clean(d)
    ensures HashInput(c) == HashInput(d) <==> Same(c, d)
  {
    hide Lines, Text, Same;
    if Same(c, d) {
      SameHashInput(c, d);
    }
    if HashInput(c) == HashInput(d) {
      LinesClean(c);
      LinesClean(d);
      TextInjective(Lines(c), Lines(d));
      LinesInjective(c, d);
    }
  }

  /** Two clean configurations, present or not, have equal hashes exactly when
      they are equal up to order, or the digest collides on their two texts. */
  lemma HashMeaning(c: Option<Contents>, d: Option<Contents>, digest: string -> string)
    requires Clean(Value(c)) && Clean(Value(d))
    requires forall text :: |digest(text)| == 16
    ensures Hash(c, digest) == Hash(d, digest) <==>
            || Same(Value(c), Value(d))
            || (&& !IsEmpty(Value(c)) && !IsEmpty(Value(d))
                && HashInput(Value(c)) != HashInput(Value(d))
                && digest(HashInput(Value(c))) == digest(HashInput(Value(d))))
  {
    hide HashInput, Clean;
    var v, w := Value(c), Value(d);
    HashInputCanonical(v, w);
    SameEmptiness(v, w);
    assert |"empty"| == 5;
    assert |digest(HashInput(v))| == 16 && |digest(HashInput(w))| == 16;
  }

  lemma SameEmptiness(c: Contents, d: Contents)
    ensures Same(c, d) ==> (IsEmpty(c) <==> IsEmpty(d))
    ensures IsEmpty(c) && IsEmpty(d) ==> Same(c, d)
  {
    if Same(c, d) {
      assert |c.tags| == |multiset(c.tags)| == |multiset(d.tags)| == |d.tags|;
      assert |c.ldflags| == |multiset(c.ldflags)| == |multiset(d.ldflags)| == |d.ldflags|;
      assert |c.extraArgs| == |multiset(c.extraArgs)| == |multiset(d.extraArgs)| == |d.extraArgs|;
    }
  }

  lemma MergedClean(c: Contents, d: Contents)
    requires Clean(c) && Clean(d)
    ensures Clean(Merged(c, d))
  {
    hide Free;
  }

  lemma SwappedSameIff(c: Contents, d: Contents)
    ensures Same(Merged(c, d), Merged(d, c)) <==>
            forall k :: k in c.env && k in d.env ==> c.env[k] == d.env[k]
  {
    var cd, dc := c.env + d.env, d.env + c.env;
    if forall k :: k in c.env && k in d.env ==> c.env[k] == d.env[k] {
      assert cd == dc;
    }
    assert forall k :: k in c.env && k in d.env ==> cd[k] == d.env[k] && dc[k] == c.env[k];
  }

  /** Merging in the other order gives the same hash input exactly when no
      variable has two different values. */
  lemma MergeOrderHashIff(c: Contents, d: Contents)
    requires Clean(c) && Clean(d)
    ensures HashInput(Merged(c, d)) == HashInput(Merged(d, c)) <==>
            forall k :: k in c.env && k in d.env ==> c.env[k] == d.env[k]
  {
    hide HashInput, Clean, Same;
    MergedClean(c, d);
    MergedClean(d, c);
    HashInputCanonical(Merged(c, d), Merged(d, c));
    SwappedSameIff(c, d);
  }

  // ------------------------------------------------------------ the text in letters

  lemma SortedOne(x: string)
    ensures Sort([x]) == [x]
  {
    assert [x][1..] == [];
    assert Sort([]) == [];
  }

  lemma PrefixedOne(prefix: string, x: string)
    ensures Prefixed(prefix, [x]) == [prefix + x]
  {
  }

  lemma LinesOfOne(tag: string, flag: string, key: string, value: string, arg: string)
    ensures Lines(Contents([tag], [flag], map[key := value], [arg]))
         == ["tag:" + tag] + (["ldflag:" + flag] + (["env:" + Assignment(key, value)] + ["arg:" + arg]))
  {
    SortedOne(tag);
    SortedOne(flag);
    SortedOne(arg);
    OneVariable(key, value);
    PrefixedOne("tag:", tag);
    PrefixedOne("ldflag:", flag);
    PrefixedOne("env:", Assignment(key, value));
    PrefixedOne("arg:", arg);
    hide Sort, Prefixed, Variables;
  }

  lemma TextOfFour(t: string, f: string, e: string, a: string)
    ensures Text([t] + ([f] + ([e] + [a]))) == (t + "\n") + ((f + "\n") + ((e + "\n") + (a + "\n")))
  {
    TextOfOne(t);
    TextOfOne(f);
    TextOfOne(e);
    TextOfOne(a);
    hide Text;
    TextAppend([t], [f] + ([e] + [a]));
    TextAppend([f], [e] + [a]);
    TextAppend([e], [a]);
  }

  /** What is hashed for one entry of each kind. */
  lemma HashedText(tag: string, flag: string, key: string, value: string, arg: string)
    ensures HashInput(Contents([tag], [flag], map[key := value], [arg]))
         == ("tag:" + tag + "\n") + (("ldflag:" + flag + "\n") + (("env:" + key + "=" + value + "\n") + ("arg:" + arg + "\n")))
  {
    hide Lines, Text;
    LinesOfOne(tag, flag, key, value, arg);
    TextOfFour("tag:" + tag, "ldflag:" + flag, "env:" + Assignment(key, value), "arg:" + arg);
    Regroup("env:" + key, "=", value);
    Regroup("env:", key, "=" + value);
  }

  /** Entries of one kind are hashed in ascending order. */
  lemma HashedInOrder(x: string, y: string)
    requires Leq(x, y)
    ensures Sort([x, y]) == [x, y] && Sort([y, x]) == [x, y]
  {
    hide Leq;
    LeqTotal(x, x);
    assert IsSorted([x, y]);
    SortedIsFixed([x, y]);
    assert multiset([x, y]) == multiset([y, x]);
    SortCanonical([x, y], [y, x]);
  }

  // ------------------------------------------------ every longer text is shared

  function Front<T>(s: seq<T>): seq<T>
    requires s != []
  {
    s[..|s| - 1]
  }

  function Last<T>(s: seq<T>): T
    requires s != []
  {
    s[|s| - 1]
  }

  /** The list with text added to its last item. */
  function Extended(s: seq<string>, text: string): seq<string>
    requires s != []
  {
    Front(s) + [Last(s) + text]
  }

  lemma SortedIsFixed(s: seq<string>)
    requires IsSorted(s)
    ensures Sort(s) == s
  {
    SortSorts(s);
    SortedUnique(Sort(s), s);
  }

  lemma {:induction false} LeqExtended(s: string, text: string)
    ensures Leq(s, s + text)
  {
    if s != "" {
      LeqExtended(s[1..], text);
      assert (s + text)[1..] == s[1..] + text;
    }
  }

  /** Sorted lists stay sorted without the last item and with more text in it. */
  lemma SortedEnds(s: seq<string>, text: string)
    requires IsSorted(s) && s != []
    ensures IsSorted(Front(s)) && IsSorted(Extended(s, text))
  {
    hide Leq;
    LeqExtended(Last(s), text);
    forall i | 0 <= i < |s| - 1
      ensures Leq(s[i], Last(s) + text)
    {
      LeqTransitive(s[i], Last(s), Last(s) + text);
    }
  }

  lemma SortOfEnds(items: seq<string>, text: string)
    requires items != []
    ensures Sort(items) != []
    ensures Sort(Front(Sort(items))) == Front(Sort(items))
    ensures Sort(Extended(Sort(items), text)) == Extended(Sort(items), text)
  {
    hide Leq, IsSorted;
    var sorted := Sort(items);
    assert |sorted| == |multiset(sorted)| == |multiset(items)| == |items|;
    SortSorts(items);
    SortedEnds(sorted, text);
    SortedIsFixed(Front(sorted));
    SortedIsFixed(Extended(sorted, text));
  }

  lemma PrefixedEnds(prefix: string, items: seq<string>, text: string)
    requires items != []
    ensures Prefixed(prefix, Front(items)) == Front(Prefixed(prefix, items))
    ensures Prefixed(prefix, Extended(items, text)) == Extended(Prefixed(prefix, items), text)
  {
    Regroup(prefix, Last(items), text);
  }

  /** The variable that comes last in key order. */
  ghost function LastKey(env: map<string, string>): (key: string)
    requires env != map[]
    ensures key in env
  {
    ListingMembers(env.Keys);
    NonEmptyListing(env.Keys);
    Last(Listing(env.Keys))
  }

  lemma NonEmptyListing(members: set<string>)
    requires members != {}
    ensures Listing(members) != []
  {
    var x :| x in members;
    ListingMembers(members);
    assert x in Listing(members);
  }

  lemma SetWithout(members: set<string>, x: string)
    requires x in members
    ensures multiset(members) == multiset(members - {x}) + multiset{x}
  {
  }

  lemma FrontWithout(s: seq<string>)
    requires s != []
    ensures multiset(s) == multiset(Front(s)) + multiset{Last(s)}
  {
    assert s == Front(s) + [Last(s)];
  }

  lemma CancelOne(a: multiset<string>, b: multiset<string>, x: string)
    requires a + multiset{x} == b + multiset{x}
    ensures a == b
  {
    assert a == (a + multiset{x}) - multiset{x};
    assert b == (b + multiset{x}) - multiset{x};
  }

  lemma ListingWithoutLast(members: set<string>)
    requires members != {} && Listing(members) != []
    ensures Listing(members - {Last(Listing(members))}) == Front(Listing(members))
  {
    var all := Listing(members);
    ListingSorted(members);
    SortedEnds(all, "");
    ListingMembers(members);
    hide Leq, IsSorted, Listing, Front, Last;
    var x := Last(all);
    assert x in members by {
      LastIsMember(all);
    }
    ListingSorted(members - {x});
    SetWithout(members, x);
    FrontWithout(all);
    CancelOne(multiset(Front(all)), multiset(members - {x}), x);
    SortedUnique(Listing(members - {x}), Front(all));
  }

  lemma LastIsMember(s: seq<string>)
    requires s != []
    ensures Last(s) in s
  {
  }

  lemma VariablesWithoutLast(env: map<string, string>)
    requires env != map[]
    ensures Variables(env) != []
    ensures Variables(env - {LastKey(env)}) == Front(Variables(env))
  {
    hide Listing, Assignment;
    var keys := Listing(env.Keys);
    NonEmptyListing(env.Keys);
    ListingMembers(env.Keys);
    ListingWithoutLast(env.Keys);
    assert (env - {LastKey(env)}).Keys == env.Keys - {LastKey(env)};
  }

  lemma VariablesExtended(env: map<string, string>, text: string)
    requires env != map[]
    ensures Variables(env) != []
    ensures Variables(env[LastKey(env) := env[LastKey(env)] + text]) == Extended(Variables(env), text)
  {
    hide Listing;
    var keys, key := Listing(env.Keys), LastKey(env);
    NonEmptyListing(env.Keys);
    ListingMembers(env.Keys);
    assert env[key := env[key] + text].Keys == env.Keys;
    Regroup("=", env[key], text);
    Regroup(key, "=" + env[key], text);
    forall i | 0 <= i < |keys| - 1
      ensures keys[i] != key
    {
    }
  }

  /** The last line belongs to the last section that is not empty. */
  lemma FrontOfSum(a: seq<string>, b: seq<string>, text: string)
    requires b != []
    ensures Front(a + b) == a + Front(b) && Last(a + b) == Last(b)
    ensures Extended(a + b, text) == a + Extended(b, text)
  {
  }

  /** The configuration without its last line. */
  ghost function WithoutLast(c: Contents): Contents
    requires !IsEmpty(c)
  {
    if c.extraArgs != [] then SortOfEnds(c.extraArgs, ""); c.(extraArgs := Front(Sort(c.extraArgs)))
    else if c.env != map[] then c.(env := c.env - {LastKey(c.env)})
    else if c.ldflags != [] then SortOfEnds(c.ldflags, ""); c.(ldflags := Front(Sort(c.ldflags)))
    else SortOfEnds(c.tags, ""); c.(tags := Front(Sort(c.tags)))
  }

  /** The configuration with text added to its last line. */
  ghost function WithMore(c: Contents, text: string): Contents
    requires !IsEmpty(c)
  {
    if c.extraArgs != [] then SortOfEnds(c.extraArgs, ""); c.(extraArgs := Extended(Sort(c.extraArgs), text))
    else if c.env != map[] then c.(env := c.env[LastKey(c.env) := c.env[LastKey(c.env)] + text])
    else if c.ldflags != [] then SortOfEnds(c.ldflags, ""); c.(ldflags := Extended(Sort(c.ldflags), text))
    else SortOfEnds(c.tags, ""); c.(tags := Extended(Sort(c.tags), text))
  }

  /** Changing the last section changes the last line. */
  lemma LastSection(t: seq<string>, f: seq<string>, e: seq<string>, a: seq<string>, text: string)
    ensures a != [] ==> Front(t + (f + (e + a))) == t + (f + (e + Front(a)))
                        && Extended(t + (f + (e + a)), text) == t + (f + (e + Extended(a, text)))
    ensures a == [] && e != [] ==> Front(t + (f + (e + a))) == t + (f + (Front(e) + a))
                                   && Extended(t + (f + (e + a)), text) == t + (f + (Extended(e, text) + a))
    ensures a == e == [] && f != [] ==> Front(t + (f + (e + a))) == t + (Front(f) + (e + a))
                                        && Extended(t + (f + (e + a)), text) == t + (Extended(f, text) + (e + a))
    ensures a == e == f == [] && t != [] ==> Front(t + (f + (e + a))) == Front(t) + (f + (e + a))
                                             && Extended(t + (f + (e + a)), text) == Extended(t, text) + (f + (e + a))
  {
    hide Front, Last, Extended;
    if a != [] {
      FrontOfSum(e, a, text);
      FrontOfSum(f, e + a, text);
      FrontOfSum(t, f + (e + a), text);
    } else if e != [] {
      assert e + a == e;
      FrontOfSum(f, e, text);
      FrontOfSum(t, f + e, text);
      assert Front(e) + a == Front(e) && Extended(e, text) + a == Extended(e, text);
    } else if f != [] {
      assert f + (e + a) == f;
      FrontOfSum(t, f, text);
      assert Front(f) + (e + a) == Front(f) && Extended(f, text) + (e + a) == Extended(f, text);
    } else if t != [] {
      assert t + (f + (e + a)) == t;
      assert Front(t) + (f + (e + a)) == Front(t) && Extended(t, text) + (f + (e + a)) == Extended(t, text);
    }
  }

  lemma SectionOfItems(prefix: string, items: seq<string>, text: string)
    ensures items == [] <==> Prefixed(prefix, Sort(items)) == []
    ensures items != [] ==>
              && Sort(items) != []
              && Prefixed(prefix, Sort(Front(Sort(items)))) == Front(Prefixed(prefix, Sort(items)))
              && Prefixed(prefix, Sort(Extended(Sort(items), text))) == Extended(Prefixed(prefix, Sort(items)), text)
  {
    if items != [] {
      SortOfEnds(items, text);
      PrefixedEnds(prefix, Sort(items), text);
    }
  }

  lemma SectionOfVariables(env: map<string, string>, text: string)
    ensures env == map[] <==> Prefixed("env:", Variables(env)) == []
    ensures env != map[] ==>
              && Prefixed("env:", Variables(env - {LastKey(env)})) == Front(Prefixed("env:", Variables(env)))
              && Prefixed("env:", Variables(env[LastKey(env) := env[LastKey(env)] + text]))
                 == Extended(Prefixed("env:", Variables(env)), text)
  {
    hide Variables;
    if env == map[] {
      NoVariables();
    } else {
      VariablesWithoutLast(env);
      VariablesExtended(env, text);
      PrefixedEnds("env:", Variables(env), text);
    }
  }

  lemma NoVariables()
    ensures Variables(map[]) == []
  {
    var env: map<string, string> := map[];
    assert env.Keys == {};
  }

  lemma LastLine(c: Contents, text: string)
    requires !IsEmpty(c)
    ensures Lines(c) != []
    ensures Lines(WithoutLast(c)) == Front(Lines(c))
    ensures Lines(WithMore(c, text)) == Extended(Lines(c), text)
  {
    hide Prefixed, Variables, Sort, Front, Extended, LastKey;
    SectionOfItems("tag:", c.tags, text);
    SectionOfItems("ldflag:", c.ldflags, text);
    SectionOfItems("arg:", c.extraArgs, text);
    SectionOfVariables(c.env, text);
    LastSection(Prefixed("tag:", Sort(c.tags)), Prefixed("ldflag:", Sort(c.ldflags)),
                Prefixed("env:", Variables(c.env)), Prefixed("arg:", Sort(c.extraArgs)), text);
  }

  lemma EmptyHasNoLines(c: Contents)
    ensures IsEmpty(c) ==> Lines(c) == []
  {
    if IsEmpty(c) {
      NoVariables();
    }
  }

  /** The last two lines glued into one. */
  ghost function Glued(c: Contents): Contents
    requires |Lines(c)| >= 2
  {
    EmptyHasNoLines(c);
    LastLine(c, "");
    EmptyHasNoLines(WithoutLast(c));
    WithMore(WithoutLast(c), "\n" + Last(Lines(c)))
  }

  /** Every configuration of two or more lines shares its hash input with another
      one that has different contents: cleanliness of both is needed. */
  lemma LongerTextIsShared(c: Contents)
    requires |c.tags| + |c.ldflags| + |c.env| + |c.extraArgs| >= 2
    ensures |Lines(c)| >= 2
    ensures HashInput(Glued(c)) == HashInput(c) && !Same(Glued(c), c)
  {
    LineCount(c);
    hide Lines, WithoutLast, WithMore, Text;
    var lines := Lines(c);
    var more := "\n" + Last(lines);
    EmptyHasNoLines(c);
    LastLine(c, "");
    EmptyHasNoLines(WithoutLast(c));
    LastLine(WithoutLast(c), more);
    GluedText(Front(lines), Last(lines));
    assert Front(lines) + [Last(lines)] == lines;
    if Same(Glued(c), c) {
      SameLines(Glued(c), c);
    }
  }

  lemma GluedText(lines: seq<string>, line: string)
    requires lines != []
    ensures Text(Extended(lines, "\n" + line)) == Text(lines + [line])
  {
    var front, last := Front(lines), Last(lines);
    assert lines + [line] == front + [last, line];
    TextAppend(front, [last + ("\n" + line)]);
    TextAppend(front, [last, line]);
    TextOfOne(last + ("\n" + line));
    TextOfOne(line);
    assert [last, line][1..] == [line];
    Regroup(last, "\n" + line, "\n");
    Regroup("\n", line, "\n");
  }

  lemma TextOfOne(line: string)
    ensures Text([line]) == line + "\n"
  {
    assert Text([]) == "";
  }

  // -------------------------------------------------- where cleanliness is needed

  /** Valid configurations need not be clean: a newline inside a tag reads as two
      tags. */
  lemma NewlineCollides()
    ensures var c, d := Contents(["a\ntag:b"], [], map[], []), Contents(["a", "b"], [], map[], []);
            Valid(c) && Valid(d) && HashInput(c) == HashInput(d) && !Same(c, d)
  {
    hide HashInput, Sort, Text, Prefixed;
    var c, d := Contents(["a\ntag:b"], [], map[], []), Contents(["a", "b"], [], map[], []);
    CollidingTexts();
    CollidingValid();
    assert |multiset(c.tags)| == 1 && |multiset(d.tags)| == 2;
  }

  lemma CollidingTexts()
    ensures HashInput(Contents(["a\ntag:b"], [], map[], [])) == HashInput(Contents(["a", "b"], [], map[], []))
  {
    hide HashInput, Prefixed, Leq, Variables, Lines;
    NothingElse(Contents(["a\ntag:b"], [], map[], []));
    NothingElse(Contents(["a", "b"], [], map[], []));
    SortedPair("a", "b");
    TagLines("a\ntag:b");
    TagLinePair("a", "b");
    assert Sort(["a\ntag:b"]) == ["a\ntag:b"];
  }

  lemma SortedPair(x: string, y: string)
    requires |x| == |y| == 1 && x[0] < y[0]
    ensures Sort([x, y]) == [x, y]
  {
    assert [x, y][1..] == [y] && [y][1..] == [];
    assert Sort([y]) == [y];
    assert Leq(x, y);
  }

  lemma TagLines(x: string)
    ensures Text(Prefixed("tag:", [x])) == "tag:" + x + "\n"
  {
    assert Prefixed("tag:", [x]) == ["tag:" + x];
    assert Text([]) == "";
  }

  lemma TagLinePair(x: string, y: string)
    ensures Text(Prefixed("tag:", [x, y])) == "tag:" + x + "\n" + "tag:" + y + "\n"
  {
    assert Prefixed("tag:", [x, y]) == ["tag:" + x] + ["tag:" + y];
    TextAppend(["tag:" + x], ["tag:" + y]);
    assert Text([]) == "";
  }

  lemma CollidingValid()
    ensures Valid(Contents(["a\ntag:b"], [], map[], [])) && Valid(Contents(["a", "b"], [], map[], []))
  {
    hide Trim;
    TrimPlain("a\ntag:b");
    TrimPlain("a");
    TrimPlain("b");
  }

  /** A configuration of tags only. */
  lemma NothingElse(c: Contents)
    requires c.ldflags == [] && c.env == map[] && c.extraArgs == []
    ensures HashInput(c) == Text(Prefixed("tag:", Sort(c.tags)))
  {
    assert Variables(c.env) == [];
    assert Lines(c) == Prefixed("tag:", Sort(c.tags));
  }

  /** An '=' in a key moves the border between key and value; such a key is not
      valid. */
  lemma EqualsSignCollides()
    ensures var c, d := Contents([], [], map["a" := "b=c"], []), Contents([], [], map["a=b" := "c"], []);
            HashInput(c) == HashInput(d) && !Same(c, d) && !Valid(d)
  {
    hide Prefixed, Text, Sort, Variables, Trim;
    var c, d := Contents([], [], map["a" := "b=c"], []), Contents([], [], map["a=b" := "c"], []);
    OneVariable("a", "b=c");
    OneVariable("a=b", "c");
    assert Assignment("a", "b=c") == "a=b=c" == Assignment("a=b", "c");
    assert "a" in c.env && "a" !in d.env;
    TrimPlain("a=b");
    assert "a=b" in d.env;
  }

  lemma OneVariable(key: string, value: string)
    ensures Variables(map[key := value]) == [Assignment(key, value)]
  {
    var env := map[key := value];
    var keys := Listing(env.Keys);
    assert env.Keys == {key};
    assert |keys| == |multiset(keys)| == |multiset({key})| == 1;
    assert keys[0] in multiset(keys);
    assert keys == [key];
  }

  /** For a valid configuration only newlines in tags, flags, arguments and keys
      can make it unclean. */
  lemma ValidIsCleanIff(c: Contents)
    requires Valid(c)
    ensures Clean(c) <==>
            && CleanItems(c.tags) && CleanItems(c.ldflags) && CleanItems(c.extraArgs)
            && forall k :: k in c.env ==> Free(k, '\n')
  {
    forall k | k in c.env
      ensures Free(k, '=') && Free(c.env[k], '\n')
    {
      assert ValidVariable(k, c.env[k]);
      TrimmedChars(k);
      AllowedHasNoEquals(Trim(k));
      forall i | 0 <= i < |k|
        ensures k[i] != '='
      {
        assert IsSpace(k[i]) || k[i] in Trim(k);
      }
      assert SUSPICIOUS[5] == '\n';
    }
  }

  lemma AllowedHasNoEquals(name: string)
    requires name in ALLOWED_ENV
    ensures '=' !in name
  {
  }
}
