/** What a build configuration holds, how two are merged and when one is valid
    (pkg/network/build_config.go:27-273). */
module BuildContents {
  import opened Outcomes
  import opened Sequences
  import opened Trimming

  datatype Contents = Contents(tags: seq<string>, ldflags: seq<string>, env: map<string, string>,
                               extraArgs: seq<string>)

  const EMPTY := Contents([], [], map[], [])

  /** A missing configuration counts as the empty one. */
  function Value(c: Option<Contents>): Contents {
    if c.Some? then c.value else EMPTY
  }

  function Merged(base: Contents, other: Contents): Contents {
    Contents(base.tags + other.tags, base.ldflags + other.ldflags,
             base.env + other.env, base.extraArgs + other.extraArgs)
  }

  /** `Merge`, where either side may be missing. */
  function Merge(base: Option<Contents>, other: Option<Contents>): Contents {
    match (base, other)
    case (None, None) => EMPTY
    case (None, Some(o)) => o
    case (Some(b), None) => b
    case (Some(b), Some(o)) => Merged(b, o)
  }

  /** A missing and an empty side are both neutral. */
  lemma MergeNeutral(c: Option<Contents>)
    ensures Merge(c, None) == Merge(None, c) == Value(c)
    ensures Merge(c, Some(EMPTY)) == Merge(Some(EMPTY), c) == Value(c)
  {
    var v := Value(c);
    assert v.env + map[] == v.env && map[] + v.env == v.env;
  }

  /** Two present sides: every list starts with the base's and goes on with the
      other's; a variable of the other side wins, any other is the base's. */
  lemma MergeKeepsOrder(base: Contents, other: Contents)
    ensures var r := Merge(Some(base), Some(other));
            && Continues(base.tags, other.tags, r.tags)
            && Continues(base.ldflags, other.ldflags, r.ldflags)
            && Continues(base.extraArgs, other.extraArgs, r.extraArgs)
            && (forall k :: k in r.env <==> k in base.env || k in other.env)
            && (forall k :: k in other.env ==> r.env[k] == other.env[k])
            && (forall k :: k in base.env && k !in other.env ==> r.env[k] == base.env[k])
  {
  }

  ghost predicate Continues(first: seq<string>, second: seq<string>, all: seq<string>) {
    |all| == |first| + |second| && all[..|first|] == first && all[|first|..] == second
  }

  /** A missing side adds nothing; two missing sides give nothing. */
  lemma MergeWithMissing(c: Contents)
    ensures Merge(Some(c), None) == c && Merge(None, Some(c)) == c
    ensures var r := Merge(None, None); |r.tags| + |r.ldflags| + |r.env| + |r.extraArgs| == 0
  {
  }

  lemma MergedAssociative(x: Contents, y: Contents, z: Contents)
    ensures Merged(Merged(x, y), z) == Merged(x, Merged(y, z))
  {
    Regroup(x.tags, y.tags, z.tags);
    Regroup(x.ldflags, y.ldflags, z.ldflags);
    Regroup(x.extraArgs, y.extraArgs, z.extraArgs);
    OverridesAssociative(x.env, y.env, z.env);
  }

  lemma OverridesAssociative(x: map<string, string>, y: map<string, string>, z: map<string, string>)
    ensures (x + y) + z == x + (y + z)
  {
  }

  lemma MergeAssociative(a: Option<Contents>, b: Option<Contents>, c: Option<Contents>)
    ensures Merge(Some(Merge(a, b)), c) == Merge(a, Some(Merge(b, c)))
  {
    hide Merged;
    if a.Some? && b.Some? && c.Some? {
      MergedAssociative(a.value, b.value, c.value);
    } else {
      MergeNeutral(a);
      MergeNeutral(c);
      MergeNeutral(Some(Merge(b, c)));
    }
  }

  // --------------------------------------------------------------- validation

  /** Lower case as far as the patterns below can tell: the code points beyond
      ASCII that have an ASCII lower case, of the letters i and k, are in none of
      them. */
  function LowerChar(c: char): char {
    if 'A' <= c <= 'Z' then (c as int + 32) as char else c
  }

  function Lower(s: string): string {
    seq(|s|, i requires 0 <= i < |s| => LowerChar(s[i]))
  }

  predicate FoundAt(s: string, part: string, i: nat) {
    i + |part| <= |s| && s[i..i + |part|] == part
  }

  predicate Contains(s: string, part: string) {
    exists i: nat | i <= |s| :: FoundAt(s, part, i)
  }

  const DANGEROUS: seq<string> := ["--exec", "--run", "--command", "../"]
  const SUSPICIOUS: string := "$`;|&\n"
  const ALLOWED_ENV: set<string> := {
    "CGO_ENABLED", "GOOS", "GOARCH", "GOARM", "GO111MODULE", "GOPROXY", "GOSUMDB", "GOPRIVATE",
    "CC", "CXX", "AR", "CFLAGS", "GOFLAGS"
  }

  predicate ValidTags(tags: seq<string>) {
    && (forall i :: 0 <= i < |tags| ==> Trim(tags[i]) != "")
    && (forall i, j :: 0 <= i < j < |tags| ==> Trim(tags[i]) != Trim(tags[j]))
  }

  predicate ValidFlag(flag: string) {
    var f := Trim(flag);
    && f != "" && f[0] == '-'
    && (forall p :: p in DANGEROUS ==> !Contains(Lower(f), p))
  }

  predicate ValidFlags(flags: seq<string>) {
    forall i :: 0 <= i < |flags| ==> ValidFlag(flags[i])
  }

  predicate Clear(text: string, bad: string) {
    forall i :: 0 <= i < |text| ==> text[i] !in bad
  }

  predicate ValidVariable(key: string, value: string) {
    Trim(key) in ALLOWED_ENV && Clear(value, SUSPICIOUS)
  }

  predicate ValidEnv(env: map<string, string>) {
    forall k :: k in env ==> ValidVariable(k, env[k])
  }

  predicate Valid(c: Contents) {
    ValidTags(c.tags) && ValidFlags(c.ldflags) && ValidEnv(c.env)
  }

  // ------------------------------------------------------------- single entries

  lemma FoundIn(a: string, part: string, b: string)
    ensures Contains(a + part + b, part)
  {
    assert FoundAt(a + part + b, part, |a|);
  }

  lemma FoundSplits(s: string, part: string) returns (a: string, b: string)
    requires Contains(s, part)
    ensures s == a + part + b
  {
    var i: nat :| i <= |s| && FoundAt(s, part, i);
    a, b := s[..i], s[i + |part|..];
  }

  lemma LowerMeaning(s: string)
    ensures |Lower(s)| == |s|
    ensures forall i :: 0 <= i < |s| ==>
              Lower(s)[i] == if 'A' <= s[i] <= 'Z' then 'a' + (s[i] - 'A') else s[i]
  {
  }

  lemma OneTagValidIff(tag: string)
    ensures ValidTags([tag]) <==> Trim(tag) != ""
    ensures TagSet([tag]) == {Trim(tag)}
  {
    hide Trim;
    assert [tag][0] == tag;
  }

  /** A flag is refused for being blank, for not starting with a hyphen, and for
      one of four parts in any case; nothing else. */
  lemma OneFlagValidIff(flag: string)
    ensures ValidFlags([flag]) <==>
            && Trim(flag) != "" && Trim(flag)[0] == '-'
            && !Contains(Lower(Trim(flag)), "--exec") && !Contains(Lower(Trim(flag)), "--run")
            && !Contains(Lower(Trim(flag)), "--command") && !Contains(Lower(Trim(flag)), "../")
  {
    hide Trim, Lower, Contains;
    assert [flag][0] == flag;
    assert DANGEROUS[0] == "--exec" && DANGEROUS[1] == "--run" && DANGEROUS[2] == "--command" && DANGEROUS[3] == "../";
    assert forall p :: p in DANGEROUS <==> p == "--exec" || p == "--run" || p == "--command" || p == "../";
  }

  /** A variable is accepted for thirteen names and values free of six
      characters. */
  lemma OneVariableValidIff(key: string, value: string)
    ensures ValidEnv(map[key := value]) <==>
            && (var name := Trim(key);
                || name == "CGO_ENABLED" || name == "GOOS" || name == "GOARCH" || name == "GOARM"
                || name == "GO111MODULE" || name == "GOPROXY" || name == "GOSUMDB" || name == "GOPRIVATE"
                || name == "CC" || name == "CXX" || name == "AR" || name == "CFLAGS" || name == "GOFLAGS")
            && '$' !in value && '`' !in value && ';' !in value && '|' !in value && '&' !in value && '\n' !in value
  {
    hide Trim;
    var env := map[key := value];
    assert key in env;
    ClearIff(value);
  }

  lemma ClearIff(value: string)
    ensures Clear(value, SUSPICIOUS) <==>
            '$' !in value && '`' !in value && ';' !in value && '|' !in value && '&' !in value && '\n' !in value
  {
    assert SUSPICIOUS[0] == '$' && SUSPICIOUS[1] == '`' && SUSPICIOUS[2] == ';';
    assert SUSPICIOUS[3] == '|' && SUSPICIOUS[4] == '&' && SUSPICIOUS[5] == '\n';
    assert forall c :: c in SUSPICIOUS <==> c == '$' || c == '`' || c == ';' || c == '|' || c == '&' || c == '\n';
  }

  function TagSet(tags: seq<string>): set<string> {
    set i | 0 <= i < |tags| :: Trim(tags[i])
  }

  lemma JoinedTagsValidIff(a: seq<string>, b: seq<string>)
    ensures ValidTags(a + b) <==> ValidTags(a) && ValidTags(b) && TagSet(a) !! TagSet(b)
  {
    hide Trim;
    var ab := a + b;
    if ValidTags(ab) {
      forall i, j | 0 <= i < |a| && 0 <= j < |b|
        ensures Trim(a[i]) != Trim(b[j])
      {
        assert ab[i] == a[i] && ab[|a| + j] == b[j];
      }
      forall j | 0 <= j < |b|
        ensures Trim(b[j]) != ""
      {
        assert ab[|a| + j] == b[j];
      }
      forall i, j | 0 <= i < j < |b|
        ensures Trim(b[i]) != Trim(b[j])
      {
        assert ab[|a| + i] == b[i] && ab[|a| + j] == b[j];
      }
      assert forall i :: 0 <= i < |a| ==> ab[i] == a[i];
    } else if ValidTags(a) && ValidTags(b) && TagSet(a) !! TagSet(b) {
      forall i, j | 0 <= i < j < |ab|
        ensures Trim(ab[i]) != Trim(ab[j])
      {
        if i < |a| <= j {
          assert Trim(ab[i]) in TagSet(a);
          assert Trim(b[j - |a|]) in TagSet(b);
        }
      }
      assert false;
    }
  }

  lemma JoinedFlagsValidIff(a: seq<string>, b: seq<string>)
    ensures ValidFlags(a + b) <==> ValidFlags(a) && ValidFlags(b)
  {
    hide ValidFlag;
    assert forall i :: 0 <= i < |a| ==> a[i] == (a + b)[i];
    assert forall i :: 0 <= i < |b| ==> b[i] == (a + b)[|a| + i];
  }

  lemma JoinedEnvValidIff(a: map<string, string>, b: map<string, string>)
    ensures ValidEnv(a + b) <==> ValidEnv(a - b.Keys) && ValidEnv(b)
  {
    hide ValidVariable;
    assert forall k :: k in b ==> (a + b)[k] == b[k];
    assert forall k :: k in a - b.Keys ==> (a + b)[k] == (a - b.Keys)[k];
    assert forall k :: k in a + b ==> k in b || k in a - b.Keys;
  }

  /** Exactly when a merge is valid: its tags must be valid on both sides and
      share no trimmed tag, its flags valid on both sides, and its variables
      valid as far as they are not overridden. */
  lemma MergedValidIff(a: Contents, b: Contents)
    ensures Valid(Merged(a, b)) <==>
            && ValidTags(a.tags) && ValidTags(b.tags) && TagSet(a.tags) !! TagSet(b.tags)
            && ValidFlags(a.ldflags) && ValidFlags(b.ldflags)
            && ValidEnv(a.env - b.env.Keys) && ValidEnv(b.env)
  {
    JoinedTagsValidIff(a.tags, b.tags);
    JoinedFlagsValidIff(a.ldflags, b.ldflags);
    JoinedEnvValidIff(a.env, b.env);
  }

  /** Two valid configurations merge to a valid one exactly when no tag of one
      equals a tag of the other after trimming. */
  lemma MergeOfValidIff(a: Contents, b: Contents)
    requires Valid(a) && Valid(b)
    ensures Valid(Merged(a, b)) <==> TagSet(a.tags) !! TagSet(b.tags)
  {
    MergedValidIff(a, b);
    assert forall k :: k in a.env - b.env.Keys ==> ValidVariable(k, a.env[k]);
  }
}
