/** Removing the long flags a node binary does not know from its start arguments
    (internal/application/commandcompat/start_flags.go:188-250). */
module StartFlags {
  import opened Sequences
  import opened Trimming
  import opened SortedStrings

  // -------------------------------------------------------------- single tokens

  predicate HasPrefix(s: string, prefix: string) {
    |prefix| <= |s| && s[..|prefix|] == prefix
  }

  /** The part of a token before its first '='. */
  function BeforeEquals(s: string): string {
    if s == "" || s[0] == '=' then "" else [s[0]] + BeforeEquals(s[1..])
  }

  predicate IsLongFlag(arg: string) {
    HasPrefix(arg, "--") && arg != "--"
  }

  /** `parseLongFlag`, for a long flag. */
  function FlagName(arg: string): string {
    BeforeEquals(arg)
  }

  /** `shouldSkipFlagValue`. */
  predicate LooksLikeValue(next: string) {
    var t := Trim(next);
    t != "" && t != "--" && !HasPrefix(t, "-")
  }

  predicate Unsupported(arg: string, supported: set<string>) {
    IsLongFlag(arg) && FlagName(arg) !in supported
  }

  /** Token `i` stands where an unsupported flag without '=' takes its value. */
  predicate IsItsValue(args: seq<string>, supported: set<string>, i: nat)
    requires i < |args|
  {
    && i > 0
    && Unsupported(args[i - 1], supported) && '=' !in args[i - 1]
    && LooksLikeValue(args[i])
  }

  // ------------------------------------------------------------- the whole list

  /** The position of the first "--", or the length. */
  function Terminator(args: seq<string>): (n: nat)
    ensures n <= |args|
    ensures forall i :: 0 <= i < n ==> args[i] != "--"
    ensures n < |args| ==> args[n] == "--"
  {
    if args == [] || args[0] == "--" then 0 else 1 + Terminator(args[1..])
  }

  predicate Dropped(args: seq<string>, supported: set<string>, i: nat)
    requires i < |args|
  {
    Unsupported(args[i], supported) || IsItsValue(args, supported, i)
  }

  /** The tokens among the first `n` that stay. */
  function Kept(args: seq<string>, supported: set<string>, n: nat): seq<string>
    requires n <= |args|
  {
    if n == 0 then []
    else if Dropped(args, supported, n - 1) then Kept(args, supported, n - 1)
    else Kept(args, supported, n - 1) + [args[n - 1]]
  }

  function Filtered(args: seq<string>, supported: set<string>): seq<string> {
    var n := Terminator(args);
    if supported == {} then args else Kept(args, supported, n) + args[n..]
  }

  ghost function RemovedNames(args: seq<string>, supported: set<string>, n: nat): set<string>
    requires n <= |args|
  {
    set i | 0 <= i < n && Unsupported(args[i], supported) :: FlagName(args[i])
  }

  ghost function Removed(args: seq<string>, supported: set<string>): set<string> {
    if supported == {} then {} else RemovedNames(args, supported, Terminator(args))
  }

  // ----------------------------------------------------------------- properties

  /** A token that is skipped as a value is never itself a flag or "--". */
  lemma ValueIsNoFlag(arg: string)
    requires LooksLikeValue(arg)
    ensures !IsLongFlag(arg) && arg != "--"
  {
    if HasPrefix(arg, "--") {
      TrimLeadingHyphen(arg);
    }
  }

  lemma TrimLeadingHyphen(s: string)
    requires HasPrefix(s, "-")
    ensures HasPrefix(Trim(s), "-")
  {
    assert TrimLeft(s) == s;
    TrimRightKeepsFirst(s);
  }

  lemma {:induction false} TrimRightKeepsFirst(s: string)
    requires s != "" && !IsSpace(s[0])
    ensures TrimRight(s) != "" && TrimRight(s)[0] == s[0]
  {
    if IsSpace(s[|s| - 1]) {
      TrimRightKeepsFirst(s[..|s| - 1]);
    }
  }

  ghost predicate IsSubsequence(a: seq<string>, b: seq<string>)
  {
    a == [] || (b != [] && (IsSubsequence(a, b[..|b| - 1])
                            || (a[|a| - 1] == b[|b| - 1] && IsSubsequence(a[..|a| - 1], b[..|b| - 1]))))
  }

  /** The items of a subsequence stand in the other list at increasing places. */
  lemma {:induction false} SubsequencePlaces(a: seq<string>, b: seq<string>) returns (at: seq<nat>)
    requires IsSubsequence(a, b)
    ensures |at| == |a|
    ensures forall i :: 0 <= i < |at| ==> at[i] < |b| && b[at[i]] == a[i]
    ensures forall i, j :: 0 <= i < j < |at| ==> at[i] < at[j]
  {
    if a == [] {
      at := [];
    } else if IsSubsequence(a, b[..|b| - 1]) {
      at := SubsequencePlaces(a, b[..|b| - 1]);
    } else {
      var front := SubsequencePlaces(a[..|a| - 1], b[..|b| - 1]);
      at := front + [|b| - 1];
    }
  }

  lemma SubsequenceStep(a: seq<string>, b: seq<string>, x: string)
    requires IsSubsequence(a, b)
    ensures IsSubsequence(a, b + [x]) && IsSubsequence(a + [x], b + [x])
  {
    assert (a + [x])[..|a|] == a && (b + [x])[..|b|] == b;
  }

  lemma NothingIsSubsequence(b: seq<string>)
    ensures IsSubsequence([], b)
  {
  }

  /** The set of supported flags only matters through what it drops: a larger one
      keeps at least as much, in the same order. */
  lemma {:induction false} KeptGrows(args: seq<string>, few: set<string>, many: set<string>, n: nat)
    requires n <= |args| && few <= many
    ensures IsSubsequence(Kept(args, few, n), Kept(args, many, n))
    decreases n
  {
    hide IsLongFlag, FlagName, LooksLikeValue, IsSubsequence;
    if n == 0 {
      NothingIsSubsequence([]);
    } else {
      KeptGrows(args, few, many, n - 1);
      assert Dropped(args, many, n - 1) ==> Dropped(args, few, n - 1);
      if !Dropped(args, many, n - 1) {
        SubsequenceStep(Kept(args, few, n - 1), Kept(args, many, n - 1), args[n - 1]);
      }
    }
  }

  lemma {:induction false} SubsequenceExtends(a: seq<string>, b: seq<string>, tail: seq<string>)
    requires IsSubsequence(a, b)
    ensures IsSubsequence(a + tail, b + tail)
  {
    if tail == [] {
      assert a + tail == a && b + tail == b;
    } else {
      var front := tail[..|tail| - 1];
      SubsequenceExtends(a, b, front);
      assert (a + tail)[..|a + tail| - 1] == a + front;
      assert (b + tail)[..|b + tail| - 1] == b + front;
    }
  }

  lemma {:induction false} KeptWithin(args: seq<string>, supported: set<string>, n: nat)
    requires n <= |args|
    ensures IsSubsequence(Kept(args, supported, n), args[..n])
    decreases n
  {
    hide Dropped, IsSubsequence;
    if n == 0 {
      NothingIsSubsequence([]);
    } else {
      KeptWithin(args, supported, n - 1);
      assert args[..n] == args[..n - 1] + [args[n - 1]];
      SubsequenceStep(Kept(args, supported, n - 1), args[..n - 1], args[n - 1]);
    }
  }

  lemma {:induction false} KeptAllIff(args: seq<string>, supported: set<string>, n: nat)
    requires n <= |args|
    ensures |Kept(args, supported, n)| <= n
    ensures |Kept(args, supported, n)| == n <==> forall i :: 0 <= i < n ==> !Dropped(args, supported, i)
    ensures |Kept(args, supported, n)| == n ==> Kept(args, supported, n) == args[..n]
  {
    hide Dropped;
    if n > 0 {
      KeptAllIff(args, supported, n - 1);
      assert args[..n] == args[..n - 1] + [args[n - 1]];
    }
  }

  /** If no flag is removed, no value is skipped either. */
  lemma RemovedEmptyIff(args: seq<string>, supported: set<string>, n: nat)
    requires n <= |args|
    ensures RemovedNames(args, supported, n) == {} <==> forall i :: 0 <= i < n ==> !Dropped(args, supported, i)
  {
    hide Unsupported, FlagName, LooksLikeValue;
    forall i | 0 <= i < n && Unsupported(args[i], supported)
      ensures FlagName(args[i]) in RemovedNames(args, supported, n)
    {
    }
    if i :| 0 <= i < n && Unsupported(args[i], supported) {
      assert Dropped(args, supported, i);
    }
  }

  /** Kept tokens are arguments, none of them "--" or an unsupported flag. */
  lemma {:induction false} KeptClean(args: seq<string>, supported: set<string>, n: nat)
    requires n <= Terminator(args)
    ensures forall i :: 0 <= i < |Kept(args, supported, n)| ==>
              Kept(args, supported, n)[i] != "--" && !Unsupported(Kept(args, supported, n)[i], supported)
  {
    hide Unsupported, IsItsValue;
    if n > 0 {
      KeptClean(args, supported, n - 1);
    }
  }

  lemma {:induction false} TerminatorAfter(front: seq<string>, back: seq<string>)
    requires forall i :: 0 <= i < |front| ==> front[i] != "--"
    requires back == [] || back[0] == "--"
    ensures Terminator(front + back) == |front|
  {
    if front == [] {
      assert front + back == back;
    } else {
      TerminatorAfter(front[1..], back);
      assert (front + back)[1..] == front[1..] + back;
    }
  }

  /** The result keeps the arguments' order, ends with everything from the first
      "--" on, and has only supported long flags before that. */
  lemma FilterMeaning(args: seq<string>, supported: set<string>)
    requires supported != {}
    ensures IsSubsequence(Filtered(args, supported), args)
    ensures Filtered(args, supported)[Terminator(Filtered(args, supported))..] == args[Terminator(args)..]
    ensures forall i :: 0 <= i < Terminator(Filtered(args, supported)) ==>
              !Unsupported(Filtered(args, supported)[i], supported)
  {
    hide Unsupported, Dropped;
    var n := Terminator(args);
    var kept, rest := Kept(args, supported, n), args[n..];
    KeptWithin(args, supported, n);
    SubsequenceExtends(kept, args[..n], rest);
    assert args[..n] + rest == args;
    hide Kept, IsSubsequence;
    KeptClean(args, supported, n);
    TerminatorAfter(kept, rest);
    assert (kept + rest)[|kept|..] == rest;
  }

  /** Nothing is removed exactly when the arguments come back unchanged. */
  lemma UnchangedIff(args: seq<string>, supported: set<string>)
    ensures Filtered(args, supported) == args <==> Removed(args, supported) == {}
  {
    hide Dropped, RemovedNames;
    var n := Terminator(args);
    if supported != {} {
      KeptAllIff(args, supported, n);
      RemovedEmptyIff(args, supported, n);
      assert args == args[..n] + args[n..];
    }
  }

  lemma {:induction false} SubsequenceOfItself(a: seq<string>)
    ensures IsSubsequence(a, a)
  {
    if a != [] {
      SubsequenceOfItself(a[..|a| - 1]);
    }
  }

  /** Supporting more flags removes less, exactly unless the smaller set is empty,
      which switches the filter off, and the larger one removes something. */
  lemma FilterMonotoneIff(args: seq<string>, few: set<string>, many: set<string>)
    requires few <= many
    ensures IsSubsequence(Filtered(args, few), Filtered(args, many)) && Removed(args, many) <= Removed(args, few)
            <==> few != {} || Removed(args, many) == {}
  {
    if few != {} {
      var n := Terminator(args);
      KeptGrows(args, few, many, n);
      SubsequenceExtends(Kept(args, few, n), Kept(args, many, n), args[n..]);
    } else {
      UnchangedIff(args, many);
      SubsequenceOfItself(args);
    }
  }

  /** Filtering again removes nothing. */
  lemma FilterIdempotent(args: seq<string>, supported: set<string>)
    ensures Removed(Filtered(args, supported), supported) == {}
    ensures Filtered(Filtered(args, supported), supported) == Filtered(args, supported)
  {
    hide Unsupported;
    if supported != {} {
      FilterMeaning(args, supported);
    }
    UnchangedIff(Filtered(args, supported), supported);
  }

  // ------------------------------------------------------ the filter, token by token

  lemma {:induction false} BeforeEqualsMeaning(s: string)
    ensures '=' !in BeforeEquals(s) && BeforeEquals(s) <= s
    ensures if '=' in s then |BeforeEquals(s)| < |s| && s[|BeforeEquals(s)|] == '=' else BeforeEquals(s) == s
  {
    if s != "" && s[0] != '=' {
      BeforeEqualsMeaning(s[1..]);
      assert s == [s[0]] + s[1..];
      assert '=' in s <==> '=' in s[1..];
    }
  }

  lemma {:induction false} BeforeEqualsCuts(name: string, rest: string)
    requires '=' !in name && (rest == "" || rest[0] == '=')
    ensures BeforeEquals(name + rest) == name
  {
    if name == "" {
      assert name + rest == rest;
    } else {
      BeforeEqualsCuts(name[1..], rest);
      assert (name + rest)[1..] == name[1..] + rest;
    }
  }

  /** A flag is named by what stands before the first '=', or by itself. */
  lemma FlagNameMeaning(name: string, value: string)
    requires '=' !in name
    ensures FlagName(name) == name && FlagName(name + "=" + value) == name
  {
    BeforeEqualsCuts(name, "");
    assert name + "" == name;
    BeforeEqualsCuts(name, "=" + value);
    assert name + "=" + value == name + ("=" + value);
  }

  /** What can be taken for the value of the flag before it. */
  lemma ValueMeaning(next: string)
    ensures LooksLikeValue(next) <==> Trim(next) != "" && Trim(next)[0] != '-'
  {
  }

  lemma {:induction false} TerminatorShift(args: seq<string>, j: nat)
    requires j <= |args| && forall i :: 0 <= i < j ==> args[i] != "--"
    ensures Terminator(args) == j + Terminator(args[j..])
  {
    if j > 0 {
      TerminatorShift(args[1..], j - 1);
      assert args[1..][j - 1..] == args[j..];
    } else {
      assert args[0..] == args;
    }
  }

  /** Unless token `j` is the value of the flag before it, the tokens from `j` on
      fare as they would alone. */
  lemma {:induction false} KeptShift(args: seq<string>, supported: set<string>, j: nat, n: nat)
    requires j <= n <= |args| && (j < n ==> !IsItsValue(args, supported, j))
    ensures Kept(args, supported, n) == Kept(args, supported, j) + Kept(args[j..], supported, n - j)
    decreases n
  {
    hide Unsupported, LooksLikeValue;
    if n > j {
      KeptShift(args, supported, j, n - 1);
      assert Dropped(args[j..], supported, n - 1 - j) == Dropped(args, supported, n - 1);
    }
  }

  lemma FilterShift(args: seq<string>, supported: set<string>, j: nat)
    requires supported != {} && j <= |args| && forall i :: 0 <= i < j ==> args[i] != "--"
    requires j < |args| ==> !IsItsValue(args, supported, j)
    ensures Filtered(args, supported) == Kept(args, supported, j) + Filtered(args[j..], supported)
  {
    TerminatorShift(args, j);
    KeptShift(args, supported, j, Terminator(args));
    FilterJoins(args, supported, j, Terminator(args));
  }

  lemma FilterJoins(args: seq<string>, supported: set<string>, j: nat, n: nat)
    requires supported != {} && j <= n <= |args|
    requires n == Terminator(args) && n - j == Terminator(args[j..])
    requires Kept(args, supported, n) == Kept(args, supported, j) + Kept(args[j..], supported, n - j)
    ensures Filtered(args, supported) == Kept(args, supported, j) + Filtered(args[j..], supported)
  {
    hide Kept, Terminator;
    assert args[j..][n - j..] == args[n..];
    Regroup(Kept(args, supported, j), Kept(args[j..], supported, n - j), args[n..]);
  }

  /** At "--" the filter stops; a token that does not start with "--" is kept. */
  lemma FilterPlainToken(token: string, rest: seq<string>, supported: set<string>)
    requires supported != {}
    ensures Filtered([], supported) == []
    ensures token == "--" ==> Filtered([token] + rest, supported) == [token] + rest
    ensures !("--" <= token) ==> Filtered([token] + rest, supported) == [token] + Filtered(rest, supported)
  {
    var args := [token] + rest;
    if !("--" <= token) {
      assert args[1..] == rest;
      assert !Unsupported(token, supported);
      FilterShift(args, supported, 1);
      assert Kept(args, supported, 1) == [token] by {
        FirstKept(args, supported);
      }
    }
  }

  lemma FirstKept(args: seq<string>, supported: set<string>)
    requires args != []
    ensures Kept(args, supported, 1) == if Unsupported(args[0], supported) then [] else [args[0]]
  {
    assert Kept(args, supported, 0) == [];
  }

  /** A flag with '=' stays exactly if its name is supported. */
  lemma FilterFlagWithValue(name: string, value: string, rest: seq<string>, supported: set<string>)
    requires supported != {} && "--" <= name && '=' !in name
    ensures Filtered([name + "=" + value] + rest, supported)
         == (if name in supported then [name + "=" + value] else []) + Filtered(rest, supported)
  {
    var token := name + "=" + value;
    var args := [token] + rest;
    FlagNameMeaning(name, value);
    assert token[..2] == name[..2] == "--" && '=' in token by {
      assert token[|name|] == '=';
    }
    assert args[1..] == rest;
    FilterShift(args, supported, 1);
    FirstKept(args, supported);
  }

  /** A flag without '=' stays exactly if it is supported; if it goes, the next
      token goes with it unless it is blank or starts with a hyphen. */
  lemma FilterBareFlag(name: string, rest: seq<string>, supported: set<string>)
    requires supported != {} && "--" <= name && name != "--" && '=' !in name
    ensures name in supported ==> Filtered([name] + rest, supported) == [name] + Filtered(rest, supported)
    ensures name !in supported ==>
              Filtered([name] + rest, supported) ==
              if rest != [] && Trim(rest[0]) != "" && Trim(rest[0])[0] != '-'
              then Filtered(rest[1..], supported) else Filtered(rest, supported)
  {
    var args := [name] + rest;
    FlagNameMeaning(name, "");
    assert args[1..] == rest;
    FirstKept(args, supported);
    if rest != [] && name !in supported && LooksLikeValue(rest[0]) {
      ValueIsNoFlag(rest[0]);
      assert args[2..] == rest[1..];
      assert Kept(args, supported, 2) == Kept(args, supported, 1) == [];
      FilterShift(args, supported, 2);
    } else {
      FilterShift(args, supported, 1);
    }
  }

  /** The token is the flag `name`, with or without a value. */
  predicate Spells(token: string, name: string) {
    "--" <= name && '=' !in name && ((token == name && name != "--") || name + "=" <= token)
  }

  lemma SpellsIffNamed(token: string, name: string)
    ensures Spells(token, name) <==> IsLongFlag(token) && FlagName(token) == name
  {
    BeforeEqualsMeaning(token);
    if Spells(token, name) {
      if name + "=" <= token {
        assert token == name + "=" + token[|name| + 1..];
        FlagNameMeaning(name, token[|name| + 1..]);
        assert token[|name|] == '=';
      } else {
        FlagNameMeaning(name, "");
      }
    }
    if IsLongFlag(token) && FlagName(token) == name {
      NameOfLongFlag(token);
    }
  }

  lemma NameOfLongFlag(token: string)
    requires IsLongFlag(token)
    ensures "--" <= FlagName(token) && '=' !in FlagName(token)
    ensures (token == FlagName(token) && FlagName(token) != "--") || FlagName(token) + "=" <= token
  {
    BeforeEqualsMeaning(token);
    var name := FlagName(token);
    assert token[0] == '-' && token[1] == '-';
    if '=' in token {
      assert |name| >= 2;
      assert token[..|name| + 1] == name + "=";
    }
  }

  lemma {:induction false} KeptContains(args: seq<string>, supported: set<string>, n: nat, i: nat)
    requires i < n <= |args| && !Dropped(args, supported, i)
    ensures args[i] in Kept(args, supported, n)
    decreases n
  {
    hide Dropped;
    if i < n - 1 {
      KeptContains(args, supported, n - 1, i);
    }
  }

  /** A flag before "--" is still there after filtering exactly if it is
      supported. */
  lemma FlagSurvivesIff(args: seq<string>, supported: set<string>, i: nat, name: string)
    requires supported != {} && i < Terminator(args) && Spells(args[i], name)
    ensures args[i] in Filtered(args, supported)[..Terminator(Filtered(args, supported))] <==> name in supported
  {
    SpellsIffNamed(args[i], name);
    if LooksLikeValue(args[i]) {
      ValueIsNoFlag(args[i]);
    }
    hide IsLongFlag, FlagName, LooksLikeValue, Spells;
    var n := Terminator(args);
    var kept := Kept(args, supported, n);
    KeptClean(args, supported, n);
    TerminatorAfter(kept, args[n..]);
    assert (kept + args[n..])[..|kept|] == kept;
    if name in supported {
      KeptContains(args, supported, n, i);
    }
  }

  /** The report names exactly the unsupported flags that stand before "--". */
  lemma ReportedIff(args: seq<string>, supported: set<string>, name: string)
    ensures name in Removed(args, supported) <==>
            && supported != {} && name !in supported
            && exists i :: 0 <= i < Terminator(args) && Spells(args[i], name)
  {
    hide Spells, IsLongFlag, FlagName;
    forall i | 0 <= i < Terminator(args)
      ensures Spells(args[i], name) <==> IsLongFlag(args[i]) && FlagName(args[i]) == name
    {
      SpellsIffNamed(args[i], name);
    }
  }

  // ------------------------------------------------------------------- the loop

  /** `filterUnsupportedLongFlags`, which walks over the arguments and steps over
      the value of a removed flag. */
  method FilterUnsupportedLongFlags(args: seq<string>, supported: set<string>)
    returns (filtered: seq<string>, removed: seq<string>)
    ensures filtered == Filtered(args, supported)
    ensures removed == Listing(Removed(args, supported))
  {
    hide IsLongFlag, FlagName, LooksLikeValue, Listing, Kept, RemovedNames, Terminator;
    StartOfList(args, supported);
    if |args| == 0 || supported == {} {
      NoNames();
      assert Removed(args, supported) == {};
      return args, [];
    }
    filtered := [];
    ghost var n := Terminator(args);
    var removedSet: set<string> := {};
    var idx := 0;
    while idx < |args| && args[idx] != "--"
      invariant idx <= n
      invariant filtered == Kept(args, supported, idx)
      invariant removedSet == RemovedNames(args, supported, idx)
      invariant idx < |args| ==> !IsItsValue(args, supported, idx)
    {
      var arg := args[idx];
      if !IsLongFlag(arg) || FlagName(arg) in supported {
        filtered := filtered + [arg];
        Advance(args, supported, idx);
        idx := idx + 1;
      } else {
        removedSet := removedSet + {FlagName(arg)};
        Advance(args, supported, idx);
        idx := idx + 1;
        if '=' !in arg && idx < |args| && LooksLikeValue(args[idx]) {
          ValueIsNoFlag(args[idx]);
          Advance(args, supported, idx);
          idx := idx + 1;
        }
      }
    }
    filtered := filtered + args[idx..];
    if removedSet == {} {
      UnchangedIff(args, supported);
      NoNames();
      return args, [];
    }
    var names := MembersInSomeOrder(removedSet);
    SortedMembers(names, removedSet);
    removed := Sort(names);
  }

  lemma StartOfList(args: seq<string>, supported: set<string>)
    ensures Kept(args, supported, 0) == [] && RemovedNames(args, supported, 0) == {}
    ensures |args| == 0 ==> Terminator(args) == 0
  {
  }

  /** What one more token adds to the result. */
  lemma Advance(args: seq<string>, supported: set<string>, i: nat)
    requires i < |args|
    ensures Kept(args, supported, i + 1) == Kept(args, supported, i)
            + (if Dropped(args, supported, i) then [] else [args[i]])
    ensures RemovedNames(args, supported, i + 1) == RemovedNames(args, supported, i)
            + (if Unsupported(args[i], supported) then {FlagName(args[i])} else {})
  {
    hide Unsupported, FlagName, IsItsValue;
  }

  lemma NoNames()
    ensures Listing({}) == []
  {
  }
}
