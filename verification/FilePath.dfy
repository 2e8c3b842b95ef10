/** Making the parent directories of a file: one check per component, from the top down. */
module FilePath {
  import opened Wrappers
  import opened PathNames

  const MAX_DEPTH := 50

  datatype Node = Directory | Other

  datatype Location = Location(absolute: bool, components: seq<string>)

  type Tree = map<Location, Node>

  function Where(path: string): Location {
    Location(Absolute(path), Components(path))
  }

  predicate IsDirectory(tree: Tree, at: Location) {
    at in tree && tree[at] == Directory
  }

  /** Making a directory fails where it is not allowed and where there is nothing to make it
      in. */
  predicate CanMake(tree: Tree, denied: set<Location>, at: Location) {
    at !in denied &&
    (|at.components| > 1 ==> IsDirectory(tree, at.(components := at.components[..|at.components| - 1])))
  }

  datatype Outcome = Outcome(tree: Tree, ok: bool)

  /** _GRVY_CheckDir */
  function Checked(tree: Tree, denied: set<Location>, at: Location): Outcome {
    if at !in tree then
      if CanMake(tree, denied, at) then Outcome(tree[at := Directory], true) else Outcome(tree, false)
    else Outcome(tree, tree[at] == Directory)
  }

  /** Each prefix in turn, the shortest first, until one fails. */
  function Built(tree: Tree, denied: set<Location>, absolute: bool, cs: seq<string>): Outcome {
    if cs == [] then Outcome(tree, true)
    else
      var r := Built(tree, denied, absolute, cs[..|cs| - 1]);
      if r.ok then Checked(r.tree, denied, Location(absolute, cs)) else r
  }

  /** Of more than MAX_DEPTH + 1 components the first MAX_DEPTH + 1 are built; the limit is
      reported from MAX_DEPTH + 1 on. */
  function Attempted(cs: seq<string>): seq<string> {
    if |cs| > MAX_DEPTH + 1 then cs[..MAX_DEPTH + 1] else cs
  }

  function CheckedFilePath(tree: Tree, denied: set<Location>, path: string): Outcome {
    var parents := Dirname(path);
    var cs := Components(parents);
    if parents == "." then Outcome(tree, true)
    else
      var r := Built(tree, denied, Absolute(parents), Attempted(cs));
      Outcome(r.tree, r.ok && |cs| <= MAX_DEPTH)
  }

  // ------------------------------------------------------------------------------
  // What a call guarantees
  // ------------------------------------------------------------------------------

  /** A directory is there, or nothing is and one may be made. */
  predicate Usable(tree: Tree, denied: set<Location>, at: Location) {
    if at in tree then tree[at] == Directory else at !in denied
  }

  predicate UsableUpTo(tree: Tree, denied: set<Location>, absolute: bool, cs: seq<string>, n: int)
    requires n <= |cs|
  {
    forall k :: 1 <= k <= n ==> Usable(tree, denied, Location(absolute, cs[..k]))
  }

  predicate Prefix(at: Location, absolute: bool, cs: seq<string>) {
    at.absolute == absolute && at.components != [] && at.components <= cs
  }

  lemma PrefixGrows(at: Location, absolute: bool, cs: seq<string>)
    requires cs != []
    ensures Prefix(at, absolute, cs) <==> Prefix(at, absolute, cs[..|cs| - 1]) || at == Location(absolute, cs)
  {
    if Prefix(at, absolute, cs) && |at.components| == |cs| {
      assert at.components == cs;
    }
  }

  /** Building succeeds exactly when every prefix is usable; then all of them are
      directories. Whatever happens, nothing that was there changes and only prefixes are
      made, as directories. */
  lemma {:induction false} BuiltExactly(tree: Tree, denied: set<Location>, absolute: bool, cs: seq<string>)
    ensures var r := Built(tree, denied, absolute, cs);
      && (r.ok <==> UsableUpTo(tree, denied, absolute, cs, |cs|))
      && (forall at :: at in tree ==> at in r.tree && r.tree[at] == tree[at])
      && (forall at :: at in r.tree && at !in tree ==> Prefix(at, absolute, cs) && r.tree[at] == Directory)
      && (r.ok ==> forall at :: Prefix(at, absolute, cs) ==> IsDirectory(r.tree, at))
  {
    if cs != [] {
      var n := |cs| - 1;
      var p, at := cs[..n], Location(absolute, cs);
      BuiltExactly(tree, denied, absolute, p);
      var r := Built(tree, denied, absolute, p);
      assert cs[..|cs|] == cs;
      assert forall k :: 1 <= k <= n ==> p[..k] == cs[..k];
      assert UsableUpTo(tree, denied, absolute, cs, |cs|) <==>
             UsableUpTo(tree, denied, absolute, p, n) && Usable(tree, denied, at);
      if r.ok {
        assert !Prefix(at, absolute, p);
        if |cs| > 1 { assert Prefix(Location(absolute, p), absolute, p); }
      }
      forall l ensures Prefix(l, absolute, cs) <==> Prefix(l, absolute, p) || l == at {
        PrefixGrows(l, absolute, cs);
      }
    }
  }

  /** A second build after a successful one makes nothing. */
  lemma {:induction false} BuiltAgain(tree: Tree, denied: set<Location>, absolute: bool, cs: seq<string>)
    requires forall at :: Prefix(at, absolute, cs) ==> IsDirectory(tree, at)
    ensures Built(tree, denied, absolute, cs) == Outcome(tree, true)
  {
    if cs != [] {
      forall l ensures Prefix(l, absolute, cs) <==> Prefix(l, absolute, cs[..|cs| - 1]) || l == Location(absolute, cs) {
        PrefixGrows(l, absolute, cs);
      }
      BuiltAgain(tree, denied, absolute, cs[..|cs| - 1]);
      assert Prefix(Location(absolute, cs), absolute, cs);
    }
  }

  /** The directory the file is in, and those above it. */
  predicate Ancestor(at: Location, path: string) {
    var cs := Components(path);
    at.absolute == Absolute(path) && 0 < |at.components| < |cs| && at.components <= cs
  }

  /** A path with no parent to check, as the program sees it. */
  predicate Here(path: string) {
    Dirname(path) == "."
  }

  lemma HereExactlyWhen(path: string)
    ensures var cs := Components(path);
      Here(path) <==> !Absolute(path) && (|cs| <= 1 || cs[..|cs| - 1] == ["."])
  {
    DirnameIsDotExactlyWhen(path);
  }

  /** For every path: the call returns 0 exactly when the path names a file in the current
      directory, or has at most fifty ancestors, each of them a directory or free to be made. */
  lemma ReturnsZeroExactlyWhen(tree: Tree, denied: set<Location>, path: string)
    ensures CheckedFilePath(tree, denied, path).ok <==>
      Here(path) ||
      (|Components(path)| <= 51 && forall at :: Ancestor(at, path) ==> Usable(tree, denied, at))
  {
    DirnameDropsLast(path);
    if !Here(path) {
      var parents := Dirname(path);
      var cs, whole := Components(parents), Components(path);
      BuiltExactly(tree, denied, Absolute(parents), Attempted(cs));
      if |cs| <= MAX_DEPTH {
        AncestorsArePrefixes(path);
        if forall at :: Ancestor(at, path) ==> Usable(tree, denied, at) {
          forall k | 1 <= k <= |cs| ensures Usable(tree, denied, Location(Absolute(parents), cs[..k])) {
            assert Prefix(Location(Absolute(parents), cs[..k]), Absolute(parents), cs);
          }
        }
        if UsableUpTo(tree, denied, Absolute(parents), cs, |cs|) {
          forall at | Ancestor(at, path) ensures Usable(tree, denied, at) {
            assert Prefix(at, Absolute(parents), cs) && at.components == cs[..|at.components|];
          }
        }
      }
    }
  }

  lemma AncestorsArePrefixes(path: string)
    requires !Here(path)
    ensures forall at :: Ancestor(at, path) <==> Prefix(at, Absolute(Dirname(path)), Components(Dirname(path)))
  {
    DirnameDropsLast(path);
    var parents := Dirname(path);
    var cs, whole := Components(parents), Components(path);
    forall at ensures Ancestor(at, path) <==> Prefix(at, Absolute(parents), cs) {
      if |whole| >= 2 {
        assert whole == cs + [whole[|whole| - 1]];
        if Ancestor(at, path) { assert at.components == whole[..|at.components|] == cs[..|at.components|]; }
      }
    }
  }

  /** Whatever it returns, the call changes nothing that was there and makes directories only
      where the path has ancestors; when it returns 0 for a path with a parent, they are all
      directories and the same call again makes nothing. */
  lemma OnlyAncestorsAreMade(tree: Tree, denied: set<Location>, path: string)
    ensures var r := CheckedFilePath(tree, denied, path);
      && (forall at :: at in tree ==> at in r.tree && r.tree[at] == tree[at])
      && (forall at :: at in r.tree && at !in tree ==> Ancestor(at, path) && r.tree[at] == Directory)
      && (r.ok && !Here(path) ==> forall at :: Ancestor(at, path) ==> IsDirectory(r.tree, at))
      && (r.ok ==> CheckedFilePath(r.tree, denied, path) == r)
  {
    if !Here(path) {
      var parents := Dirname(path);
      var cs := Components(parents);
      AncestorsArePrefixes(path);
      BuiltExactly(tree, denied, Absolute(parents), Attempted(cs));
      forall at | Prefix(at, Absolute(parents), Attempted(cs)) ensures Prefix(at, Absolute(parents), cs) {}
      if |cs| <= MAX_DEPTH && Built(tree, denied, Absolute(parents), cs).ok {
        BuiltAgain(Built(tree, denied, Absolute(parents), cs).tree, denied, Absolute(parents), cs);
      }
    }
  }

  // ------------------------------------------------------------------------------
  // What a call makes, also when it refuses
  // ------------------------------------------------------------------------------

  /** The place and everything above it is usable. */
  predicate Reached(tree: Tree, denied: set<Location>, at: Location) {
    UsableUpTo(tree, denied, at.absolute, at.components, |at.components|)
  }

  lemma {:induction false} BuiltMakes(tree: Tree, denied: set<Location>, absolute: bool, cs: seq<string>)
    ensures var r := Built(tree, denied, absolute, cs);
      forall at :: at in r.tree <==> at in tree || (Prefix(at, absolute, cs) && Reached(tree, denied, at))
  {
    if cs != [] {
      var p, last := cs[..|cs| - 1], Location(absolute, cs);
      BuiltMakes(tree, denied, absolute, p);
      LastIsMade(tree, denied, absolute, cs);
      forall at ensures Prefix(at, absolute, cs) <==> Prefix(at, absolute, p) || at == last {
        PrefixGrows(at, absolute, cs);
      }
    }
  }

  lemma LastIsMade(tree: Tree, denied: set<Location>, absolute: bool, cs: seq<string>)
    requires cs != []
    ensures var before, r := Built(tree, denied, absolute, cs[..|cs| - 1]), Built(tree, denied, absolute, cs);
      forall at :: at in r.tree <==>
        at in before.tree || (at == Location(absolute, cs) && Reached(tree, denied, at))
  {
    hide Usable, UsableUpTo;
    var n := |cs| - 1;
    var p, last := cs[..n], Location(absolute, cs);
    BuiltExactly(tree, denied, absolute, p);
    UsableGrows(tree, denied, absolute, cs);
    var before := Built(tree, denied, absolute, p);
    if before.ok {
      assert last in before.tree <==> last in tree by { assert !Prefix(last, absolute, p); }
      if n > 0 { assert Prefix(Location(absolute, p), absolute, p); }
      UsableWhere(tree, denied, last);
      if last in tree { assert last in before.tree; }
    }
  }

  lemma UsableWhere(tree: Tree, denied: set<Location>, at: Location)
    ensures at !in tree ==> (Usable(tree, denied, at) <==> at !in denied)
  {
  }

  lemma UsableGrows(tree: Tree, denied: set<Location>, absolute: bool, cs: seq<string>)
    requires cs != []
    ensures var p := cs[..|cs| - 1];
      UsableUpTo(tree, denied, absolute, cs, |cs|) <==>
      UsableUpTo(tree, denied, absolute, p, |p|) && Usable(tree, denied, Location(absolute, cs))
  {
    hide Usable;
    var n := |cs| - 1;
    assert cs[..|cs|] == cs;
    assert forall k :: 1 <= k <= n ==> cs[..n][..k] == cs[..k];
  }

  /** The ancestors the depth limit lets a call get to. */
  predicate InDepth(at: Location, path: string) {
    Ancestor(at, path) && |at.components| <= 51
  }

  lemma AttemptedPrefixes(path: string)
    requires !Here(path)
    ensures forall at :: InDepth(at, path) <==>
      Prefix(at, Absolute(Dirname(path)), Attempted(Components(Dirname(path))))
  {
    hide Ancestor, Here;
    AncestorsArePrefixes(path);
    var absolute, cs := Absolute(Dirname(path)), Components(Dirname(path));
    forall at ensures InDepth(at, path) <==> Prefix(at, absolute, Attempted(cs)) {
      if Prefix(at, absolute, cs) && |at.components| <= 51 {
        assert at.components == cs[..|at.components|] == Attempted(cs)[..|at.components|];
      }
    }
  }

  /** For every path, and whether or not the call succeeds: it makes exactly the missing
      ancestors, among the first fifty-one, above which and at which nothing is in the way. */
  lemma MakesExactly(tree: Tree, denied: set<Location>, path: string, at: Location)
    ensures at in CheckedFilePath(tree, denied, path).tree && at !in tree <==>
      !Here(path) && InDepth(at, path) && at !in tree && Reached(tree, denied, at)
  {
    hide Reached, InDepth;
    if !Here(path) {
      BuiltMakes(tree, denied, Absolute(Dirname(path)), Attempted(Components(Dirname(path))));
      AttemptedPrefixes(path);
    }
  }

  predicate WouldMake(tree: Tree, denied: set<Location>, path: string, at: Location) {
    InDepth(at, path) && at !in tree && Reached(tree, denied, at)
  }

  /** A call, refused or not, leaves the tree alone exactly when the path has no parent part
      or none of those ancestors could be made. */
  lemma LeavesTreeExactlyWhen(tree: Tree, denied: set<Location>, path: string)
    ensures CheckedFilePath(tree, denied, path).tree == tree <==>
      Here(path) || forall at :: !WouldMake(tree, denied, path, at)
  {
    hide InDepth, Reached, CheckedFilePath, Here, Ancestor;
    var r := CheckedFilePath(tree, denied, path);
    OnlyAncestorsAreMade(tree, denied, path);
    forall at ensures at in r.tree && at !in tree <==> !Here(path) && WouldMake(tree, denied, path, at) {
      MakesExactly(tree, denied, path, at);
    }
    if Here(path) || forall at :: !WouldMake(tree, denied, path, at) {
      assert r.tree.Keys == tree.Keys;
    }
  }

  /** More than fifty parents are always refused, and yet every one of the first fifty-one
      that can be made is there afterwards. */
  lemma TooDeepIsRefusedLate(tree: Tree, denied: set<Location>, path: string)
    requires !Here(path) && |Components(path)| > 51
    ensures var r := CheckedFilePath(tree, denied, path);
      !r.ok && forall at :: InDepth(at, path) && Reached(tree, denied, at) ==> IsDirectory(r.tree, at)
  {
    ReturnsZeroExactlyWhen(tree, denied, path);
    OnlyAncestorsAreMade(tree, denied, path);
    var r := CheckedFilePath(tree, denied, path);
    forall at | InDepth(at, path) && Reached(tree, denied, at) ensures IsDirectory(r.tree, at) {
      MakesExactly(tree, denied, path, at);
      assert at.components[..|at.components|] == at.components;
      assert Usable(tree, denied, at);
    }
  }

  function Deep(k: nat): Location {
    Location(false, seq(k, _ => "d"))
  }

  /** n directories and a file, relative. */
  function DeepPath(n: nat): string {
    Render(false, seq(n + 1, _ => "d"))
  }

  lemma DeepPathHas(n: nat)
    requires n > 0
    ensures !Here(DeepPath(n)) && !Absolute(DeepPath(n)) && Components(DeepPath(n)) == seq(n + 1, _ => "d")
  {
    var cs := seq(n + 1, _ => "d");
    ComponentsOfRender(false, cs);
    DirnameDropsLast(DeepPath(n));
    assert !Here(DeepPath(n)) by { NameAlone("."); }
  }

  lemma DeepPathMakes(n: nat)
    requires n > 0
    ensures CheckedFilePath(map[], {}, DeepPath(n)).tree.Keys ==
            set k | 1 <= k <= (if n <= 51 then n else 51) :: Deep(k)
  {
    hide CheckedFilePath, Here, DeepPath;
    var path, cs := DeepPath(n), seq(n + 1, _ => "d");
    DeepPathHas(n);
    var r := CheckedFilePath(map[], {}, path);
    forall at ensures at in r.tree <==> !at.absolute && 1 <= |at.components| <= 51
                                        && |at.components| <= n && at.components <= cs {
      MakesExactly(map[], {}, path, at);
    }
    forall at | at in r.tree ensures at == Deep(|at.components|) {
      assert at.components == cs[..|at.components|] == seq(|at.components|, _ => "d");
    }
    forall k | 1 <= k <= n && k <= 51 ensures Deep(k) in r.tree {
      assert cs[..k] == seq(k, _ => "d");
    }
  }

  /** Fifty-one directories and a file: refused, with all fifty-one made in an empty tree. */
  lemma DeepPathIsRefusedLate()
    ensures var r := CheckedFilePath(map[], {}, DeepPath(51));
      !r.ok && r.tree.Keys == (set k | 1 <= k <= 51 :: Deep(k))
  {
    hide CheckedFilePath, Here;
    DeepPathHas(51);
    DeepPathMakes(51);
    TooDeepIsRefusedLate(map[], {}, DeepPath(51));
  }

  /** Fifty directories and a file: accepted, with all fifty made. */
  lemma FiftyParentsAreMade()
    ensures var r := CheckedFilePath(map[], {}, DeepPath(50));
      r.ok && r.tree.Keys == (set k | 1 <= k <= 50 :: Deep(k))
  {
    hide CheckedFilePath, Here;
    DeepPathHas(50);
    DeepPathMakes(50);
    ReturnsZeroExactlyWhen(map[], {}, DeepPath(50));
  }

  // ------------------------------------------------------------------------------
  // The loop over a character buffer
  // ------------------------------------------------------------------------------

  /** A token, if any, and what follows are all there is from a position on. */
  predicate Ahead(cs: seq<string>, k: nat, token: Option<string>, rest: seq<string>)
    requires k <= |cs|
  {
    cs[k..] == match token { case None => [] case Some(t) => [t] + rest }
  }

  lemma AheadFirst(cs: seq<string>, k: nat, token: Option<string>, rest: seq<string>)
    requires k <= |cs| && Ahead(cs, k, token, rest)
    ensures if token.Some? then k < |cs| && cs[k] == token.value else k == |cs|
  {
    if token.Some? { assert cs[k..][0] == cs[k]; }
  }

  lemma AheadMoves(cs: seq<string>, k: nat, token: Option<string>, rest: seq<string>,
                   follows: Option<string>, after: seq<string>)
    requires k <= |cs| && token.Some? && Ahead(cs, k, token, rest) && Ahead(rest, 0, follows, after)
    ensures k < |cs| && Ahead(cs, k + 1, follows, after)
  {
    assert cs[k..][1..] == cs[k + 1..] && rest[0..] == rest;
  }

  /** Repeated calls of strtok walk over the components. */
  method NextToken(s: string, start: nat) returns (token: Option<string>, next: nat)
    requires start <= |s|
    ensures next <= |s| && Ahead(Components(s[start..]), 0, token, Components(s[next..]))
  {
    hide Components, TokenEnd;
    var i := start;
    while i < |s| && s[i] == SLASH
      invariant start <= i <= |s|
      invariant Components(s[start..]) == Components(s[i..])
    {
      SlashSkipped(s, i);
      i := i + 1;
    }
    if i == |s| {
      Trivial();
      return None, |s|;
    }
    next := i;
    while next < |s| && s[next] != SLASH
      invariant i <= next <= |s|
      invariant SLASH !in s[i..next]
    {
      next := next + 1;
    }
    assert s[i..] == s[i..next] + s[next..];
    ComponentsToken(s[i..next], s[next..]);
    token := Some(s[i..next]);
  }

  /** The string in a buffer. */
  function Text(buffer: array<char>, length: nat): string
    requires length <= buffer.Length
    reads buffer
  {
    buffer[..length]
  }

  /** Writes a string and its terminator into the buffer from a position on. */
  method Put(buffer: array<char>, at: nat, s: string)
    requires at + |s| < buffer.Length
    modifies buffer
    ensures Text(buffer, at + |s|) == old(Text(buffer, at)) + s && buffer[at + |s|] == '\0'
    ensures at == 0 ==> Text(buffer, |s|) == s
  {
    for i := 0 to |s|
      invariant buffer[..at] == old(buffer[..at])
      invariant buffer[at..at + i] == s[..i]
    {
      buffer[at + i] := s[i];
    }
    buffer[at + |s|] := '\0';
    assert buffer[..at + |s|] == buffer[..at] + buffer[at..at + |s|];
  }

  /** A slash and a token at the end of the string in the buffer. */
  method Extend(buffer: array<char>, length: nat, token: string) returns (longer: nat)
    requires length + 1 + |token| < buffer.Length
    modifies buffer
    ensures longer == length + 1 + |token| && Text(buffer, longer) == old(Text(buffer, length)) + "/" + token
  {
    Put(buffer, length, "/");
    Put(buffer, length + 1, token);
    longer := length + 1 + |token|;
  }

  /** The string rebuilt for a prefix names that prefix, extends the one before by a slash
      and a token, and fits. */
  lemma Prefixes(parents: string, k: nat)
    requires 1 <= k <= |Components(parents)|
    ensures var cs := Components(parents);
      && Where(Render(Absolute(parents), cs[..k])) == Location(Absolute(parents), cs[..k])
      && |Render(Absolute(parents), cs[..k])| <= |parents|
  {
    hide Join, Render, Absolute;
    var cs := Components(parents);
    assert parents != [];
    hide Components;
    ComponentsAreNames(parents);
    assert forall c :: c in cs[..k] ==> c in cs;
    ComponentsOfRender(Absolute(parents), cs[..k]);
    PrefixFits(parents, k);
  }

  lemma RenderGrows(absolute: bool, cs: seq<string>, k: nat)
    requires 1 <= k <= |cs|
    ensures k > 1 ==> Render(absolute, cs[..k]) == Render(absolute, cs[..k - 1]) + "/" + cs[k - 1]
    ensures k == 1 ==> Render(absolute, cs[..k]) == (if absolute then "/" else "") + cs[0]
  {
    if k > 1 {
      hide Render;
      RenderLonger(absolute, cs[..k - 1], cs[k - 1]);
      assert cs[..k] == cs[..k - 1] + [cs[k - 1]];
    }
  }

  lemma BuiltGrows(tree: Tree, denied: set<Location>, absolute: bool, cs: seq<string>, k: nat)
    requires 1 <= k <= |cs|
    ensures var r := Built(tree, denied, absolute, cs[..k - 1]);
      Built(tree, denied, absolute, cs[..k]) == if r.ok then Checked(r.tree, denied, Location(absolute, cs[..k])) else r
  {
    hide Checked;
    assert cs[..k][..k - 1] == cs[..k - 1];
  }

  /** Once a prefix fails nothing more is tried. */
  lemma {:induction false} FirstFails(tree: Tree, denied: set<Location>, absolute: bool, cs: seq<string>, k: nat)
    requires k <= |cs| && !Built(tree, denied, absolute, cs[..k]).ok
    ensures Built(tree, denied, absolute, cs) == Built(tree, denied, absolute, cs[..k])
  {
    hide Checked;
    if k == |cs| {
      assert cs[..k] == cs;
    } else {
      assert cs[..|cs| - 1][..k] == cs[..k];
      FirstFails(tree, denied, absolute, cs[..|cs| - 1], k);
    }
  }

  /** One more component: the string that is checked, and what checking it adds. */
  lemma PrefixStep(tree: Tree, made: Tree, denied: set<Location>, parents: string, k: nat)
    requires 1 <= k <= |Components(parents)|
    requires Built(tree, denied, Absolute(parents), Components(parents)[..k - 1]) == Outcome(made, true)
    ensures var cs, s := Components(parents), Render(Absolute(parents), Components(parents)[..k]);
      && |s| <= |parents|
      && s == (if k > 1 then Render(Absolute(parents), cs[..k - 1]) + "/" + cs[k - 1]
               else (if Absolute(parents) then "/" else "") + cs[0])
      && Built(tree, denied, Absolute(parents), cs[..k]) == Checked(made, denied, Where(s))
  {
    hide Built, Components, Render, Where, Checked, Absolute;
    Prefixes(parents, k);
    RenderGrows(Absolute(parents), Components(parents), k);
    BuiltGrows(tree, denied, Absolute(parents), Components(parents), k);
  }

  lemma AttemptFails(tree: Tree, denied: set<Location>, absolute: bool, cs: seq<string>, k: nat)
    requires k <= |cs| && k <= MAX_DEPTH + 1 && !Built(tree, denied, absolute, cs[..k]).ok
    ensures Built(tree, denied, absolute, Attempted(cs)) == Built(tree, denied, absolute, cs[..k])
  {
    hide Built;
    assert Attempted(cs)[..k] == cs[..k];
    FirstFails(tree, denied, absolute, Attempted(cs), k);
  }

  lemma NothingToBuild(tree: Tree, denied: set<Location>, absolute: bool, cs: seq<string>)
    requires cs == []
    ensures Attempted(cs) == [] && Built(tree, denied, absolute, cs) == Outcome(tree, true)
  {
  }

  lemma Concludes(tree: Tree, denied: set<Location>, path: string, made: Tree, ok: bool)
    requires Dirname(path) != "."
    requires Built(tree, denied, Absolute(Dirname(path)), Attempted(Components(Dirname(path)))) == Outcome(made, ok)
    ensures CheckedFilePath(tree, denied, path) == Outcome(made, ok && |Components(Dirname(path))| <= MAX_DEPTH)
  {
  }

  lemma NothingToCheck(tree: Tree, denied: set<Location>, path: string)
    requires Dirname(path) == "."
    ensures CheckedFilePath(tree, denied, path) == Outcome(tree, true)
  {
  }

  lemma LoopEnds(cs: seq<string>, depth: nat, more: bool)
    requires depth <= MAX_DEPTH && depth + 1 <= |cs|
    requires if more then depth == MAX_DEPTH && depth + 1 < |cs| else depth + 1 == |cs|
    ensures Attempted(cs) == cs[..depth + 1]
    ensures depth >= MAX_DEPTH <==> |cs| > MAX_DEPTH
  {
  }

  class FileTree {
    var tree: Tree
    const denied: set<Location>

    constructor (tree: Tree, denied: set<Location>)
      ensures this.tree == tree && this.denied == denied
    {
      this.tree, this.denied := tree, denied;
    }

    method CheckDir(dirname: string) returns (status: int)
      modifies `tree
      ensures Outcome(tree, status == 0) == Checked(old(tree), denied, Where(dirname)) && status in {0, -1}
    {
      var at := Where(dirname);
      status := 0;
      if at !in tree {
        if CanMake(tree, denied, at) {
          tree := tree[at := Directory];
        } else {
          status := -1;
        }
      } else if tree[at] != Directory {
        status := -1;
      }
    }

    method CheckFilePath(pathname: string) returns (status: int)
      modifies `tree
      ensures Outcome(tree, status == 0) == CheckedFilePath(old(tree), denied, pathname) && status in {0, -1}
    {
      hide Components, Dirname, Built, Checked, Where, Render, Join, Attempted, Ahead, Text, CheckedFilePath;
      var parents := Dirname(pathname);
      if parents == "." {
        NothingToCheck(tree, denied, pathname);
        return 0;
      }
      DirnameDropsLast(pathname);
      ghost var cs := Components(parents);
      var buffer := new char[|pathname| + 1](_ => '\0');
      var absolute := |parents| > 0 && parents[0] == SLASH;
      var leading := if absolute then "/" else "";
      var token, next := NextToken(parents, 0);
      assert parents[0..] == parents;
      AheadFirst(cs, 0, token, Components(parents[next..]));
      if token == None {
        NothingToBuild(tree, denied, absolute, cs);
        Concludes(tree, denied, pathname, tree, true);
        return 0;
      }
      NothingToBuild(tree, denied, absolute, cs[..0]);
      PrefixStep(tree, tree, denied, parents, 1);
      status := CheckDir(leading + token.value);
      if status != 0 {
        AttemptFails(old(tree), denied, absolute, cs, 1);
        Concludes(old(tree), denied, pathname, tree, false);
        return -1;
      }
      Put(buffer, 0, leading + token.value);
      var length := |leading + token.value|;
      var depth := 0;
      ghost var rest := Components(parents[next..]);
      var following, after := NextToken(parents, next);
      AheadMoves(cs, 0, token, rest, following, Components(parents[after..]));
      token, next := following, after;
      while token.Some? && depth < MAX_DEPTH
        invariant 0 <= depth <= MAX_DEPTH && depth + 1 <= |cs| && 0 <= next <= |parents|
        invariant Ahead(cs, depth + 1, token, Components(parents[next..]))
        invariant 0 <= length < buffer.Length && fresh(buffer)
        invariant Text(buffer, length) == Render(absolute, cs[..depth + 1])
        invariant |Render(absolute, cs[..depth + 1])| == length
        invariant Built(old(tree), denied, absolute, cs[..depth + 1]) == Outcome(tree, true)
        decreases MAX_DEPTH - depth
      {
        AheadFirst(cs, depth + 1, token, Components(parents[next..]));
        PrefixStep(old(tree), tree, denied, parents, depth + 2);
        length := Extend(buffer, length, token.value);
        status := CheckDir(Text(buffer, length));
        if status != 0 {
          AttemptFails(old(tree), denied, absolute, cs, depth + 2);
          Concludes(old(tree), denied, pathname, tree, false);
          return -1;
        }
        depth := depth + 1;
        rest := Components(parents[next..]);
        following, after := NextToken(parents, next);
        AheadMoves(cs, depth, token, rest, following, Components(parents[after..]));
        token, next := following, after;
      }
      AheadFirst(cs, depth + 1, token, Components(parents[next..]));
      LoopEnds(cs, depth, token.Some?);
      Concludes(old(tree), denied, pathname, tree, true);
      status := if depth >= MAX_DEPTH then -1 else 0;
    }
  }
}
