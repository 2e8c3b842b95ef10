/** Path names as the directory builder cuts and rebuilds them. */
module PathNames {

  const SLASH := '/'

  /** The length of the run before the next slash. */
  function TokenEnd(s: string): (k: nat)
    ensures k <= |s| && (k < |s| ==> s[k] == SLASH) && forall i :: 0 <= i < k ==> s[i] != SLASH
  {
    if s == [] || s[0] == SLASH then 0 else 1 + TokenEnd(s[1..])
  }

  lemma {:induction false} TokenEndIs(s: string, k: nat)
    requires k <= |s| && (k < |s| ==> s[k] == SLASH) && forall i :: 0 <= i < k ==> s[i] != SLASH
    ensures TokenEnd(s) == k
  {
    if k > 0 { TokenEndIs(s[1..], k - 1); }
  }

  /** The non-empty runs between slashes. */
  function Components(s: string): seq<string> {
    if s == [] then []
    else if s[0] == SLASH then Components(s[1..])
    else [s[..TokenEnd(s)]] + Components(s[TokenEnd(s)..])
  }

  function StripSlashes(s: string): string {
    if s != [] && s[|s| - 1] == SLASH then StripSlashes(s[..|s| - 1]) else s
  }

  function StripName(s: string): string {
    if s != [] && s[|s| - 1] != SLASH then StripName(s[..|s| - 1]) else s
  }

  /** The dirname function of the C library. */
  function Dirname(path: string): string {
    if path == "" then "."
    else if StripSlashes(path) == "" then "/"
    else
      var head := StripName(StripSlashes(path));
      if head == "" then "." else if StripSlashes(head) == "" then "/" else StripSlashes(head)
  }

  predicate Absolute(s: string) {
    s != [] && s[0] == SLASH
  }

  /** A relative path from its components, and the same from the root. */
  function Join(cs: seq<string>): string {
    if cs == [] then ""
    else if |cs| == 1 then cs[0]
    else cs[0] + [SLASH] + Join(cs[1..])
  }

  function Render(absolute: bool, cs: seq<string>): string {
    if absolute then [SLASH] + Join(cs) else Join(cs)
  }

  predicate Name(c: string) {
    c != [] && SLASH !in c
  }

  predicate Names(cs: seq<string>) {
    forall c :: c in cs ==> Name(c)
  }

  lemma {:induction false} ComponentsAreNames(s: string)
    ensures Names(Components(s))
  {
    if s == [] {
    } else if s[0] == SLASH {
      ComponentsAreNames(s[1..]);
    } else {
      ComponentsAreNames(s[TokenEnd(s)..]);
    }
  }

  /** A leading name is the first component. */
  lemma ComponentsToken(c: string, rest: string)
    requires Name(c) && (rest == [] || rest[0] == SLASH)
    ensures Components(c + rest) == [c] + Components(rest)
  {
    var s := c + rest;
    TokenEndIs(s, |c|);
    assert s[..|c|] == c && s[|c|..] == rest;
  }

  lemma SlashSkipped(s: string, i: nat)
    requires i < |s| && s[i] == SLASH
    ensures Components(s[i..]) == Components(s[i + 1..])
  {
    assert s[i..][1..] == s[i + 1..];
  }

  lemma NameAlone(c: string)
    requires Name(c)
    ensures Components(c) == [c]
  {
    ComponentsToken(c, []);
    assert c + [] == c;
  }

  lemma FirstToken(a: string) returns (c: string, rest: string)
    requires a != [] && a[0] != SLASH
    ensures a == c + rest && Name(c) && (rest == [] || rest[0] == SLASH)
  {
    c, rest := a[..TokenEnd(a)], a[TokenEnd(a)..];
  }

  /** A slash separates. */
  lemma {:induction false} ComponentsAtSlash(a: string, b: string)
    ensures Components(a + [SLASH] + b) == Components(a) + Components(b)
    decreases |a|
  {
    var whole := a + [SLASH] + b;
    if a == [] {
      assert whole[1..] == b;
    } else if a[0] == SLASH {
      assert whole[1..] == a[1..] + [SLASH] + b;
      ComponentsAtSlash(a[1..], b);
    } else {
      hide Components;
      var c, rest := FirstToken(a);
      ComponentsAtSlash(rest, b);
      ComponentsToken(c, rest);
      ComponentsToken(c, rest + [SLASH] + b);
      assert whole == c + (rest + [SLASH] + b);
    }
  }

  /** What is rebuilt from components has exactly those components. */
  lemma {:induction false} ComponentsOfJoin(cs: seq<string>)
    requires Names(cs)
    ensures Components(Join(cs)) == cs
  {
    if |cs| == 1 {
      assert cs[0] in cs && cs == [cs[0]];
      NameAlone(cs[0]);
    } else if |cs| > 1 {
      assert cs[0] in cs && forall c :: c in cs[1..] ==> c in cs;
      ComponentsOfJoin(cs[1..]);
      NameAlone(cs[0]);
      ComponentsAtSlash(cs[0], Join(cs[1..]));
    }
  }

  lemma ComponentsOfRender(absolute: bool, cs: seq<string>)
    requires Names(cs)
    ensures Components(Render(absolute, cs)) == cs
    ensures cs != [] ==> (Absolute(Render(absolute, cs)) <==> absolute)
  {
    ComponentsOfJoin(cs);
    if absolute { assert Render(true, cs)[1..] == Join(cs); }
    if cs != [] { assert cs[0] in cs && Join(cs)[0] == cs[0][0]; }
  }

  lemma {:induction false} JoinGrows(cs: seq<string>, c: string)
    requires cs != []
    ensures Join(cs + [c]) == Join(cs) + [SLASH] + c
  {
    if |cs| == 1 {
      assert (cs + [c])[1..] == [c];
    } else {
      assert (cs + [c])[1..] == cs[1..] + [c];
      JoinGrows(cs[1..], c);
    }
  }

  lemma RenderLonger(absolute: bool, cs: seq<string>, c: string)
    requires cs != []
    ensures Render(absolute, cs + [c]) == Render(absolute, cs) + "/" + c
  {
    hide Join;
    JoinGrows(cs, c);
    Associate([SLASH], Join(cs), "/" + c);
    Associate(Join(cs), "/", c);
    Associate(Render(absolute, cs), "/", c);
  }

  lemma Associate(a: string, b: string, c: string)
    ensures a + (b + c) == (a + b) + c
  {
  }

  /** Collapsing slashes does not make a path longer. */
  lemma {:induction false} JoinFits(s: string)
    ensures |Join(Components(s))| <= |s|
    ensures Absolute(s) ==> |Join(Components(s))| + 1 <= |s|
    decreases |s|
  {
    if s == [] {
    } else if s[0] == SLASH {
      JoinFits(s[1..]);
    } else {
      var k := TokenEnd(s);
      JoinFits(s[k..]);
      assert Components(s)[1..] == Components(s[k..]);
      assert k < |s| ==> Absolute(s[k..]);
    }
  }

  lemma {:induction false} ShorterJoinFits(cs: seq<string>, k: nat)
    requires k <= |cs|
    ensures |Join(cs[..k])| <= |Join(cs)|
  {
    if k > 1 {
      assert cs[..k][1..] == cs[1..][..k - 1];
      ShorterJoinFits(cs[1..], k - 1);
    }
  }

  /** Every prefix that is rebuilt is no longer than the path it was cut from. */
  lemma PrefixFits(s: string, k: nat)
    requires k <= |Components(s)| && s != []
    ensures |Render(Absolute(s), Components(s)[..k])| <= |s|
  {
    JoinFits(s);
    ShorterJoinFits(Components(s), k);
  }

  lemma {:induction false} StripSlashesKeeps(s: string)
    ensures Components(StripSlashes(s)) == Components(s)
    ensures StripSlashes(s) <= s
    ensures StripSlashes(s) != [] ==> StripSlashes(s)[|StripSlashes(s)| - 1] != SLASH
    ensures StripSlashes(s) == [] && s != [] ==> Absolute(s)
  {
    if s != [] && s[|s| - 1] == SLASH {
      StripSlashesKeeps(s[..|s| - 1]);
      assert s == s[..|s| - 1] + [SLASH] + [];
      ComponentsAtSlash(s[..|s| - 1], []);
    }
  }

  lemma {:induction false} StripNameCuts(s: string)
    ensures StripName(s) <= s
    ensures SLASH !in s[|StripName(s)|..]
    ensures StripName(s) != [] ==> StripName(s)[|StripName(s)| - 1] == SLASH
  {
    if s != [] && s[|s| - 1] != SLASH {
      var p := s[..|s| - 1];
      StripNameCuts(p);
      assert s[|StripName(s)|..] == p[|StripName(s)|..] + [s[|s| - 1]];
    }
  }

  lemma Trivial()
    ensures Components("") == [] && Components("/") == []
  {
    assert "/"[1..] == "";
  }

  /** A path that ends in a name: what is before it, and the name. */
  lemma LastName(t: string)
    requires t != "" && t[|t| - 1] != SLASH
    ensures var head := StripName(t);
      && head <= t && (if head == "" then |Components(t)| == 1
                       else |Components(t)| > 0 && Components(t)[..|Components(t)| - 1] == Components(head))
  {
    hide Components, StripName;
    StripNameCuts(t);
    var head := StripName(t);
    var last := t[|head|..];
    assert t == head + last && last != "" by {
      assert |t| == |head| + |last| && t[|t| - 1] != SLASH;
    }
    NameAlone(last);
    if head == "" {
      assert t == last;
    } else {
      var h := head[..|head| - 1];
      assert head == h + [SLASH] + [] && t == h + [SLASH] + last;
      ComponentsAtSlash(h, last);
      ComponentsAtSlash(h, []);
      Trivial();
    }
  }

  /** The parent path has all components but the last; one component leaves nothing to
      check. */
  lemma DirnameDropsLast(path: string)
    ensures var cs, parents := Components(path), Components(Dirname(path));
      && (|cs| >= 2 ==> parents == cs[..|cs| - 1])
      && (|cs| < 2 ==> Dirname(path) == "." || parents == [])
    ensures |Dirname(path)| <= |path| || Dirname(path) == "."
    ensures Dirname(path) != "." ==> (Absolute(Dirname(path)) <==> Absolute(path))
  {
    hide Components, StripName, StripSlashes;
    Trivial();
    StripSlashesKeeps(path);
    var t := StripSlashes(path);
    if path != "" && t != "" {
      LastName(t);
      StripSlashesKeeps(StripName(t));
    }
  }

  lemma {:induction false} OnlySlashesEnd(s: string)
    requires s != "" && Components(s) == []
    ensures s[|s| - 1] == SLASH
  {
    if |s| > 1 { OnlySlashesEnd(s[1..]); }
  }

  lemma OneComponent(s: string)
    requires s != "" && s[0] != SLASH && s[|s| - 1] != SLASH && |Components(s)| == 1
    ensures Components(s) == [s]
  {
    hide Components;
    var c, rest := FirstToken(s);
    ComponentsToken(c, rest);
    assert Components(rest) == [] by { assert |[c] + Components(rest)| == 1 + |Components(rest)|; }
    if rest != "" {
      OnlySlashesEnd(rest);
      assert false;
    }
    assert s == c && [c] + [] == [c];
  }

  lemma NoComponents(s: string)
    requires Components(s) == [] && s != ""
    ensures Absolute(s)
  {
  }

  /** The parent of a path is the current directory, written as a dot, exactly when the path
      is relative and has no parent part, or the dot alone as one. */
  lemma DirnameIsDotExactlyWhen(path: string)
    ensures var cs := Components(path);
      Dirname(path) == "." <==> !Absolute(path) && (|cs| <= 1 || cs[..|cs| - 1] == ["."])
  {
    hide Components, StripName, StripSlashes;
    Trivial();
    NameAlone(".");
    DirnameDropsLast(path);
    StripSlashesKeeps(path);
    var t := StripSlashes(path);
    if path != "" && t != "" {
      LastName(t);
      var head := StripName(t);
      StripSlashesKeeps(head);
      var d := StripSlashes(head);
      if head == "" {
        StripNameCuts(t);
      } else if d == "" {
        assert Absolute(path);
      } else if !Absolute(path) {
        if |Components(path)| <= 1 {
          NoComponents(d);
        } else if Components(d) == ["."] {
          OneComponent(d);
        }
      }
    }
  }
}
