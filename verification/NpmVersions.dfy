/** Exact versions as a grammar: what the scanner that cuts at the first sign accepts, put together from parts. */
module NpmVersions {
  import opened NpmPaths

  /** A number without leading zeros. */
  predicate Number(s: string) {
    && s != "" && (forall i :: 0 <= i < |s| ==> '0' <= s[i] <= '9') && (s == "0" || s[0] != '0')
  }

  /** Nothing, or a sign and identifiers between dots, none of them empty. */
  predicate Tail(s: string, sign: char) { s == "" || (s[0] == sign && Dotless(s[1..])) }

  predicate Dotless(s: string) {
    && s != "" && s[0] != '.' && s[|s| - 1] != '.'
    && (forall i :: 0 <= i < |s| ==> Alnum(s[i]) || s[i] == '-' || s[i] == '.')
    && forall i :: 0 < i < |s| ==> !(s[i] == '.' && s[i - 1] == '.')
  }

  function Dotted(a: string, b: string): string { a + "." + b }

  function Core(x: string, y: string, z: string): string { Dotted(x, Dotted(y, z)) }

  predicate Without(s: string, c: char) { forall i :: 0 <= i < |s| ==> s[i] != c }

  lemma CutBack(head: string, tail: string, c: char)
    requires Without(head, c) && (tail == "" || tail[0] == c)
    ensures IndexOf(head + tail, c) == |head| && (head + tail)[..|head|] == head
    ensures tail != "" ==> (head + tail)[|head| + 1..] == tail[1..]
  {
    var all := head + tail;
    assert forall i :: 0 <= i < |head| ==> all[i] == head[i];
    assert tail != "" ==> all[|head|] == c;
  }

  lemma PutBack(s: string, c: char)
    ensures var i := IndexOf(s, c); s == s[..i] + s[i..] && (i < |s| ==> s[i..][0] == c && s[i..][1..] == s[i + 1..])
  {
  }

  lemma DotBack(a: string, b: string)
    requires Without(a, '.')
    ensures var i := IndexOf(Dotted(a, b), '.'); i == |a| && Dotted(a, b)[..i] == a && Dotted(a, b)[i + 1..] == b
  {
    assert Dotted(a, b) == a + ("." + b);
    CutBack(a, "." + b, '.');
    assert ("." + b)[1..] == b;
  }

  lemma DotFound(s: string)
    requires IndexOf(s, '.') < |s|
    ensures var i := IndexOf(s, '.'); s == Dotted(s[..i], s[i + 1..])
  {
  }

  lemma NumberIsDigits(s: string)
    ensures Number(s) <==> Digits(s)
  {
  }

  lemma TailIs(s: string, sign: char)
    requires s != "" && s[0] == sign
    ensures Tail(s, sign) <==> Identifiers(s[1..])
  {
  }

  /** The scanner's three cuts, named. */
  lemma CoreByCuts(s: string, x: string, rest: string, y: string, z: string)
    requires IndexOf(s, '.') == |x| < |s| && s[..|x|] == x && s[|x| + 1..] == rest
    requires IndexOf(rest, '.') == |y| < |rest| && rest[..|y|] == y && rest[|y| + 1..] == z
    ensures VersionCore(s) <==> Digits(x) && Digits(y) && Digits(z)
  {
  }

  lemma CoreIs(x: string, y: string, z: string)
    requires Number(x) && Number(y) && Number(z)
    ensures VersionCore(Core(x, y, z))
  {
    NumbersAreDigits(x, y, z);
    DotBack(x, Dotted(y, z));
    DotBack(y, z);
    CoreByCuts(Core(x, y, z), x, Dotted(y, z), y, z);
  }

  lemma NumbersAreDigits(x: string, y: string, z: string)
    ensures (Number(x) <==> Digits(x)) && (Number(y) <==> Digits(y)) && (Number(z) <==> Digits(z))
  {
    NumberIsDigits(x);
    NumberIsDigits(y);
    NumberIsDigits(z);
  }

  lemma CoreCuts(s: string) returns (x: string, rest: string, y: string, z: string)
    requires VersionCore(s)
    ensures Digits(x) && Digits(y) && Digits(z) && s == Dotted(x, rest) && rest == Dotted(y, z)
  {
    var i := IndexOf(s, '.');
    x, rest := s[..i], s[i + 1..];
    DotFound(s);
    var j := IndexOf(rest, '.');
    y, z := rest[..j], rest[j + 1..];
    DotFound(rest);
  }

  lemma CoreParts(s: string) returns (x: string, y: string, z: string)
    requires VersionCore(s)
    ensures Number(x) && Number(y) && Number(z) && s == Core(x, y, z)
  {
    var rest;
    x, rest, y, z := CoreCuts(s);
    NumbersAreDigits(x, y, z);
  }

  lemma JoinWithout(a: string, b: string, c: char)
    requires Without(a, c) && Without(b, c)
    ensures Without(a + b, c)
  {
  }

  lemma CoreWithout(x: string, y: string, z: string, c: char)
    requires Number(x) && Number(y) && Number(z) && (c == '-' || c == '+')
    ensures Without(Core(x, y, z), c)
  {
    JoinWithout(y + ".", z, c);
    JoinWithout(x + ".", Dotted(y, z), c);
  }

  lemma TailWithoutPlus(pre: string)
    requires Tail(pre, '-')
    ensures Without(pre, '+')
  {
    if pre != "" { assert pre == [pre[0]] + pre[1..]; }
  }

  lemma SemverByCuts(s: string, release: string, core: string, pre: string, build: string)
    requires IndexOf(s, '+') == |release| <= |s| && s[..|release|] == release && s[|release|..] == build
    requires IndexOf(release, '-') == |core| <= |release| && release[..|core|] == core && release[|core|..] == pre
    ensures IsExactSemver(s) <==>
      && VersionCore(core)
      && (pre != "" ==> Identifiers(release[|core| + 1..])) && (build != "" ==> Identifiers(s[|release| + 1..]))
  {
  }

  lemma Pieces(head: string, tail: string)
    ensures (head + tail)[|head|..] == tail && (tail != "" ==> (head + tail)[|head| + 1..] == tail[1..])
  {
  }

  /** Three plain numbers, then perhaps a pre-release, then perhaps a build, are accepted ... */
  lemma VersionAccepted(x: string, y: string, z: string, pre: string, build: string)
    requires Number(x) && Number(y) && Number(z) && Tail(pre, '-') && Tail(build, '+')
    ensures IsExactSemver(Core(x, y, z) + pre + build)
  {
    var core := Core(x, y, z);
    var release := core + pre;
    CoreIs(x, y, z);
    CoreWithout(x, y, z, '+');
    CoreWithout(x, y, z, '-');
    TailWithoutPlus(pre);
    JoinWithout(core, pre, '+');
    AcceptedByCuts(core, pre, build);
  }

  lemma AcceptedByCuts(core: string, pre: string, build: string)
    requires VersionCore(core) && Without(core, '-') && Without(core + pre, '+') && Tail(pre, '-') && Tail(build, '+')
    ensures IsExactSemver(core + pre + build)
  {
    CutBack(core + pre, build, '+');
    CutBack(core, pre, '-');
    Pieces(core + pre, build);
    Pieces(core, pre);
    SemverByCuts(core + pre + build, core + pre, core, pre, build);
    if pre != "" { TailIs(pre, '-'); }
    if build != "" { TailIs(build, '+'); }
  }

  lemma VersionCuts(s: string) returns (core: string, pre: string, build: string)
    requires IsExactSemver(s)
    ensures VersionCore(core) && Tail(pre, '-') && Tail(build, '+') && s == core + pre + build
  {
    var plus := IndexOf(s, '+');
    var release := s[..plus];
    var dash := IndexOf(release, '-');
    core, pre, build := release[..dash], release[dash..], s[plus..];
    PutBack(s, '+');
    PutBack(release, '-');
    SemverByCuts(s, release, core, pre, build);
    if pre != "" { TailIs(pre, '-'); }
    if build != "" { TailIs(build, '+'); }
  }

  /** ... and nothing else is. */
  lemma VersionParts(s: string) returns (x: string, y: string, z: string, pre: string, build: string)
    requires IsExactSemver(s)
    ensures Number(x) && Number(y) && Number(z) && Tail(pre, '-') && Tail(build, '+')
    ensures s == Core(x, y, z) + pre + build
  {
    var core;
    core, pre, build := VersionCuts(s);
    x, y, z := CoreParts(core);
  }
}
