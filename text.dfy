/** The string operations the compiler applies to directory-entry names:
    the `_` prefix test, `#` rewriting, `split('#')`, ASCII case mapping
    and Node's `path.parse` split of a base name into name and extension. */
module Text {
  import opened Wrappers

  /** `/^_/.test(link)`: the entry is excluded from compilation. */
  predicate IsHidden(link: string) {
    |link| > 0 && link[0] == '_'
  }

  /** `link.replace(/#/g, ':')`: every `#` becomes a path-parameter marker. */
  function ReplaceHash(s: string): (r: string)
    ensures |r| == |s|
    ensures forall i :: 0 <= i < |s| ==> r[i] == (if s[i] == '#' then ':' else s[i])
    ensures '#' !in r
  {
    if s == [] then [] else [if s[0] == '#' then ':' else s[0]] + ReplaceHash(s[1..])
  }

  /** The path segment a sub-directory is mounted under: `/${link.replace(/#/g, ':')}`. */
  function MountSegment(link: string): (seg: string)
    ensures |seg| == |link| + 1 && seg[0] == '/'
    ensures '#' !in seg
    ensures forall i :: 0 <= i < |link| ==> seg[i + 1] == (if link[i] == '#' then ':' else link[i])
  {
    "/" + ReplaceHash(link)
  }

  /** Concatenation regroups freely. */
  lemma AppendAssoc<T>(a: seq<T>, b: seq<T>, c: seq<T>)
    ensures a + (b + c) == (a + b) + c
  {
  }

  // ---------------------------------------------------------------------------
  // name.split('#')

  /** The inverse of `split('#')`: the segments glued back with `#`. */
  function JoinHash(segs: seq<string>): string
    requires |segs| >= 1
  {
    if |segs| == 1 then segs[0] else segs[0] + "#" + JoinHash(segs[1..])
  }

  /** JavaScript's `s.split('#')`: never empty, and no segment holds a `#`. */
  function SplitHash(s: string): (r: seq<string>)
    ensures |r| >= 1
    ensures forall i :: 0 <= i < |r| ==> '#' !in r[i]
  {
    if s == [] then [""]
    else
      var rest := SplitHash(s[1..]);
      if s[0] == '#' then [""] + rest else [[s[0]] + rest[0]] + rest[1..]
  }

  lemma JoinConsChar(c: char, segs: seq<string>)
    requires |segs| >= 1
    ensures JoinHash([[c] + segs[0]] + segs[1..]) == [c] + JoinHash(segs)
  {
    var x := [[c] + segs[0]] + segs[1..];
    if |segs| > 1 {
      assert x[1..] == segs[1..];
      assert JoinHash(x) == ([c] + segs[0]) + "#" + JoinHash(segs[1..]);
    }
  }

  /** Splitting and joining again gives back the name. */
  lemma {:induction false} JoinSplit(s: string)
    ensures JoinHash(SplitHash(s)) == s
  {
    if s != [] {
      JoinSplit(s[1..]);
      var rest := SplitHash(s[1..]);
      if s[0] == '#' {
        assert ([""] + rest)[1..] == rest;
        assert s == "" + "#" + s[1..];
      } else {
        JoinConsChar(s[0], rest);
        assert s == [s[0]] + s[1..];
      }
    }
  }

  lemma {:induction false} SplitPrefix(a: string, t: string)
    requires '#' !in a
    ensures SplitHash(a + t) == [a + SplitHash(t)[0]] + SplitHash(t)[1..]
  {
    if a != [] {
      SplitPrefix(a[1..], t);
      var tail := SplitHash(t);
      assert (a + t)[0] == a[0] && (a + t)[1..] == a[1..] + t;
      var rest := SplitHash(a[1..] + t);
      assert rest[0] == a[1..] + tail[0] && rest[1..] == tail[1..];
      assert SplitHash(a + t) == [[a[0]] + rest[0]] + rest[1..];
      assert [a[0]] + (a[1..] + tail[0]) == a + tail[0];
    } else {
      var tail := SplitHash(t);
      assert a + t == t && a + tail[0] == tail[0];
      assert [tail[0]] + tail[1..] == tail;
    }
  }

  /** Joining segments free of `#` and splitting again gives back the segments. */
  lemma {:induction false} SplitJoin(segs: seq<string>)
    requires |segs| >= 1
    requires forall i :: 0 <= i < |segs| ==> '#' !in segs[i]
    ensures SplitHash(JoinHash(segs)) == segs
  {
    if |segs| == 1 {
      SplitPrefix(segs[0], "");
      assert segs[0] + "" == segs[0];
    } else {
      var j := JoinHash(segs[1..]);
      SplitJoin(segs[1..]);
      assert ("#" + j)[0] == '#' && ("#" + j)[1..] == j;
      assert SplitHash("#" + j) == [""] + segs[1..];
      SplitPrefix(segs[0], "#" + j);
      assert segs[0] + "#" + j == segs[0] + ("#" + j);
      assert ([""] + segs[1..])[0] == "" && ([""] + segs[1..])[1..] == segs[1..];
      assert segs[0] + "" == segs[0];
      assert [segs[0]] + segs[1..] == segs;
    }
  }

  /** The text before the first `#`: the method token of an endpoint file. */
  function MethodToken(name: string): (m: string)
    ensures '#' !in m
    ensures m == name || (|m| < |name| && name[|m|] == '#' && name[..|m|] == m)
  {
    var segs := SplitHash(name);
    JoinSplit(name);
    if |segs| > 1 then
      assert name == segs[0] + ("#" + JoinHash(segs[1..]));
      segs[0]
    else segs[0]
  }

  /** The second `#`-segment, `undefined` when the name holds no `#`. */
  function DisplayName(name: string): (n: Option<string>)
    ensures n.None? <==> '#' !in name
    ensures n.Some? ==> '#' !in n.value
    ensures n.Some? ==>
      var k := |MethodToken(name)| + 1;
      k + |n.value| <= |name| && name[k - 1] == '#' && name[k..k + |n.value|] == n.value &&
      (k + |n.value| == |name| || name[k + |n.value|] == '#')
  {
    var segs := SplitHash(name);
    JoinSplit(name);
    if |segs| > 1 then
      var tail := JoinHash(segs[1..]);
      assert name == segs[0] + "#" + tail;
      assert name[|segs[0]|] == '#';
      assert MethodToken(name) == segs[0];
      DisplayNameTail(segs[1..]);
      var k := |segs[0]| + 1;
      assert name[k..] == tail;
      Some(segs[1])
    else None
  }

  /** The joined tail of `split('#')` starts with its first segment, followed
      by a `#` or by nothing. */
  lemma DisplayNameTail(segs: seq<string>)
    requires |segs| >= 1
    ensures var j := JoinHash(segs);
      |segs[0]| <= |j| && j[..|segs[0]|] == segs[0] && (|segs[0]| == |j| || j[|segs[0]|] == '#')
  {
    if |segs| > 1 {
      assert JoinHash(segs) == segs[0] + ("#" + JoinHash(segs[1..]));
    }
  }

  // ---------------------------------------------------------------------------
  // toUpperCase / toLowerCase, on the ASCII letters

  function UpperChar(c: char): char {
    if 'a' <= c <= 'z' then (c as int - 32) as char else c
  }

  function LowerChar(c: char): char {
    if 'A' <= c <= 'Z' then (c as int + 32) as char else c
  }

  function ToUpper(s: string): string {
    if s == [] then [] else [UpperChar(s[0])] + ToUpper(s[1..])
  }

  function ToLower(s: string): string {
    if s == [] then [] else [LowerChar(s[0])] + ToLower(s[1..])
  }

  /** Upper-casing maps each character on its own and keeps the length. */
  lemma {:induction false} ToUpperAt(s: string)
    ensures |ToUpper(s)| == |s|
    ensures forall i :: 0 <= i < |s| ==> ToUpper(s)[i] == UpperChar(s[i])
  {
    if s != [] {
      ToUpperAt(s[1..]);
    }
  }

  /** Lower-casing maps each character on its own and keeps the length. */
  lemma {:induction false} ToLowerAt(s: string)
    ensures |ToLower(s)| == |s|
    ensures forall i :: 0 <= i < |s| ==> ToLower(s)[i] == LowerChar(s[i])
  {
    if s != [] {
      ToLowerAt(s[1..]);
    }
  }

  /** An upper-case ASCII word, such as an HTTP verb in a router's method list. */
  predicate IsUpperWord(w: string) {
    forall i :: 0 <= i < |w| ==> 'A' <= w[i] <= 'Z'
  }

  /** Lower-casing after upper-casing is lower-casing: the verb a route is
      registered under is the lower-case form of the token checked against
      the router's method list. */
  lemma {:induction false} LowerOfUpper(s: string)
    ensures ToLower(ToUpper(s)) == ToLower(s)
  {
    if s != [] {
      LowerOfUpper(s[1..]);
    }
  }

  lemma ConsEq(x: char, a: string, y: char, b: string)
    ensures [x] + a == [y] + b <==> x == y && a == b
  {
    if [x] + a == [y] + b {
      assert ([x] + a)[0] == x && ([x] + a)[1..] == a;
      assert ([y] + b)[0] == y && ([y] + b)[1..] == b;
    }
  }

  /** Against an upper-case letter, comparing after upper-casing is the
      same as comparing after lower-casing. */
  lemma UpperCharMatches(c: char, w: char)
    requires 'A' <= w <= 'Z'
    ensures UpperChar(c) == w <==> LowerChar(c) == LowerChar(w)
  {
  }

  /** The upper-cased token equals an upper-case word exactly when the
      lower-cased token equals that word in lower case: the method check
      and the `lmethod === 'post'` test agree. */
  lemma {:induction false} UpperMatchesWord(m: string, w: string)
    requires IsUpperWord(w)
    ensures ToUpper(m) == w <==> ToLower(m) == ToLower(w)
  {
    if m != [] && w != [] {
      UpperMatchesWord(m[1..], w[1..]);
      UpperCharMatches(m[0], w[0]);
      assert ToUpper(m) == [UpperChar(m[0])] + ToUpper(m[1..]);
      assert ToLower(m) == [LowerChar(m[0])] + ToLower(m[1..]);
      assert ToLower(w) == [LowerChar(w[0])] + ToLower(w[1..]);
      assert w == [w[0]] + w[1..];
      ConsEq(UpperChar(m[0]), ToUpper(m[1..]), w[0], w[1..]);
      ConsEq(LowerChar(m[0]), ToLower(m[1..]), LowerChar(w[0]), ToLower(w[1..]));
    } else if m != [] {
      assert |ToLower(m)| > 0;
    } else if w != [] {
      assert |ToLower(w)| > 0;
    }
  }

  // ---------------------------------------------------------------------------
  // path.parse(link): name and ext of a base name (a directory entry has no '/')

  /** Index of the last `.` in `s`. */
  function LastDot(s: string): (r: Option<nat>)
    ensures r.None? <==> '.' !in s
    ensures r.Some? ==> r.value < |s| && s[r.value] == '.'
    ensures r.Some? ==> forall i :: r.value < i < |s| ==> s[i] != '.'
  {
    if s == [] then None
    else if s[|s| - 1] == '.' then Some(|s| - 1)
    else
      var r := LastDot(s[..|s| - 1]);
      assert '.' in s[..|s| - 1] ==> '.' in s;
      assert '.' in s ==> '.' in s[..|s| - 1] by {
        if '.' in s {
          var k :| 0 <= k < |s| && s[k] == '.';
          assert s[..|s| - 1][k] == '.';
        }
      }
      r
  }

  /** Node's `path.parse(link)`, reduced to `{name, ext}`: the extension
      runs from the last `.` to the end, unless that `.` is the first
      character or the name is exactly `..`. */
  function ParsePath(link: string): (r: (string, string))
    ensures r.0 + r.1 == link
    ensures r.1 == [] <==> link == ".." || forall i :: 0 < i < |link| ==> link[i] != '.'
    ensures r.1 != [] ==> r.0 != [] && r.1[0] == '.' && forall i :: 0 < i < |r.1| ==> r.1[i] != '.'
  {
    match LastDot(link)
    case Some(k) =>
      if k > 0 && link != ".." then
        assert link[..k] + link[k..] == link;
        (link[..k], link[k..])
      else
        assert link != ".." ==> forall i :: 0 < i < |link| ==> link[i] != '.';
        (link, "")
    case None => (link, "")
  }

  /** Parsing a name followed by a one-dot extension gives back the two
      parts (the one exception, `..`, parses with no extension). */
  lemma ParseJoined(name: string, ext: string)
    requires name != [] && name + ext != ".."
    requires ext != [] && ext[0] == '.' && forall i :: 0 < i < |ext| ==> ext[i] != '.'
    ensures ParsePath(name + ext) == (name, ext)
  {
    var link := name + ext;
    var r := ParsePath(link);
    assert link[|name|] == '.';
    assert r.1 != [];
    var k := |r.0|;
    assert link[k] == r.1[0] == '.';
    assert link[..k] == r.0 && link[..|name|] == name;
  }

  /** A file name `a#b` with `#`-free parts has method token `a` and
      display name `b`. */
  lemma HashNameParts(a: string, b: string)
    requires '#' !in a && '#' !in b
    ensures MethodToken(a + "#" + b) == a
    ensures DisplayName(a + "#" + b) == Some(b)
  {
    SplitJoin([a, b]);
    assert JoinHash([a, b]) == a + "#" + b;
  }
}
