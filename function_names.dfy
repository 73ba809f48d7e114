/**
 * Names of the function bundles in the build output.
 *
 * `getFuncName(suffix)` joins the fixed prefix "__nitro" and the runtime tag
 * with "-", after deleting from the tag the FIRST character outside
 * [A-Za-z0-9_-] (the pattern has no global flag, so every later such
 * character stays), and drops the tag when it is then empty.
 * `getFunctionPath(suffix)` places that name under "output/functions/" with
 * the extension ".func".
 */
module FunctionNames {

  const Prefix: string := "__nitro"
  const Separator: string := "-"
  const FunctionsDir: string := "output/functions/"
  const BundleExtension: string := ".func"

  /** A character of the class `[\w-]` of a pattern without the `u` flag. */
  predicate IsNameChar(c: char) {
    ('A' <= c <= 'Z') || ('a' <= c <= 'z') || ('0' <= c <= '9') || c == '_' || c == '-'
  }

  predicate AllNameChars(s: string) {
    forall i :: 0 <= i < |s| ==> IsNameChar(s[i])
  }

  /** The number of characters of `s` outside [A-Za-z0-9_-]. */
  function ForeignCount(s: string): nat {
    if s == [] then 0
    else (if IsNameChar(s[0]) then 0 else 1) + ForeignCount(s[1..])
  }

  /**
   * `s.replace(/[^\w-]/, "")`: scans from the left and deletes the first
   * character outside [A-Za-z0-9_-]; a string without one is returned as is.
   */
  function StripFirstForeign(s: string): (r: string)
    ensures |s| - 1 <= |r| <= |s|
  {
    if s == [] then []
    else if !IsNameChar(s[0]) then s[1..]
    else [s[0]] + StripFirstForeign(s[1..])
  }

  lemma NameCharsCons(s: string)
    requires s != []
    ensures AllNameChars(s) <==> IsNameChar(s[0]) && AllNameChars(s[1..])
  {
    if IsNameChar(s[0]) && AllNameChars(s[1..]) {
      forall i | 0 < i < |s| ensures IsNameChar(s[i]) { assert s[i] == s[1..][i - 1]; }
    }
  }

  /** A string has no foreign character exactly when its count is zero. */
  lemma {:induction false} ForeignCountZeroIff(s: string)
    ensures ForeignCount(s) == 0 <==> AllNameChars(s)
  {
    if s != [] {
      NameCharsCons(s);
      ForeignCountZeroIff(s[1..]);
    }
  }

  /** Cleaning deletes one foreign character when there is one, and nothing else. */
  lemma {:induction false} StripCounts(s: string)
    ensures |StripFirstForeign(s)| == if ForeignCount(s) == 0 then |s| else |s| - 1
    ensures ForeignCount(StripFirstForeign(s)) == if ForeignCount(s) == 0 then 0 else ForeignCount(s) - 1
  {
    if s != [] && IsNameChar(s[0]) {
      var tail := StripFirstForeign(s[1..]);
      StripCounts(s[1..]);
      assert ([s[0]] + tail)[1..] == tail;
    }
  }

  /** `parts.filter((s) => s)`: the empty string is the only falsy string. */
  function NonEmptyParts(parts: seq<string>): (r: seq<string>)
    ensures |r| <= |parts|
    ensures forall i :: 0 <= i < |r| ==> r[i] != []
  {
    if parts == [] then []
    else if parts[0] == [] then NonEmptyParts(parts[1..])
    else [parts[0]] + NonEmptyParts(parts[1..])
  }

  /** Filtering a concatenation filters each part and keeps their order. */
  lemma {:induction false} NonEmptyPartsAppend(a: seq<string>, b: seq<string>)
    ensures NonEmptyParts(a + b) == NonEmptyParts(a) + NonEmptyParts(b)
  {
    if a != [] {
      assert (a + b)[0] == a[0];
      assert (a + b)[1..] == a[1..] + b;
      NonEmptyPartsAppend(a[1..], b);
    } else {
      assert a + b == b;
    }
  }

  /** A single part is kept exactly when it is not empty. */
  lemma NonEmptyPartsSingleton(s: string)
    ensures NonEmptyParts([s]) == if s == [] then [] else [s]
  {
    assert [s][1..] == [];
  }

  /** Every part of a list without empty parts is kept, in order. */
  lemma {:induction false} NonEmptyPartsKeepsAll(parts: seq<string>)
    requires forall i :: 0 <= i < |parts| ==> parts[i] != []
    ensures NonEmptyParts(parts) == parts
  {
    if parts != [] {
      NonEmptyPartsKeepsAll(parts[1..]);
      assert parts == [parts[0]] + parts[1..];
    }
  }

  /** `parts.join(sep)`. */
  function Join(parts: seq<string>, sep: string): (r: string)
    ensures |parts| == 1 ==> r == parts[0]
    ensures |parts| > 0 ==> |parts[0]| <= |r| && r[..|parts[0]|] == parts[0]
  {
    if parts == [] then []
    else if |parts| == 1 then parts[0]
    else parts[0] + sep + Join(parts[1..], sep)
  }

  /** `getFuncName(suffix)`. */
  function FuncName(suffix: string): (name: string)
    ensures StripFirstForeign(suffix) == [] ==> name == Prefix
    ensures StripFirstForeign(suffix) != [] ==> name == Prefix + Separator + StripFirstForeign(suffix)
  {
    var tag := StripFirstForeign(suffix);
    var parts := [Prefix, tag];
    assert [tag][1..] == [];
    assert NonEmptyParts([tag]) == if tag == [] then [] else [tag];
    assert parts[1..] == [tag];
    assert NonEmptyParts(parts) == [Prefix] + NonEmptyParts([tag]);
    assert [Prefix, tag][1..] == [tag];
    assert Join([tag], Separator) == tag;
    Join(NonEmptyParts(parts), Separator)
  }

  /** `getFunctionPath(suffix)`; the default argument is the empty tag. */
  function FunctionPath(suffix: string): (path: string)
    ensures |path| == |FunctionsDir| + |FuncName(suffix)| + |BundleExtension|
    ensures path[..|FunctionsDir|] == FunctionsDir
    ensures path[|path| - |BundleExtension|..] == BundleExtension
    ensures path[|FunctionsDir|..|path| - |BundleExtension|] == FuncName(suffix)
  {
    FunctionsDir + FuncName(suffix) + BundleExtension
  }

  /** Two parts are joined with one separator between them. */
  lemma JoinPair(a: string, b: string, sep: string)
    ensures Join([a, b], sep) == a + sep + b
  {
    assert [a, b][1..] == [b];
  }

  /** A tag made only of name characters is kept whole. */
  lemma {:induction false} StripKeepsNameString(s: string)
    requires AllNameChars(s)
    ensures StripFirstForeign(s) == s
  {
    if s != [] {
      assert AllNameChars(s[1..]) by {
        forall i | 0 <= i < |s| - 1 ensures IsNameChar(s[1..][i]) { assert s[1..][i] == s[i + 1]; }
      }
      StripKeepsNameString(s[1..]);
      assert s == [s[0]] + s[1..];
    }
  }

  /** One step of the scan: a name character is kept, a foreign one ends it. */
  lemma StripCons(x: char, t: string)
    ensures StripFirstForeign([x] + t) == if IsNameChar(x) then [x] + StripFirstForeign(t) else t
  {
    assert ([x] + t)[0] == x;
    assert ([x] + t)[1..] == t;
  }

  /** Exactly the first foreign character is deleted; everything after it stays. */
  lemma {:induction false} StripRemovesFirstForeign(u: string, c: char, v: string)
    requires AllNameChars(u) && !IsNameChar(c)
    ensures StripFirstForeign(u + [c] + v) == u + v
  {
    if u == [] {
      assert u + [c] + v == [c] + v;
      StripCons(c, v);
    } else {
      var w := u[1..] + [c] + v;
      calc {
        StripFirstForeign(u + [c] + v);
        { assert u + [c] + v == [u[0]] + w; }
        StripFirstForeign([u[0]] + w);
        { NameCharsCons(u); StripCons(u[0], w); }
        [u[0]] + StripFirstForeign(w);
        { StripRemovesFirstForeign(u[1..], c, v); }
        [u[0]] + (u[1..] + v);
        { assert u == [u[0]] + u[1..]; }
        u + v;
      }
    }
  }


  /** The cleaned tag is free of foreign characters exactly when the tag had at most one. */
  lemma StripCleanIff(s: string)
    ensures AllNameChars(StripFirstForeign(s)) <==> ForeignCount(s) <= 1
  {
    StripCounts(s);
    ForeignCountZeroIff(StripFirstForeign(s));
  }

  lemma {:induction false} NameCharsConcat(a: string, b: string)
    requires AllNameChars(a)
    ensures AllNameChars(a + b) <==> AllNameChars(b)
  {
    if AllNameChars(a + b) {
      forall i | 0 <= i < |b| ensures IsNameChar(b[i]) { assert b[i] == (a + b)[|a| + i]; }
    }
    if AllNameChars(b) {
      forall i | 0 <= i < |a + b| ensures IsNameChar((a + b)[i]) {
        if i >= |a| { assert (a + b)[i] == b[i - |a|]; }
      }
    }
  }

  /**
   * A bundle name consists only of word characters and hyphens exactly when
   * the runtime tag had at most one character outside [A-Za-z0-9_-].
   */
  lemma {:induction false} FuncNameCharsIff(suffix: string)
    ensures AllNameChars(FuncName(suffix)) <==> ForeignCount(suffix) <= 1
  {
    var x := StripFirstForeign(suffix);
    StripCleanIff(suffix);
    assert AllNameChars(Prefix + Separator);
    if x != [] {
      NameCharsConcat(Prefix + Separator, x);
    }
  }

  /** The default argument gives the default bundle path. */
  lemma DefaultFunctionPath()
    ensures FuncName("") == "__nitro"
    ensures FunctionPath("") == "output/functions/__nitro.func"
  {
  }

  /** A tag that cleans to the empty string names the default bundle. */
  lemma {:induction false} FunctionPathIsDefaultIff(suffix: string)
    ensures FunctionPath(suffix) == FunctionPath("") <==> StripFirstForeign(suffix) == []
  {
    if StripFirstForeign(suffix) != [] {
      assert |FunctionPath(suffix)| > |FunctionPath("")|;
    }
  }

  /** Two tags give the same bundle path exactly when they give the same bundle name. */
  lemma {:induction false} FunctionPathInjective(a: string, b: string)
    ensures FunctionPath(a) == FunctionPath(b) <==> FuncName(a) == FuncName(b)
  {
    if FunctionPath(a) == FunctionPath(b) {
      var pa, pb := FunctionPath(a), FunctionPath(b);
      assert FuncName(a) == pa[|FunctionsDir|..|pa| - |BundleExtension|];
      assert FuncName(b) == pb[|FunctionsDir|..|pb| - |BundleExtension|];
    }
  }

  /** The default runtime tag loses its dot: "nodejs18.x" names "__nitro-nodejs18x". */
  lemma NodeRuntimeName(tag: string)
    requires tag == "nodejs18.x"
    ensures FuncName(tag) == "__nitro-nodejs18x"
    ensures FunctionPath(tag) == FunctionsDir + "__nitro-nodejs18x" + BundleExtension
  {
    assert tag == "nodejs18" + ['.'] + "x";
    StripRemovesFirstForeign("nodejs18", '.', "x");
    assert Prefix + Separator + ("nodejs18" + "x") == "__nitro-nodejs18x";
  }

  /** Only the first foreign character goes: "a.b.c" keeps its second dot. */
  lemma SecondForeignSurvives(tag: string)
    requires tag == "a.b.c"
    ensures FuncName(tag) == "__nitro-ab.c"
    ensures !AllNameChars(FuncName(tag))
  {
    assert tag == "a" + ['.'] + "b.c";
    StripRemovesFirstForeign("a", '.', "b.c");
    assert Prefix + Separator + ("a" + "b.c") == "__nitro-ab.c";
    assert FuncName(tag)[10] == '.';
  }

  /** A tag that is a single foreign character names the default bundle. */
  lemma LoneForeignIsDefault(c: char)
    requires !IsNameChar(c)
    ensures FuncName([c]) == Prefix
    ensures FunctionPath([c]) == FunctionPath("")
  {
    StripRemovesFirstForeign([], c, []);
    assert [] + [c] + [] == [c];
  }
}
