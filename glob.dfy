/** The shell-pattern matcher the watcher applies to file base names (Go's filepath.Match),
    restricted to `*`, `?` and literal characters. Neither wildcard matches the path separator. */
module Glob {
  import opened Strings

  /** Neither wildcard crosses a separator, so a pattern without one matches only names
      without one. */
  function Match(pattern: string, name: string): (r: bool)
    ensures r && '/' !in pattern ==> '/' !in name
    decreases |pattern| + |name|
  {
    if pattern == [] then name == []
    else if pattern[0] == '*' then
      Match(pattern[1..], name) || (name != [] && name[0] != '/' && Match(pattern, name[1..]))
    else if name == [] then false
    else if pattern[0] == '?' then name[0] != '/' && Match(pattern[1..], name[1..])
    else pattern[0] == name[0] && Match(pattern[1..], name[1..])
  }

  /** A pattern without wildcards. */
  predicate Literal(p: string) {
    forall i :: 0 <= i < |p| ==> p[i] != '*' && p[i] != '?'
  }

  /** A pattern without wildcards matches exactly itself. */
  lemma {:induction false} LiteralMatch(p: string, name: string)
    requires Literal(p)
    ensures Match(p, name) <==> p == name
  {
    if p != [] && name != [] {
      assert Literal(p[1..]) by {
        forall i | 0 <= i < |p[1..]| ensures p[1..][i] != '*' && p[1..][i] != '?' {
          assert p[1..][i] == p[i + 1];
        }
      }
      LiteralMatch(p[1..], name[1..]);
      assert p == [p[0]] + p[1..] && name == [name[0]] + name[1..];
    }
  }

  /** `*suffix` matches exactly the names that end in `suffix` and have no separator before it,
      which is how a hard- or soft-reload glob such as `*.go` selects files by extension. */
  lemma {:induction false} StarSuffixMatch(suffix: string, name: string)
    requires Literal(suffix)
    ensures Match("*" + suffix, name) <==> HasSuffix(name, suffix) && '/' !in name[..|name| - |suffix|]
    decreases |name|
  {
    var p := "*" + suffix;
    assert p[1..] == suffix;
    LiteralMatch(suffix, name);
    if name != [] {
      StarSuffixMatch(suffix, name[1..]);
      var rest := name[1..];
      if |name| > |suffix| {
        assert name[|name| - |suffix|..] == rest[|rest| - |suffix|..];
        assert name[..|name| - |suffix|] == [name[0]] + rest[..|rest| - |suffix|];
      } else {
        assert !HasSuffix(rest, suffix);
        assert HasSuffix(name, suffix) ==> name == suffix;
      }
    }
  }
}
