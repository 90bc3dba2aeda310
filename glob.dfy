/** Shell-style name matching as `fnmatch.fnmatch` performs it on POSIX (no
    case folding): `*` matches any run of characters, `?` any one character,
    every other character itself, and the whole name must be matched. */
module Glob {
  import opened PyPath

  /** No character of `pat` is a wildcard. */
  predicate Literal(pat: string) {
    '*' !in pat && '?' !in pat
  }

  /** `fnmatch.fnmatch(name, pat)` */
  predicate Match(name: string, pat: string)
    ensures Match(name, pat) && '*' !in pat ==> |name| == |pat|
    ensures pat == "*" ==> Match(name, pat)
    decreases |name| + |pat|
  {
    if pat == [] then name == []
    else if pat[0] == '*' then
      Match(name, pat[1..]) || (name != [] && Match(name[1..], pat))
    else if pat[0] == '?' then
      name != [] && Match(name[1..], pat[1..])
    else
      name != [] && name[0] == pat[0] && Match(name[1..], pat[1..])
  }

  /** Some pattern of `pats` matches `name`. */
  predicate AnyMatch(name: string, pats: seq<string>) {
    exists p :: p in pats && Match(name, p)
  }

  /** A pattern without wildcards matches exactly the name it spells. */
  lemma {:induction false} MatchLiteral(name: string, pat: string)
    requires Literal(pat)
    ensures Match(name, pat) <==> name == pat
  {
    if pat != [] && name != [] {
      assert Literal(pat[1..]);
      MatchLiteral(name[1..], pat[1..]);
      if name[0] == pat[0] && name[1..] == pat[1..] {
        assert name == [name[0]] + name[1..] && pat == [pat[0]] + pat[1..];
      }
    }
  }

  /** `*` followed by a literal suffix matches exactly the names ending with
      that suffix: the shape of `*.md`, `*.pyc` and `*.c`. */
  lemma {:induction false} MatchStarSuffix(name: string, suffix: string)
    requires Literal(suffix)
    ensures Match(name, "*" + suffix) <==> EndsWith(name, suffix)
  {
    var pat := "*" + suffix;
    assert pat[0] == '*' && pat[1..] == suffix;
    MatchLiteral(name, suffix);
    if name != [] {
      MatchStarSuffix(name[1..], suffix);
      if EndsWith(name, suffix) && name != suffix {
        assert name[1..][|name[1..]| - |suffix|..] == name[|name| - |suffix|..];
      }
      if EndsWith(name[1..], suffix) {
        assert name[1..][|name[1..]| - |suffix|..] == name[|name| - |suffix|..];
      }
    }
  }
}
