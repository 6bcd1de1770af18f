/** Topics and patterns as slash-separated levels. */
module TopicLevels {

  /** Index of the first slash at or after i, or |s|. */
  function SlashFrom(s: string, i: nat): (r: nat)
    requires i <= |s|
    ensures i <= r <= |s|
    ensures forall j :: i <= j < r ==> s[j] != '/'
    ensures r < |s| ==> s[r] == '/'
    decreases |s| - i
  {
    if i == |s| || s[i] == '/' then i else SlashFrom(s, i + 1)
  }

  function FirstSlash(s: string): (i: nat)
    ensures i <= |s|
  {
    SlashFrom(s, 0)
  }

  lemma SlashUnique(s: string, i: nat)
    requires i <= |s| && (i < |s| ==> s[i] == '/') && forall j :: 0 <= j < i ==> s[j] != '/'
    ensures FirstSlash(s) == i
  {}

  lemma Cons<T>(x: T, rest: seq<T>)
    ensures ([x] + rest)[0] == x && ([x] + rest)[1..] == rest
  {}

  /** The levels of s. A trailing slash opens no level. */
  function Split(s: string): (levels: seq<string>)
    ensures s != "" ==> levels != []
  {
    if s == "" then []
    else
      var i := FirstSlash(s);
      if i == |s| then [s] else [s[..i]] + Split(s[i + 1..])
  }

  function Join(levels: seq<string>): string {
    if levels == [] then ""
    else if |levels| == 1 then levels[0]
    else levels[0] + "/" + Join(levels[1..])
  }

  predicate TrailingSlash(s: string) { s != "" && s[|s| - 1] == '/' }

  method SplitLevels(s: string) returns (levels: seq<string>)
    ensures levels == Split(s)
  {
    hide Split;
    levels := [];
    var start := 0;
    assert s[0..] == s;
    NothingToSplit();
    while start < |s|
      invariant 0 <= start <= |s|
      invariant levels + Split(s[start..]) == Split(s)
    {
      var pos := SlashFrom(s, start);
      NextLevel(s, start, levels);
      if pos == |s| {
        levels := levels + [s[start..]];
        break;
      }
      levels := levels + [s[start..pos]];
      start := pos + 1;
    }
    assert start == |s| ==> s[start..] == "" && levels + [] == levels;
  }

  lemma NothingToSplit()
    ensures Split("") == []
  {}

  lemma NextLevel(s: string, start: nat, levels: seq<string>)
    requires start < |s|
    ensures var pos := SlashFrom(s, start);
            levels + Split(s[start..]) ==
            if pos == |s| then levels + [s[start..]] else (levels + [s[start..pos]]) + Split(s[pos + 1..])
  {
    var pos := SlashFrom(s, start);
    SuffixSplit(s, start);
    if pos < |s| {
      var rest := Split(s[pos + 1..]);
      assert levels + ([s[start..pos]] + rest) == (levels + [s[start..pos]]) + rest;
    }
  }

  lemma SuffixSplit(s: string, start: nat)
    requires start < |s|
    ensures var pos := SlashFrom(s, start);
            Split(s[start..]) == if pos == |s| then [s[start..]] else [s[start..pos]] + Split(s[pos + 1..])
  {
    var pos, suffix := SlashFrom(s, start), s[start..];
    SlashUnique(suffix, pos - start);
    if pos < |s| {
      assert suffix[..pos - start] == s[start..pos];
      assert suffix[pos - start + 1..] == s[pos + 1..];
    }
  }

  /** Joining the levels gives the string back exactly when it has no trailing slash, and
      otherwise loses just that slash. */
  lemma {:induction false} JoinSplit(s: string)
    ensures Join(Split(s)) == if TrailingSlash(s) then s[..|s| - 1] else s
    ensures Join(Split(s)) == s <==> !TrailingSlash(s)
  {
    if s != "" {
      var i := FirstSlash(s);
      if i < |s| {
        var rest := s[i + 1..];
        JoinSplit(rest);
        assert s == s[..i] + "/" + rest;
        if rest != "" {
          assert Split(s) == [s[..i]] + Split(rest);
          assert Split(s)[1..] == Split(rest);
          assert rest[|rest| - 1] == s[|s| - 1];
        }
      }
    }
  }

  /** A join of levels without slashes, the last one not empty, splits into those levels. */
  lemma {:induction false} SplitJoin(levels: seq<string>)
    requires forall i :: 0 <= i < |levels| ==> '/' !in levels[i]
    requires levels != [] ==> levels[|levels| - 1] != ""
    ensures Split(Join(levels)) == levels && !TrailingSlash(Join(levels))
  {
    if |levels| == 1 {
      SlashAt(levels[0], "");
      assert levels[0] + "" == levels[0];
      assert levels[0][|levels[0]| - 1] in levels[0];
    } else if |levels| > 1 {
      var tail := Join(levels[1..]);
      SplitJoin(levels[1..]);
      assert Join(levels) == levels[0] + "/" + tail;
      SplitOne(levels[0], tail);
      assert [levels[0]] + levels[1..] == levels;
      NothingToSplit();
    }
  }

  lemma SplitOne(level: string, tail: string)
    requires '/' !in level
    ensures Split(level + "/" + tail) == [level] + Split(tail)
    ensures tail != "" ==> TrailingSlash(level + "/" + tail) == TrailingSlash(tail)
  {
    var s := level + "/" + tail;
    assert s == level + ("/" + tail);
    SlashAt(level, "/" + tail);
    assert s[..|level|] == level && s[|level| + 1..] == tail;
  }

  lemma SlashAt(level: string, rest: string)
    requires '/' !in level && (rest == "" || rest[0] == '/')
    ensures FirstSlash(level + rest) == |level|
  {
    assert forall j :: 0 <= j < |level| ==> (level + rest)[j] in level;
    SlashUnique(level + rest, |level|);
  }

  lemma SplitFirst(s: string)
    requires s != ""
    ensures var i := FirstSlash(s);
            && Split(s)[0] == s[..i]
            && (if i < |s| then Split(s)[1..] == Split(s[i + 1..]) else Split(s)[1..] == [])
  {
    var i := FirstSlash(s);
    if i < |s| { Cons(s[..i], Split(s[i + 1..])); }
  }

  lemma Cut(s: string, i: nat)
    requires i <= |s|
    ensures s == s[..i] + s[i..]
    ensures i < |s| ==> s[i..] == [s[i]] + s[i + 1..]
  {}

  lemma {:induction false} LevelsHaveNoSlash(s: string)
    ensures forall i :: 0 <= i < |Split(s)| ==> '/' !in Split(s)[i]
  {
    if s != "" {
      SplitFirst(s);
      if FirstSlash(s) < |s| { LevelsHaveNoSlash(s[FirstSlash(s) + 1..]); }
      var levels := Split(s);
      forall i | 0 <= i < |levels|
        ensures '/' !in levels[i]
      {
        if i > 0 { assert levels[i] == levels[1..][i - 1]; }
      }
    }
  }

  lemma RestKeepsEnd(s: string)
    requires s != "" && !TrailingSlash(s) && FirstSlash(s) < |s|
    ensures var rest := s[FirstSlash(s) + 1..]; rest != "" && !TrailingSlash(rest)
  {
    var rest := s[FirstSlash(s) + 1..];
    if rest != "" { assert rest[|rest| - 1] == s[|s| - 1]; }
  }

  // ---------- meaning of a pattern ----------

  predicate Plain(level: string) { '*' !in level && '#' !in level && '/' !in level }

  /** Levels that a pattern may have: none empty, wildcards only as whole levels, "#" only last. */
  predicate WellFormedLevels(levels: seq<string>) {
    levels != [] &&
    forall i :: 0 <= i < |levels| ==>
      levels[i] != "" && (Plain(levels[i]) || levels[i] == "*" || (levels[i] == "#" && i == |levels| - 1))
  }

  predicate WellFormedPattern(p: string) { !TrailingSlash(p) && WellFormedLevels(Split(p)) }

  /** Level matching: "*" stands for one level, a final "#" for any number of levels. */
  predicate LevelMatch(p: seq<string>, t: seq<string>) {
    || p == ["#"]
    || (p == [] && t == [])
    || (p != [] && t != [] && (p[0] == "*" || p[0] == t[0]) && LevelMatch(p[1..], t[1..]))
  }
}
