/** The character loop against matching level by level: for which patterns and topics the two
    agree, exactly. */
module MatcherAgreement {
  import opened TopicLevels
  import opened TopicMatcher

  // ---------- patterns ----------

  /** Wildcards only as whole levels, the hash only last; levels may be empty. */
  predicate LooseLevels(levels: seq<string>) {
    levels != [] &&
    forall i :: 0 <= i < |levels| ==> Plain(levels[i]) || levels[i] == "*" || (levels[i] == "#" && i == |levels| - 1)
  }

  predicate LoosePattern(p: string) { p != "" && !TrailingSlash(p) && LooseLevels(Split(p)) }

  lemma WellFormedIsLoose(p: string)
    requires WellFormedPattern(p)
    ensures LoosePattern(p)
  {}

  lemma LooseFirst(p: string)
    requires LoosePattern(p)
    ensures var i := FirstSlash(p);
            && Split(p)[0] == p[..i]
            && (Plain(p[..i]) || p[..i] == "*" || (i == |p| && p == "#"))
            && (i == |p| ==> |Split(p)| == 1 && p[..i] == p)
            && (i < |p| ==> |Split(p)| > 1 && Split(p)[1..] == Split(p[i + 1..]) && LoosePattern(p[i + 1..]))
  {
    SplitFirst(p);
    if FirstSlash(p) == |p| {
      assert p[..|p|] == p;
    } else {
      RestKeepsEnd(p);
      var levels, rest := Split(p), Split(p)[1..];
      assert forall j :: 0 <= j < |rest| ==> rest[j] == levels[j + 1];
    }
  }

  /** How the levels of a topic go on after the first one. */
  lemma TopicFirst(t: string)
    requires t != ""
    ensures var j := FirstSlash(t); var rest := if j < |t| then t[j + 1..] else "";
            && Split(t) != [] && Split(t)[0] == t[..j] && Split(t)[1..] == Split(rest)
            && (rest == "" <==> |Split(t)| == 1)
            && (TrailingSlash(rest) <==> TrailingSlash(t) && |Split(t)| > 1)
            && (|Split(t)| == 1 ==> (TrailingSlash(t) <==> j < |t|))
  {
    assert Split("") == [];
    hide Split, FirstSlash;
    SplitFirst(t);
    var j := FirstSlash(t);
    if j < |t| {
      var rest := t[j + 1..];
      if rest != "" { assert rest[|rest| - 1] == t[|t| - 1]; }
    }
  }

  // ---------- characters ----------

  /** A common plain prefix is consumed character by character. */
  lemma {:induction false} CommonPrefix(level: string, p: string, t: string)
    requires Plain(level)
    ensures CharMatch(level + p, level + t) == CharMatch(p, t)
  {
    if level == "" {
      assert level + p == p && level + t == t;
    } else {
      assert level[0] in level;
      var rest := level[1..];
      assert forall c :: c in rest ==> c in level;
      assert (level + p)[1..] == rest + p && (level + t)[1..] == rest + t;
      CommonPrefix(rest, p, t);
    }
  }

  /** Two different plain first levels never match. */
  lemma {:induction false} DifferentLevels(a: string, b: string, p: string, t: string)
    requires Plain(a) && '/' !in b && a != b
    requires (p == "" || p[0] == '/') && (t == "" || t[0] == '/') && (a == "" ==> p != "" || b != "")
    requires b == "" && t == "" ==> a != ""
    ensures !CharMatch(a + p, b + t)
  {
    if a != "" { assert a[0] in a; }
    if b != "" { assert b[0] in b; }
    if a == "" {
      assert a + p == p;
    } else if b == "" {
      assert b + t == t;
    } else if a[0] == b[0] {
      assert forall c :: c in a[1..] ==> c in a;
      assert forall c :: c in b[1..] ==> c in b;
      assert (a + p)[1..] == a[1..] + p && (b + t)[1..] == b[1..] + t;
      assert a == [a[0]] + a[1..] && b == [b[0]] + b[1..];
      DifferentLevels(a[1..], b[1..], p, t);
    }
  }

  lemma EmptyEnd(p: string, t: string)
    ensures p == "" || t == "" ==> CharMatch(p, t) == AtEnd(p, t)
  {}

  lemma SameFirst(p: string, t: string, i: nat, j: nat)
    requires i <= |p| && j <= |t| && Plain(p[..i]) && p[..i] == t[..j]
    ensures CharMatch(p, t) == CharMatch(p[i..], t[j..])
  {
    hide CharMatch;
    Cut(p, i);
    Cut(t, j);
    CommonPrefix(p[..i], p[i..], t[j..]);
  }

  lemma OtherFirst(p: string, t: string, i: nat, j: nat)
    requires i == FirstSlash(p) && j == FirstSlash(t) && p != "" && t != ""
    requires Plain(p[..i]) && p[..i] != t[..j]
    ensures !CharMatch(p, t)
  {
    hide CharMatch;
    Cut(p, i);
    Cut(t, j);
    DifferentLevels(p[..i], t[..j], p[i..], t[j..]);
  }

  lemma StarLevel(p: string, t: string)
    requires p != "" && t != "" && p[..FirstSlash(p)] == "*"
    ensures var i, j := FirstSlash(p), FirstSlash(t);
            CharMatch(p, t) == CharMatch(if i < |p| then p[i + 1..] else "", if j < |t| then t[j + 1..] else "")
  {
    var i, j := FirstSlash(p), FirstSlash(t);
    assert i == 1 && p[0] == p[..i][0] == '*';
    assert p[1..] == p[i..];
    if i < |p| { assert p[i..][1..] == p[i + 1..]; }
    if j < |t| { assert t[j..][1..] == t[j + 1..]; }
  }

  lemma SameLevel(p: string, t: string)
    requires var i, j := FirstSlash(p), FirstSlash(t); CharMatch(p, t) == CharMatch(p[i..], t[j..])
    ensures var i, j := FirstSlash(p), FirstSlash(t);
            CharMatch(p, t) == if i < |p| && j < |t| then CharMatch(p[i + 1..], t[j + 1..]) else AtEnd(p[i..], t[j..])
  {
    var i, j := FirstSlash(p), FirstSlash(t);
    if i < |p| && j < |t| {
      assert p[i..][1..] == p[i + 1..] && t[j..][1..] == t[j + 1..];
    }
  }

  /** The part of p after its first level. */
  function Rest(p: string): string {
    var i := FirstSlash(p);
    if i < |p| then p[i + 1..] else ""
  }

  /** How the loop depends on the first levels of the two strings. */
  lemma FirstLevels(p: string, t: string)
    requires LoosePattern(p) && t != "" && p != "#"
    ensures var i, j := FirstSlash(p), FirstSlash(t);
            CharMatch(p, t) <==>
            if p[..i] == "*" then (if i < |p| then CharMatch(Rest(p), Rest(t)) else Rest(t) == "")
            else p[..i] == t[..j] &&
                 if i == |p| then j == |t|
                 else if j == |t| then Rest(p)[0] == '#'
                 else CharMatch(Rest(p), Rest(t))
  {
    hide CharMatch, Split, SlashFrom;
    var i, j := FirstSlash(p), FirstSlash(t);
    LooseFirst(p);
    EmptyEnd(p[i..], t[j..]);
    EmptyEnd(Rest(p), Rest(t));
    if p[..i] == "*" {
      StarLevel(p, t);
    } else if p[..i] == t[..j] {
      SameFirst(p, t, i, j);
      SameLevel(p, t);
    } else {
      OtherFirst(p, t, i, j);
    }
  }

  /** Against a topic that is used up. */
  lemma NothingLeft(p: string)
    requires LoosePattern(p)
    ensures Split(p) != []
    ensures p[0] == '#' <==> Split(p) == ["#"]
    ensures CharMatch(p, "") <==> Split(p) == ["#"] || Split(p) == ["", "#"]
  {
    HashFirst(p);
    LooseFirst(p);
    var i := FirstSlash(p);
    if p[0] == '/' {
      assert i == 0 && p[..0] == "";
      HashFirst(p[1..]);
      assert Split(p) == [""] + Split(p[1..]);
    } else {
      assert p[..i][0] == p[0];
    }
  }

  /** A pattern starts with a hash only when that is all there is. */
  lemma HashFirst(p: string)
    requires LoosePattern(p)
    ensures p[0] == '#' <==> Split(p) == ["#"]
  {
    LooseFirst(p);
    var i := FirstSlash(p);
    if p[0] == '#' { assert p[..i][0] in p[..i]; }
    if Split(p) == ["#"] { assert p[..i] == "#"; }
    if p == "#" { OneLevel("#"); }
  }

  // ---------- levels ----------

  /** The last level has no wildcard. */
  predicate PlainEnd(p: seq<string>) { p != [] && Plain(p[|p| - 1]) }

  /** The loop runs past an empty level before a final hash: on the empty topic, after a star that
      took the last level of the topic, or on the trailing slash of the topic. */
  predicate Overrun(p: seq<string>, t: seq<string>, trailing: bool) {
    && |p| == |t| + 2 && p[|t|] == "" && p[|t| + 1] == "#"
    && LevelMatch(p[..|t|], t)
    && (t == [] || p[|t| - 1] == "*" || trailing)
  }

  /** What the loop decides, in terms of the levels of pattern and topic and of whether the topic
      has a trailing slash. */
  predicate LoopMatch(p: seq<string>, t: seq<string>, trailing: bool) {
    (LevelMatch(p, t) && !(trailing && PlainEnd(p))) || Overrun(p, t, trailing)
  }

  /** One level on. */
  lemma LoopMatchStep(p: seq<string>, t: seq<string>, trailing: bool)
    requires LooseLevels(p) && |p| > 1 && t != []
    ensures LoopMatch(p, t, trailing) <==>
            if p[0] == "*" || trailing || |t| > 1
            then (p[0] == "*" || p[0] == t[0]) && LoopMatch(p[1..], t[1..], trailing && |t| > 1)
            else p[0] == t[0] && p[1..] == ["#"]
  {
    WildcardsAreNotPlain();
    assert p[0] != "#" && p[1..] != [] && p[1..][|p| - 2] == p[|p| - 1];
    OverrunStep(p, t, trailing);
    if |t| == 1 {
      assert t[1..] == [] && p[1..][..0] == [];
      assert LevelMatch(p[1..], []) <==> p[1..] == ["#"];
    }
  }

  lemma OverrunStep(p: seq<string>, t: seq<string>, trailing: bool)
    requires LooseLevels(p) && |p| > 1 && t != [] && p[0] != "#"
    ensures Overrun(p, t, trailing) <==>
            (p[0] == "*" || p[0] == t[0]) && (p[0] == "*" || trailing || |t| > 1) && Overrun(p[1..], t[1..], trailing && |t| > 1)
  {
    if |p| == |t| + 2 {
      var head := p[..|t|];
      assert head[0] == p[0] && head[1..] == p[1..][..|t| - 1];
      assert head != ["#"];
    }
  }

  lemma LoopMatchEnd(p: seq<string>, t: seq<string>, trailing: bool)
    ensures t == [] && LooseLevels(p) && !trailing ==> (LoopMatch(p, t, trailing) <==> p == ["#"] || p == ["", "#"])
    ensures p == ["#"] ==> LoopMatch(p, t, trailing)
    ensures t != [] && p == ["*"] ==> (LoopMatch(p, t, trailing) <==> |t| == 1)
    ensures t != [] && |p| == 1 && Plain(p[0]) ==> (LoopMatch(p, t, trailing) <==> p[0] == t[0] && |t| == 1 && !trailing)
  {
    WildcardsAreNotPlain();
    if |p| == 1 && t != [] {
      assert p[1..] == [] && |t[1..]| == |t| - 1;
      assert p != ["#"] ==> (LevelMatch(p, t) <==> (p[0] == "*" || p[0] == t[0]) && t[1..] == []);
      assert p == ["#"] ==> p[0] == "#";
    }
    if |p| == 2 && t == [] { assert p[..0] == []; }
  }

  // ---------- the two together ----------

  /** For every pattern with wildcards only as whole levels, and every topic, exactly what the
      character loop decides. */
  lemma {:induction false} CharMatchExactly(p: string, t: string)
    requires LoosePattern(p)
    ensures CharMatch(p, t) <==> LoopMatch(Split(p), Split(t), TrailingSlash(t))
    decreases |p|
  {
    hide CharMatch, Split, SlashFrom, LoopMatch, Plain;
    LooseFirst(p);
    LoopMatchEnd(Split(p), Split(t), TrailingSlash(t));
    if t == "" {
      NothingLeft(p);
      NothingToSplit();
    } else if p == "#" {
      HashMatchesAll(t);
    } else {
      TopicFirst(t);
      FirstLevels(p, t);
      if FirstSlash(p) < |p| {
        CharMatchExactly(Rest(p), Rest(t));
        LoopMatchStep(Split(p), Split(t), TrailingSlash(t));
        NothingLeft(Rest(p));
      }
    }
  }

  lemma HashMatchesAll(t: string)
    ensures CharMatch("#", t) && Split("#") == ["#"]
  {
    OneLevel("#");
  }

  lemma {:induction false} SelfMatch(levels: seq<string>)
    ensures LevelMatch(levels, levels)
  {
    if levels != [] { SelfMatch(levels[1..]); }
  }

  lemma OneLevel(s: string)
    requires s != "" && '/' !in s
    ensures Split(s) == [s]
  {
    SlashUnique(s, |s|);
  }

  // ---------- when they agree ----------

  lemma {:induction false} MatchLengths(p: seq<string>, t: seq<string>)
    requires LevelMatch(p, t)
    ensures |p| <= |t| + 1
    ensures p != [] && p[|p| - 1] != "#" ==> |p| == |t| && (p[|p| - 1] == "*" || p[|p| - 1] == t[|t| - 1])
  {
    if p != [] && p != ["#"] { MatchLengths(p[1..], t[1..]); }
  }

  /** One pattern and one topic: the loop agrees with matching level by level if and only if it
      neither runs past an empty level nor stops at a trailing slash. */
  lemma AgreesExactly(p: string, t: string)
    requires LoosePattern(p)
    ensures CharMatch(p, t) == LevelMatch(Split(p), Split(t)) <==>
            && !Overrun(Split(p), Split(t), TrailingSlash(t))
            && !(LevelMatch(Split(p), Split(t)) && TrailingSlash(t) && PlainEnd(Split(p)))
  {
    hide CharMatch, Split;
    CharMatchExactly(p, t);
    var ls, ts := Split(p), Split(t);
    if LevelMatch(ls, ts) { MatchLengths(ls, ts); }
  }

  /** On a well-formed pattern and any topic without a trailing slash, the character loop is
      level matching. */
  lemma CharMatchIsLevelMatch(p: string, t: string)
    requires WellFormedPattern(p) && !TrailingSlash(t)
    ensures CharMatch(p, t) == LevelMatch(Split(p), Split(t))
  {
    hide CharMatch, Split;
    WellFormedIsLoose(p);
    AgreesExactly(p, t);
  }

  /** The last level of a topic is one that a pattern can spell out. */
  predicate PlainLast(t: string) { PlainEnd(Split(t)) && Split(t)[|Split(t)| - 1] != "" }

  /** A topic: the loop agrees with level matching on every well-formed pattern if and only if the
      topic does not have a trailing slash after a plain, non-empty level. */
  lemma AgreesIff(t: string)
    ensures (forall p :: WellFormedPattern(p) ==> CharMatch(p, t) == LevelMatch(Split(p), Split(t)))
            <==> !(TrailingSlash(t) && PlainLast(t))
  {
    hide CharMatch, Split, LevelMatch, Plain;
    if TrailingSlash(t) && PlainLast(t) {
      var p := Spelled(Split(t));
      AgreesExactly(p, t);
    } else {
      forall p | WellFormedPattern(p)
        ensures CharMatch(p, t) == LevelMatch(Split(p), Split(t))
      {
        WellFormedIsLoose(p);
        AgreesExactly(p, t);
        if LevelMatch(Split(p), Split(t)) && PlainEnd(Split(p)) {
          WildcardsAreNotPlain();
          MatchLengths(Split(p), Split(t));
        }
      }
    }
  }

  lemma WildcardsAreNotPlain()
    ensures !Plain("*") && !Plain("#")
  {
    assert '*' in "*" && '#' in "#";
  }

  /** Stars, and the last level of the topic: a well-formed pattern that matches it level by level. */
  lemma Spelled(levels: seq<string>) returns (p: string)
    requires PlainEnd(levels) && levels[|levels| - 1] != ""
    ensures WellFormedPattern(p) && LoosePattern(p) && PlainEnd(Split(p)) && LevelMatch(Split(p), levels)
  {
    hide Split, LevelMatch, Join;
    var ls := StarsThen(levels[|levels| - 1], |levels|);
    StarsThenMatch(levels);
    p := Join(ls);
    SplitJoin(ls);
    WellFormedIsLoose(p);
  }

  function StarsThen(last: string, n: nat): (ls: seq<string>)
    requires n > 0
    ensures |ls| == n && ls[n - 1] == last && forall i :: 0 <= i < n - 1 ==> ls[i] == "*"
  {
    seq(n, i => if i == n - 1 then last else "*")
  }

  lemma {:induction false} StarsThenMatch(levels: seq<string>)
    requires levels != []
    ensures LevelMatch(StarsThen(levels[|levels| - 1], |levels|), levels)
  {
    var ls := StarsThen(levels[|levels| - 1], |levels|);
    if |levels| == 1 {
      assert ls == levels && levels[1..] == [] && ls[1..] == [];
    } else {
      assert ls[1..] == StarsThen(levels[|levels| - 1], |levels| - 1);
      StarsThenMatch(levels[1..]);
    }
  }

  /** The pattern ends in an empty level and a hash, and a star or nothing stands before them. */
  predicate EndsInGap(ls: seq<string>) {
    ls == ["", "#"] || (|ls| >= 3 && ls[|ls| - 3] == "*" && ls[|ls| - 2] == "" && ls[|ls| - 1] == "#")
  }

  /** A pattern: the loop agrees with level matching on every topic without a trailing slash if and
      only if the pattern does not end in such a gap. */
  lemma PatternAgreesIff(p: string)
    requires LoosePattern(p)
    ensures (forall t :: !TrailingSlash(t) ==> CharMatch(p, t) == LevelMatch(Split(p), Split(t)))
            <==> !EndsInGap(Split(p))
  {
    hide CharMatch, Split, LevelMatch, Plain;
    var ls := Split(p);
    if EndsInGap(ls) {
      var t := GapTopic(p);
      AgreesExactly(p, t);
    } else {
      forall t | !TrailingSlash(t)
        ensures CharMatch(p, t) == LevelMatch(Split(p), Split(t))
      {
        AgreesExactly(p, t);
        if Overrun(ls, Split(t), false) { GapOnly(ls, Split(t)); }
      }
    }
  }

  lemma GapOnly(p: seq<string>, t: seq<string>)
    requires Overrun(p, t, false)
    ensures EndsInGap(p)
  {
    if t == [] { assert p == ["", "#"]; }
  }

  /** The levels before the gap, read as a topic. */
  lemma GapTopic(p: string) returns (t: string)
    requires LoosePattern(p) && EndsInGap(Split(p))
    ensures !TrailingSlash(t) && Overrun(Split(p), Split(t), false)
  {
    hide Split, LevelMatch, Join;
    var ls := Split(p);
    var head := ls[..|ls| - 2];
    LevelsHaveNoSlash(p);
    t := Join(head);
    SplitJoin(head);
    SelfMatch(head);
    assert ls[..|head|] == head;
  }

  /** The shortest such pattern with a star. */
  lemma EmptyLevelDiffers()
    ensures CharMatch("*//#", "a") && !LevelMatch(Split("*//#"), Split("a"))
  {
    hide CharMatch, Split;
    LevelsOfExample();
    AgreesExactly("*//#", "a");
    OneStar();
  }

  lemma OneStar()
    ensures LevelMatch(["*", "", "#"][..1], ["a"]) && !LevelMatch(["*", "", "#"], ["a"])
  {
    assert ["*", "", "#"][..1] == ["*"];
    assert ["*"][1..] == [] && ["a"][1..] == [] && ["*", "", "#"][1..] == ["", "#"];
  }

  lemma LevelsOfExample()
    ensures Split("*//#") == ["*", "", "#"] && Split("a") == ["a"] && LoosePattern("*//#")
  {
    hide Split;
    assert "*" + "/" + "/#" == "*//#" && "" + "/" + "#" == "/#";
    SplitOne("*", "/#");
    SplitOne("", "#");
    OneLevel("#");
    OneLevel("a");
    assert Plain("");
  }
}
