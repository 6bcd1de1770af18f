/** The two-index character loop of topicMatches, and the topic validator. */
module TopicMatcher {
  import opened TopicLevels

  /** What the loop computes, on the two unread suffixes. */
  function CharMatch(p: string, t: string): bool
    decreases |p|
  {
    if p == "" || t == "" then AtEnd(p, t)
    else if p[0] == '#' then true
    else if p[0] == '*' then CharMatch(SkipSlash(p[1..]), SkipSlash(t[FirstSlash(t)..]))
    else p[0] == t[0] && CharMatch(p[1..], t[1..])
  }

  function SkipSlash(s: string): (r: string)
    ensures |r| <= |s|
  {
    if s != "" && s[0] == '/' then s[1..] else s
  }

  predicate AtEnd(p: string, t: string) {
    || (p != "" && p[0] == '#')
    || (|p| >= 2 && p[0] == '/' && p[1] == '#')
    || (p == "" && t == "")
  }

  /** Skips the rest of a level. */
  method SkipLevel(topic: string, from: nat) returns (ti: nat)
    requires from <= |topic|
    ensures ti == SlashFrom(topic, from)
  {
    ti := from;
    while ti < |topic| && topic[ti] != '/'
      invariant from <= ti <= |topic|
      invariant SlashFrom(topic, from) == SlashFrom(topic, ti)
    {
      ti := ti + 1;
    }
  }

  method TopicMatches(pattern: string, topic: string) returns (r: bool)
    ensures r == CharMatch(pattern, topic)
  {
    hide CharMatch, SkipSlash, SlashFrom, FirstSlash;
    var pi, ti := 0, 0;
    assert pattern[0..] == pattern && topic[0..] == topic;
    while pi < |pattern| && ti < |topic|
      invariant 0 <= pi <= |pattern| && 0 <= ti <= |topic|
      invariant CharMatch(pattern[pi..], topic[ti..]) == CharMatch(pattern, topic)
      decreases |pattern| - pi
    {
      OneRound(pattern, pi, topic, ti);
      if pattern[pi] == '#' {
        return true;
      }
      if pattern[pi] == '*' {
        ti := SkipLevel(topic, ti);
        pi := pi + 1;
        Suffix(pattern, pi);
        Suffix(topic, ti);
        if pi < |pattern| && pattern[pi] == '/' {
          pi := pi + 1;
        }
        if ti < |topic| && topic[ti] == '/' {
          ti := ti + 1;
        }
        continue;
      }
      if pattern[pi] != topic[ti] {
        return false;
      }
      pi := pi + 1;
      ti := ti + 1;
    }
    LastRound(pattern, pi, topic, ti);
    if pi < |pattern| && pattern[pi] == '#' {
      return true;
    }
    if pi + 1 < |pattern| && pattern[pi] == '/' && pattern[pi + 1] == '#' {
      return true;
    }
    return pi == |pattern| && ti == |topic|;
  }

  lemma Suffix(s: string, i: nat)
    requires i <= |s|
    ensures i < |s| ==> s[i..][0] == s[i] && s[i..][1..] == s[i + 1..]
    ensures SkipSlash(s[i..]) == if i < |s| && s[i] == '/' then s[i + 1..] else s[i..]
  {}

  /** What one round of the loop leaves to compare. */
  lemma OneRound(pattern: string, pi: nat, topic: string, ti: nat)
    requires pi < |pattern| && ti < |topic|
    ensures CharMatch(pattern[pi..], topic[ti..]) ==
            if pattern[pi] == '#' then true
            else if pattern[pi] == '*' then
              CharMatch(SkipSlash(pattern[pi + 1..]), SkipSlash(topic[SlashFrom(topic, ti)..]))
            else pattern[pi] == topic[ti] && CharMatch(pattern[pi + 1..], topic[ti + 1..])
  {
    Suffix(pattern, pi);
    Suffix(topic, ti);
    SuffixSlash(topic, ti);
  }

  /** What is left to test when one of the strings is read to its end. */
  lemma LastRound(pattern: string, pi: nat, topic: string, ti: nat)
    requires pi <= |pattern| && ti <= |topic| && (pi == |pattern| || ti == |topic|)
    ensures CharMatch(pattern[pi..], topic[ti..]) <==>
            || (pi < |pattern| && pattern[pi] == '#')
            || (pi + 1 < |pattern| && pattern[pi] == '/' && pattern[pi + 1] == '#')
            || (pi == |pattern| && ti == |topic|)
  {}

  lemma SuffixSlash(s: string, i: nat)
    requires i <= |s|
    ensures s[i..][FirstSlash(s[i..])..] == s[SlashFrom(s, i)..]
  {
    SlashUnique(s[i..], SlashFrom(s, i) - i);
  }

  // ---------- validation ----------

  predicate HasWildcard(s: string) { '*' in s || '#' in s }

  /** i is the last character of s and starts a level. */
  predicate OwnLastLevel(s: string, i: nat) {
    i == |s| - 1 && (i == 0 || s[i - 1] == '/')
  }

  /** The validator accepts a string iff it is not empty, has no trailing slash, and any wildcard
      is its last character and alone in its level. */
  method IsValidTopic(topic: string) returns (ok: bool)
    ensures ok <==> topic != "" && !TrailingSlash(topic)
                    && forall i :: 0 <= i < |topic| && (topic[i] == '*' || topic[i] == '#') ==> OwnLastLevel(topic, i)
  {
    if topic == "" {
      return false;
    }
    var inSegment, lastWasWildcard := false, false;
    var i := 0;
    while i < |topic|
      invariant 0 <= i <= |topic|
      invariant lastWasWildcard <==> i > 0 && topic[i - 1] == '*'
      invariant inSegment <==> i > 0 && topic[i - 1] != '/'
      invariant forall j :: 0 <= j < i && (topic[j] == '*' || topic[j] == '#') ==>
                  j == i - 1 && topic[j] == '*' && (j == 0 || topic[j - 1] == '/')
      invariant i == |topic| ==> topic[|topic| - 1] != '/'
    {
      var c := topic[i];
      if c == '/' {
        if lastWasWildcard {
          assert !OwnLastLevel(topic, i - 1);
          return false;
        }
        if i == |topic| - 1 {
          return false;
        }
        inSegment := false;
        lastWasWildcard := false;
      } else if c == '#' {
        if !inSegment && (i == 0 || topic[i - 1] == '/') {
          ok := i == |topic| - 1;
          assert ok <==> OwnLastLevel(topic, i);
          return;
        }
        assert !OwnLastLevel(topic, i);
        return false;
      } else if c == '*' {
        if !inSegment && (i == 0 || topic[i - 1] == '/') {
          lastWasWildcard := true;
          inSegment := true;
        } else {
          assert !OwnLastLevel(topic, i);
          return false;
        }
      } else {
        if lastWasWildcard {
          assert !OwnLastLevel(topic, i - 1);
          return false;
        }
        inSegment := true;
      }
      i := i + 1;
    }
    return true;
  }
}
