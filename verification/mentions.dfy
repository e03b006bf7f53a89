/** @-mentions in a comment body: the handles the regex `@([a-z0-9_]+)` picks
    out of the text, and the users they resolve to in the user directory. */
module Mentions {
  import opened Values

  /** The characters a handle is made of: `[a-z0-9_]`. Upper-case letters are
      not among them, so they end a handle. */
  predicate IsHandleChar(c: char)
  {
    'a' <= c <= 'z' || '0' <= c <= '9' || c == '_'
  }

  predicate IsHandle(h: string)
  {
    |h| > 0 && forall k :: 0 <= k < |h| ==> IsHandleChar(h[k])
  }

  /** The end of the longest run of handle characters that starts at `j`. */
  function RunEnd(s: string, j: nat): (e: nat)
    requires j <= |s|
    ensures j <= e <= |s|
    ensures forall k :: j <= k < e ==> IsHandleChar(s[k])
    ensures e == |s| || !IsHandleChar(s[e])
    decreases |s| - j
  {
    if j == |s| || !IsHandleChar(s[j]) then j else RunEnd(s, j + 1)
  }

  /** The regex matches at `i`: an `@` followed by at least one handle character. */
  predicate MentionAt(s: string, i: nat)
  {
    i + 1 < |s| && s[i] == '@' && IsHandleChar(s[i + 1])
  }

  /** The handle captured by a match at `i`: the greedy run after the `@`. */
  function HandleAt(s: string, i: nat): string
    requires MentionAt(s, i)
  {
    s[i + 1..RunEnd(s, i + 1)]
  }

  /** The handles `scan` finds from position `i` on: it looks for the leftmost
      match and, after one, resumes right behind the captured handle. */
  function Scan(s: string, i: nat): (hs: seq<string>)
    requires i <= |s|
    ensures forall h :: h in hs ==> IsHandle(h)
    decreases |s| - i
  {
    if i == |s| then []
    else if MentionAt(s, i) then [HandleAt(s, i)] + Scan(s, RunEnd(s, i + 1))
    else Scan(s, i + 1)
  }

  /** `username_mentions`: the handles of the body, in body order, repeats kept. */
  function UsernameMentions(body: string): seq<string>
  {
    Scan(body, 0)
  }

  /** `mentioned?(username)`: the name is among the scanned handles. */
  predicate Mentioned(body: string, username: string)
  {
    username in UsernameMentions(body)
  }

  /** Reference definition: every position from `i` on where an `@` is followed
      by a handle character contributes the maximal run after it, in order. */
  function EveryMention(s: string, i: nat): seq<string>
    requires i <= |s|
    decreases |s| - i
  {
    if i == |s| then []
    else (if MentionAt(s, i) then [HandleAt(s, i)] else []) + EveryMention(s, i + 1)
  }

  /** Inside a run of handle characters no match starts, so skipping it loses
      nothing. */
  lemma {:induction false} SkipRun(s: string, j: nat, e: nat)
    requires j <= e <= |s|
    requires forall k :: j <= k < e ==> IsHandleChar(s[k])
    ensures EveryMention(s, j) == EveryMention(s, e)
    decreases e - j
  {
    if j < e {
      assert !MentionAt(s, j);
      SkipRun(s, j + 1, e);
    }
  }

  /** Resuming after each match, as `scan` does, finds exactly the handles of
      every `@` followed by a handle character. */
  lemma {:induction false} ScanFindsEveryMention(s: string, i: nat)
    requires i <= |s|
    ensures Scan(s, i) == EveryMention(s, i)
    decreases |s| - i
  {
    if i < |s| {
      if MentionAt(s, i) {
        var e := RunEnd(s, i + 1);
        SkipRun(s, i + 1, e);
        ScanFindsEveryMention(s, e);
      } else {
        ScanFindsEveryMention(s, i + 1);
      }
    }
  }

  lemma {:induction false} EveryMentionHas(s: string, i: nat, h: string)
    requires i <= |s|
    ensures h in EveryMention(s, i) <==> exists p :: i <= p < |s| && MentionAt(s, p) && HandleAt(s, p) == h
    decreases |s| - i
  {
    if i < |s| {
      EveryMentionHas(s, i + 1, h);
      if MentionAt(s, i) && HandleAt(s, i) == h {
        assert h in EveryMention(s, i);
      }
    }
  }

  /** `mentioned?(u)` holds exactly when some `@` in the body is followed by
      the maximal handle run `u`. */
  lemma MentionedIff(body: string, username: string)
    ensures Mentioned(body, username) <==>
              exists p :: 0 <= p < |body| && MentionAt(body, p) && HandleAt(body, p) == username
  {
    ScanFindsEveryMention(body, 0);
    EveryMentionHas(body, 0, username);
  }

  /** An upper-case handle is not picked up. */
  lemma UpperCaseHandleIgnored()
    ensures UsernameMentions("hello @alice and @BOB") == ["alice"]
  {
    var s := "hello @alice and @BOB";
    AliceTail(s);
    AliceRun(s);
    assert Scan(s, 6) == ["alice"] + Scan(s, 12);
    assert forall k :: 0 <= k < 6 ==> s[k] != '@';
    NoAtSkipped(s, 0, 6);
  }

  /** After "alice" the example holds only the upper-case handle. */
  lemma AliceTail(s: string)
    requires s == "hello @alice and @BOB"
    ensures Scan(s, 12) == []
  {
    assert forall k :: 18 <= k < 21 ==> s[k] != '@';
    NoAtSkipped(s, 18, 21);
    assert s[17] == '@' && s[18] == 'B';
    assert Scan(s, 17) == Scan(s, 18);
    assert forall k :: 12 <= k < 17 ==> s[k] != '@';
    NoAtSkipped(s, 12, 17);
  }

  /** The example's lower-case handle is matched at 6 and runs up to 12. */
  lemma AliceRun(s: string)
    requires s == "hello @alice and @BOB"
    ensures MentionAt(s, 6) && RunEnd(s, 7) == 12 && s[7..12] == "alice"
  {
    assert forall k :: 7 <= k < 12 ==> IsHandleChar(s[k]);
    assert !IsHandleChar(s[12]);
    RunEndAt(s, 7, 12);
  }

  /** The run of handle characters from `j` ends at `e` when every character
      in between is one and the one at `e` is not. */
  lemma {:induction false} RunEndAt(s: string, j: nat, e: nat)
    requires j <= e <= |s|
    requires forall k :: j <= k < e ==> IsHandleChar(s[k])
    requires e == |s| || !IsHandleChar(s[e])
    ensures RunEnd(s, j) == e
    decreases e - j
  {
    if j < e {
      RunEndAt(s, j + 1, e);
    }
  }

  /** Where there is no `@`, `scan` just moves on. */
  lemma {:induction false} NoAtSkipped(s: string, i: nat, j: nat)
    requires i <= j <= |s|
    requires forall k :: i <= k < j ==> s[k] != '@'
    ensures Scan(s, i) == Scan(s, j)
    decreases j - i
  {
    if i < j {
      NoAtSkipped(s, i + 1, j);
    }
  }

  predicate Distinct(names: seq<string>)
  {
    forall i, j :: 0 <= i < j < |names| ==> names[i] != names[j]
  }

  /** `mentions`: the directory users whose name is among the handles, each
      once, in the order their handle first occurs. */
  function Resolve(handles: seq<string>, directory: map<string, UserId>): (names: seq<string>)
    ensures forall n :: n in names <==> n in handles && n in directory
    ensures Distinct(names)
    decreases |handles|
  {
    if handles == [] then []
    else
      var init := handles[..|handles| - 1];
      var h := handles[|handles| - 1];
      assert handles == init + [h];
      var rest := Resolve(init, directory);
      if h in directory && h !in rest then rest + [h] else rest
  }

  /** The mentioned users of a body, resolved against the directory. */
  function MentionedUsers(body: string, directory: map<string, UserId>): seq<string>
  {
    Resolve(UsernameMentions(body), directory)
  }

  /** The directory ids of resolved names. */
  function Ids(names: seq<string>, directory: map<string, UserId>): seq<UserId>
    requires forall n :: n in names ==> n in directory
  {
    seq(|names|, k requires 0 <= k < |names| => directory[names[k]])
  }
}
