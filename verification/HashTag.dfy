/**
  Key names of the distributed lock and the cluster slot each one hashes to.
  The lock object itself is disabled (commented out) in this snapshot of the repository;
  its key-naming functions are complete and are modelled as written.
*/
module HashTag {

  const CHANNEL_PREFIX := "redisson_lock__channel"
  const LATCH_PREFIX := "redisson_unlock_latch"

  /** Position of the first `c` in `s` at or after `from`, or |s| if there is none. */
  function Find(s: string, c: char, from: nat): (i: nat)
    requires from <= |s|
    ensures from <= i <= |s|
    ensures c !in s[from..i]
    ensures i < |s| ==> s[i] == c
    decreases |s| - from
  {
    if from == |s| || s[from] == c then from
    else
      var i := Find(s, c, from + 1);
      assert s[from..i] == [s[from]] + s[from + 1..i];
      i
  }

  /** The part of a key that is hashed (Redis Cluster specification, section "Hash tags"). */
  function HashedPart(key: string): string {
    var open := Find(key, '{', 0);
    if open == |key| then key
    else
      var close := Find(key, '}', open + 1);
      if close == |key| || close == open + 1 then key else key[open + 1..close]
  }

  function PrefixName(prefix: string, name: string): string {
    if '{' in name then prefix + ":" + name else prefix + ":{" + name + "}"
  }

  function ChannelName(name: string): string {
    PrefixName(CHANNEL_PREFIX, name)
  }

  function LatchName(name: string, requestId: string): string {
    PrefixName(LATCH_PREFIX, name) + ":" + requestId
  }

  /** `name` has a non-empty tag at its first `{`. */
  predicate HasTag(name: string) {
    var open := Find(name, '{', 0);
    open < |name| && open + 1 < Find(name, '}', open + 1) < |name|
  }

  /** The lock names whose keys are kept together. */
  predicate Colocatable(name: string) {
    HasTag(name) || (name != "" && '{' !in name && '}' !in name)
  }

  /** Find is determined by its postcondition. */
  lemma {:induction false} FindIs(s: string, c: char, from: nat, i: nat)
    requires from <= i <= |s| && c !in s[from..i] && (i < |s| ==> s[i] == c)
    ensures Find(s, c, from) == i
    decreases |s| - from
  {
    if from < i {
      assert s[from..i] == [s[from]] + s[from + 1..i];
      FindIs(s, c, from + 1, i);
    }
  }

  /** Text before and after the tag does not change what is hashed. */
  lemma TagSurvives(before: string, tag: string, after: string)
    requires '{' !in before && '}' !in tag && tag != ""
    ensures HashedPart(before + "{" + tag + "}" + after) == tag
    ensures HasTag(before + "{" + tag + "}" + after)
  {
    var key := before + "{" + tag + "}" + after;
    var open := |before|;
    var close := open + 1 + |tag|;
    assert key[0..open] == before;
    FindIs(key, '{', 0, open);
    assert key[open + 1..close] == tag;
    FindIs(key, '}', open + 1, close);
  }

  /** A name with a `{` but no usable tag keeps that under the channel prefix, and both are hashed whole. */
  lemma TaglessChannelApart(name: string)
    requires '{' in name && !HasTag(name)
    ensures HashedPart(ChannelName(name)) == ChannelName(name) && HashedPart(name) == name
  {
    var channel := ChannelName(name);
    var p := CHANNEL_PREFIX + ":";
    var open := Find(name, '{', 0);
    assert name[0..|name|] == name;
    assert channel == p + name;
    assert channel[0..|p| + open] == p + name[0..open];
    FindIs(channel, '{', 0, |p| + open);
    var close := Find(name, '}', open + 1);
    assert channel[|p| + open + 1..|p| + close] == name[open + 1..close];
    FindIs(channel, '}', |p| + open + 1, |p| + close);
  }

  /** A name with `}` but no `{` is cut short, or its channel left whole, by the braces put around it. */
  lemma BraceClosedEarly(name: string)
    requires '{' !in name && '}' in name
    ensures HashedPart(name) == name && |HashedPart(ChannelName(name))| != |name|
  {
    var channel := ChannelName(name);
    var p := CHANNEL_PREFIX + ":";
    assert channel == p + "{" + name + "}";
    assert channel[0..|p|] == p;
    FindIs(channel, '{', 0, |p|);
    FindIs(name, '{', 0, |name|);
    var close := Find(name, '}', 0);
    assert channel[|p| + 1..|p| + 1 + close] == name[0..close];
    FindIs(channel, '}', |p| + 1, |p| + 1 + close);
  }

  lemma EmptyNameApart()
    ensures HashedPart(ChannelName("")) != HashedPart("")
  {
    var channel, p := ChannelName(""), CHANNEL_PREFIX + ":";
    assert channel == p + "{}";
    assert channel[0..|p|] == p;
    FindIs(channel, '{', 0, |p|);
  }

  /** A key without a usable tag is hashed whole, and so is longer than any name inside it. */
  lemma ChannelApart(name: string)
    requires !Colocatable(name)
    ensures HashedPart(ChannelName(name)) != HashedPart(name)
  {
    hide HashedPart, HasTag;
    if '{' in name {
      TaglessChannelApart(name);
    } else if name == "" {
      EmptyNameApart();
    } else {
      BraceClosedEarly(name);
    }
  }

  /** A prefix without `{`, and any suffix, keep the hashed part of a colocatable name. */
  lemma PrefixKeepsPart(prefix: string, name: string, suffix: string)
    requires Colocatable(name) && '{' !in prefix
    ensures HashedPart(PrefixName(prefix, name) + suffix) == HashedPart(name)
  {
    if HasTag(name) {
      var open := Find(name, '{', 0);
      var close := Find(name, '}', open + 1);
      var before, tag, after := name[..open], name[open + 1..close], name[close + 1..];
      assert before == name[0..open];
      assert PrefixName(prefix, name) + suffix == (prefix + ":" + before) + "{" + tag + "}" + (after + suffix);
      TagSurvives(prefix + ":" + before, tag, after + suffix);
    } else {
      FindIs(name, '{', 0, |name|);
      assert PrefixName(prefix, name) + suffix == (prefix + ":") + "{" + name + "}" + suffix;
      TagSurvives(prefix + ":", name, suffix);
    }
  }

  /** Exactly the colocatable names give three keys with one hashed part, whatever the request id. */
  lemma SamePartIffColocatable(name: string, requestId: string)
    ensures Colocatable(name) <==>
            HashedPart(name) == HashedPart(ChannelName(name)) == HashedPart(LatchName(name, requestId))
  {
    if Colocatable(name) {
      PrefixKeepsPart(CHANNEL_PREFIX, name, "");
      assert ChannelName(name) + "" == ChannelName(name);
      PrefixKeepsPart(LATCH_PREFIX, name, ":" + requestId);
      assert LatchName(name, requestId) == PrefixName(LATCH_PREFIX, name) + (":" + requestId);
    } else {
      ChannelApart(name);
    }
  }

  /** With any slot function, the three keys of a colocatable name fall in one slot, so one script may use them. */
  lemma LockKeysShareASlot(slotOf: string -> nat, name: string, requestId: string)
    requires Colocatable(name)
    ensures slotOf(HashedPart(name)) == slotOf(HashedPart(ChannelName(name)))
    ensures slotOf(HashedPart(name)) == slotOf(HashedPart(LatchName(name, requestId)))
  {
    SamePartIffColocatable(name, requestId);
  }

  /** The three keys of one lock never clash, and two requests never share a latch. */
  lemma LockKeysDistinct(name: string, r1: string, r2: string)
    ensures name != ChannelName(name) && name != LatchName(name, r1)
    ensures ChannelName(name) != LatchName(name, r1)
    ensures LatchName(name, r1) == LatchName(name, r2) <==> r1 == r2
  {
    assert ChannelName(name)[9] == 'l' && LatchName(name, r1)[9] == 'u';
    var stem := PrefixName(LATCH_PREFIX, name) + ":";
    assert LatchName(name, r1)[|stem|..] == r1 && LatchName(name, r2)[|stem|..] == r2;
  }
}
