/** Topic filters: what it means for a topic to match a filter, and the loop that decides it. */
module Topics {
  import opened Basics

  const SLASH: Byte := 47   // '/'
  const DOLLAR: Byte := 36  // '$'
  const HASH_SIGN: Byte := 35
  const PLUS_SIGN: Byte := 43
  const HASH: Text := [HASH_SIGN]
  const PLUS: Text := [PLUS_SIGN]

  /** The levels of a topic or filter: the pieces between the separators, at least one. */
  function Split(s: Text): (levels: seq<Text>)
    ensures |levels| >= 1
  {
    if s == [] then [[]]
    else
      var rest := Split(s[1..]);
      if s[0] == SLASH then [[]] + rest
      else [[s[0]] + rest[0]] + rest[1..]
  }

  predicate StartsWithDollar(s: Text) { s != [] && s[0] == DOLLAR }

  // ---------------------------------------------------------------- the first byte of a topic

  /** The encoding of one character in UTF-8 (RFC 3629, section 3). */
  function CharBytes(c: nat): Text
    requires c < 0x11_0000
  {
    if c < 0x80 then [c]
    else if c < 0x800 then [0xC0 + c / 0x40, 0x80 + c % 0x40]
    else if c < 0x1_0000 then [0xE0 + c / 0x1000, 0x80 + c / 0x40 % 0x40, 0x80 + c % 0x40]
    else [0xF0 + c / 0x4_0000, 0x80 + c / 0x1000 % 0x40, 0x80 + c / 0x40 % 0x40, 0x80 + c % 0x40]
  }

  function Utf8Text(cs: seq<nat>): Text
    requires forall k :: 0 <= k < |cs| ==> cs[k] < 0x11_0000
  {
    if cs == [] then [] else CharBytes(cs[0]) + Utf8Text(cs[1..])
  }

  /** A text can be cut at `i` if no character runs across: at its ends, and in front of a byte that
      does not continue one. */
  predicate CharBoundary(s: Text, i: nat) {
    i == 0 || i == |s| || (i < |s| && !(0x80 <= s[i] < 0xC0))
  }

  /** `topic[..1]`, which `matches` looks at first, does not exist: the topic is not empty, and its first
      character is longer than one byte.  The source panics. */
  predicate Unsliceable(topic: Text) { topic != [] && topic[0] >= 0x80 }

  /** Cutting a text after its first byte fails exactly if its first character is longer than that. */
  lemma UnsliceableIff(cs: seq<nat>)
    requires cs != [] && forall k :: 0 <= k < |cs| ==> cs[k] < 0x11_0000
    ensures Unsliceable(Utf8Text(cs)) <==> !CharBoundary(Utf8Text(cs), 1)
    ensures Unsliceable(Utf8Text(cs)) <==> |CharBytes(cs[0])| > 1
  {
    var first, rest := CharBytes(cs[0]), Utf8Text(cs[1..]);
    assert (first + rest)[..|first|] == first;
    if |first| == 1 && rest != [] {
      assert (first + rest)[1] == CharBytes(cs[1])[0];
    }
  }

  // ---------------------------------------------------------------- section 4.7 of MQTT 3.1.1

  /** A filter level admits a topic level.  A topic level "#" is admitted by nothing but "#". */
  predicate LevelAdmits(f: Text, t: Text) { t != HASH && (f == PLUS || f == t) }

  /** Level by level: a final "#" stands for the parent level and everything below it. */
  predicate Covers(filter: seq<Text>, topic: seq<Text>) {
    if filter != [] && filter[|filter| - 1] == HASH then
      && |filter| - 1 <= |topic|
      && forall i :: 0 <= i < |filter| - 1 ==> LevelAdmits(filter[i], topic[i])
    else
      && |filter| == |topic|
      && forall i :: 0 <= i < |filter| ==> LevelAdmits(filter[i], topic[i])
  }

  /** What comes after the first "#" level of a filter is never looked at. */
  function Cut(filter: seq<Text>): (r: seq<Text>)
    ensures |r| <= |filter|
  {
    if filter == [] then []
    else if filter[0] == HASH then [HASH]
    else [filter[0]] + Cut(filter[1..])
  }

  predicate Matches(topic: Text, filter: Text) {
    !StartsWithDollar(topic) && Covers(Cut(Split(filter)), Split(topic))
  }

  predicate ValidFilter(filter: Text) {
    filter != [] &&
    var levels := Split(filter);
    var last := levels[|levels| - 1];
    && (forall i :: 0 <= i < |levels| - 1 ==>
          HASH_SIGN !in levels[i] && (|levels[i]| > 1 ==> PLUS_SIGN !in levels[i]))
    && (|last| != 1 ==> HASH_SIGN !in last && PLUS_SIGN !in last)
  }

  lemma {:induction false} CutAt(filter: seq<Text>, i: nat)
    requires i < |filter| && filter[i] == HASH && forall k :: 0 <= k < i ==> filter[k] != HASH
    ensures Cut(filter) == filter[..i] + [HASH]
  {
    if i > 0 {
      CutAt(filter[1..], i - 1);
      assert filter[..i] == [filter[0]] + filter[1..][..i - 1];
    }
  }

  lemma {:induction false} CutNothing(filter: seq<Text>)
    requires forall k :: 0 <= k < |filter| ==> filter[k] != HASH
    ensures Cut(filter) == filter
  {
    if filter != [] {
      CutNothing(filter[1..]);
      assert filter == [filter[0]] + filter[1..];
    }
  }

  /** A filter is cut at its first "#", number `k`, if it has one. */
  lemma CutShape(filter: seq<Text>) returns (k: nat)
    ensures k <= |filter| && forall j :: 0 <= j < k ==> filter[j] != HASH
    ensures k == |filter| ==> Cut(filter) == filter
    ensures k < |filter| ==> filter[k] == HASH && Cut(filter) == filter[..k] + [HASH]
  {
    k := 0;
    while k < |filter| && filter[k] != HASH
      invariant k <= |filter| && forall j :: 0 <= j < k ==> filter[j] != HASH
    {
      k := k + 1;
    }
    if k < |filter| {
      CutAt(filter, k);
    } else {
      CutNothing(filter);
    }
  }

  /** The levels before the first "#" decide, and without a "#" so does their number. */
  ghost predicate CoversBefore(filter: seq<Text>, k: nat, topic: seq<Text>)
    requires k <= |filter|
  {
    && k <= |topic|
    && (k == |filter| ==> |topic| == k)
    && forall i :: 0 <= i < k ==> LevelAdmits(filter[i], topic[i])
  }

  lemma CutDecides(filter: seq<Text>, topic: seq<Text>) returns (k: nat)
    ensures k <= |filter| && (k < |filter| ==> filter[k] == HASH)
    ensures forall j :: 0 <= j < k ==> filter[j] != HASH
    ensures Covers(Cut(filter), topic) <==> CoversBefore(filter, k, topic)
  {
    k := CutShape(filter);
  }

  /** What a call of `matches` comes to; nothing if it panics. */
  function MatchCall(topic: Text, filter: Text): Option<bool> {
    if Unsliceable(topic) then None else Some(Matches(topic, filter))
  }

  /** The check of the first byte, and then the two iterators of `matches`, advanced together. */
  method MatchLoop(topic: Text, filter: Text) returns (matched: Option<bool>)
    ensures matched == MatchCall(topic, filter)
  {
    if Unsliceable(topic) {
      return None;
    }
    if topic != [] && topic[0] == DOLLAR {
      return Some(false);
    }
    var topics, filters := Split(topic), Split(filter);
    var next, i := 0, 0;
    while i < |filters|
      invariant 0 <= i <= |filters| && next == i <= |topics|
      invariant forall k :: 0 <= k < i ==> filters[k] != HASH && LevelAdmits(filters[k], topics[k])
    {
      var f := filters[i];
      if f == HASH {
        CutAt(filters, i);
        return Some(true);
      }
      CutPast(filters, topics, i);
      if next == |topics| {
        return Some(false);
      }
      var t := topics[next];
      next := next + 1;
      if t == HASH || (f != PLUS && f != t) {
        return Some(false);
      }
      i := i + 1;
    }
    CutNothing(filters);
    return Some(next == |topics|);
  }

  /** A level before any "#" must be there in the topic, and be admitted. */
  lemma CutPast(filters: seq<Text>, topics: seq<Text>, i: nat)
    requires i < |filters| && forall k :: 0 <= k <= i ==> filters[k] != HASH
    ensures Covers(Cut(filters), topics) ==> i < |topics| && LevelAdmits(filters[i], topics[i])
  {
    var k := CutDecides(filters, topics);
  }

  /** A valid filter has a "#" only as its last level. */
  lemma ValidIsUncut(filter: Text)
    requires ValidFilter(filter)
    ensures Cut(Split(filter)) == Split(filter)
  {
    hide Split;
    var levels := Split(filter);
    if levels[|levels| - 1] == HASH {
      CutAt(levels, |levels| - 1);
    } else {
      CutNothing(levels);
    }
  }

  /** On a valid filter and a topic that does not start with '$', a call of `matches` answers by the
      level-by-level definition of section 4.7 of MQTT 3.1.1, exactly if the first character of the topic
      is one byte long. */
  lemma MatchesIsSection47(topic: Text, filter: Text)
    requires ValidFilter(filter) && !StartsWithDollar(topic)
    ensures MatchCall(topic, filter) == Some(Covers(Split(filter), Split(topic))) <==> !Unsliceable(topic)
  {
    hide Split, Covers, ValidFilter, Cut;
    ValidIsUncut(filter);
  }

  /** So it is not answered for the topic of the one letter 0xE9, although "+" covers it. */
  lemma AccentIsNotAnswered()
    ensures var topic := Utf8Text([0xE9]);
            && topic == [0xC3, 0xA9] && MatchCall(topic, PLUS) == None
            && ValidFilter(PLUS) && Covers(Split(PLUS), Split(topic))
  {
    var last: Text, both: Text := [0xA9], [0xC3, 0xA9];
    assert [0xE9][1..] == [] && both[1..] == last && last[1..] == [] && PLUS[1..] == [];
    assert [] + Split([])[0] == [] && Split([])[1..] == [];
    assert Split(last)[0] == last && Split(both)[0] == both && Split(PLUS)[0] == PLUS;
  }

  /** A topic that starts with '$' matches nothing, not even a filter equal to it. */
  lemma DollarMatchesNothing(topic: Text, filter: Text)
    requires StartsWithDollar(topic)
    ensures MatchCall(topic, filter) == Some(false)
  {
  }

  /** Matching composes: if filter `g`, read as a topic, matches `f`, then `f` takes every topic `g`
      takes.  This is what matching one subscription against another relies on. */
  lemma MatchesComposes(topic: Text, g: Text, f: Text)
    requires Matches(g, f) && Matches(topic, g)
    ensures Matches(topic, f)
  {
    var gs, fs, ts := Split(g), Split(f), Split(topic);
    var n := CutDecides(fs, gs);
    var n' := CutDecides(fs, ts);
    var k := CutDecides(gs, ts);
    assert n == n' && n <= k;
    forall i | 0 <= i < n ensures LevelAdmits(fs[i], ts[i]) {
      assert LevelAdmits(fs[i], gs[i]) && LevelAdmits(gs[i], ts[i]);
    }
  }
}
