/** Access rules: a pattern grants subscriptions by string prefix and publishes by level matching. */
module Acl {
  import opened Basics
  import opened Topics

  function StripSuffix(s: Text, suffix: Text): Option<Text> {
    if |suffix| <= |s| && s[|s| - |suffix|..] == suffix then Some(s[..|s| - |suffix|]) else None
  }

  predicate SubscribeAllowed(pattern: Text, filter: Text) {
    if pattern == filter then
      true
    else match StripSuffix(pattern, [SLASH, HASH_SIGN])
      case Some(prefix) => prefix + [SLASH] <= filter || filter == prefix
      case None =>
        match StripSuffix(pattern, [HASH_SIGN])
        case Some(prefix) => prefix <= filter
        case None => false
  }

  predicate PublishAllowed(pattern: Text, topic: Text) { Matches(topic, pattern) }

  // ---------------------------------------------------------------- levels of joined strings

  /** The last level of `x` runs on into the first level of `y`. */
  function Glue(x: seq<Text>, y: seq<Text>): seq<Text>
    requires x != [] && y != []
  {
    if |x| == 1 then [x[0] + y[0]] + y[1..] else [x[0]] + Glue(x[1..], y)
  }

  lemma {:induction false} SplitGlue(a: Text, b: Text)
    ensures Split(a + b) == Glue(Split(a), Split(b))
  {
    if a == [] {
      assert a + b == b;
      assert [] + Split(b)[0] == Split(b)[0];
    } else {
      SplitGlue(a[1..], b);
      assert (a + b)[0] == a[0] && (a + b)[1..] == a[1..] + b;
      var t := Split(a[1..]);
      if a[0] == SLASH {
        assert ([[]] + t)[1..] == t;
      } else {
        PrependGlue(a[0], t, Split(b));
      }
    }
  }

  lemma PrependGlue(c: Byte, x: seq<Text>, y: seq<Text>)
    requires x != [] && y != []
    ensures Glue([[c] + x[0]] + x[1..], y) == [[c] + Glue(x, y)[0]] + Glue(x, y)[1..]
  {
    var x' := [[c] + x[0]] + x[1..];
    assert x'[1..] == x[1..];
    if |x| == 1 {
      assert ([c] + x[0]) + y[0] == [c] + (x[0] + y[0]);
    }
  }

  /** Levels before the last of `x` stay, and the last one is extended. */
  lemma {:induction false} GlueLevels(x: seq<Text>, y: seq<Text>)
    requires x != [] && y != []
    ensures |Glue(x, y)| == |x| - 1 + |y|
    ensures forall i :: 0 <= i < |x| - 1 ==> Glue(x, y)[i] == x[i]
    ensures Glue(x, y)[|x| - 1] == x[|x| - 1] + y[0]
    ensures forall i :: 1 <= i < |y| ==> Glue(x, y)[|x| - 1 + i] == y[i]
  {
    if |x| > 1 {
      GlueLevels(x[1..], y);
      var g, n := Glue(x[1..], y), |x| - 1;
      assert Glue(x, y) == [x[0]] + g;
      forall i | 0 <= i < n ensures Glue(x, y)[i] == x[i] {
        assert i > 0 ==> g[i - 1] == x[1..][i - 1];
      }
      forall i | 1 <= i < |y| ensures Glue(x, y)[n + i] == y[i] {
        assert g[n - 1 + i] == y[i];
      }
    }
  }

  lemma {:induction false} GlueNothing(x: seq<Text>, y: seq<Text>)
    requires x != []
    ensures Glue(x, [[]] + y) == x + y
  {
    if |x| == 1 {
      assert x[0] + [] == x[0];
    } else {
      GlueNothing(x[1..], y);
      assert x + y == [x[0]] + (x[1..] + y);
    }
  }

  lemma SplitJoin(a: Text, b: Text)
    ensures Split(a + [SLASH] + b) == Split(a) + Split(b)
  {
    var tail := [SLASH] + b;
    assert tail[0] == SLASH && tail[1..] == b && a + [SLASH] + b == a + tail;
    SplitGlue(a, tail);
    GlueNothing(Split(a), Split(b));
  }

  lemma {:induction false} PlainLevel(a: Text)
    requires SLASH !in a
    ensures Split(a) == [a]
  {
    if a != [] {
      PlainLevel(a[1..]);
      assert a == [a[0]] + a[1..];
    }
  }

  lemma {:induction false} LastLevel(a: Text)
    ensures var levels := Split(a); levels[|levels| - 1] == [] <==> a == [] || a[|a| - 1] == SLASH
  {
    if |a| > 1 {
      LastLevel(a[1..]);
    }
  }

  lemma PatternLevels(prefix: Text)
    ensures var x, p := Split(prefix), Split(prefix + HASH);
            |p| == |x| && p[..|x| - 1] == x[..|x| - 1] && p[|x| - 1] == x[|x| - 1] + HASH
  {
    PlainLevel(HASH);
    SplitGlue(prefix, HASH);
    GlueLevels(Split(prefix), [HASH]);
  }

  // ---------------------------------------------------------------- what is granted

  /** Level by level: a pattern that ends in "#" grants what starts with its levels before that, and their
      join itself; one whose last level only ends in '#' grants what runs on from the rest of that level;
      any other grants only itself. */
  predicate GrantedByLevels(pattern: seq<Text>, filter: seq<Text>)
    requires pattern != []
  {
    var n := |pattern| - 1;
    var last := pattern[n];
    if last == HASH then pattern[..n] <= filter
    else if last != [] && last[|last| - 1] == HASH_SIGN then
      n < |filter| && filter[..n] == pattern[..n] && last[..|last| - 1] <= filter[n]
    else filter == pattern
  }

  lemma FirstLevel(s: Text)
    ensures var first := Split(s)[0];
            if s == [] then Split(s) == [[]]
            else if s[0] == SLASH then Split(s) == [[]] + Split(s[1..])
            else first != [] && first[0] == s[0] && Split(s) == [[s[0]] + first[1..]] + Split(s[1..])[1..]
                 && first[1..] == Split(s[1..])[0]
  {
  }

  /** Whoever starts with all the levels of `a` is `a`, or goes on below it. */
  lemma {:induction false} StartsWithLevels(a: Text, b: Text)
    requires Split(a) <= Split(b)
    ensures a == b || a + [SLASH] <= b
  {
    hide Split;
    var x, y := Split(a), Split(b);
    FirstLevel(a);
    FirstLevel(b);
    assert x[0] == y[0];
    if a == [] {
      assert b != [] ==> b[0] == SLASH;
    } else {
      var u, v := Split(a[1..]), Split(b[1..]);
      assert a[0] == SLASH ==> |x| >= 2;
      if a[0] == SLASH {
        assert x[1..] == u && y[1..] == v;
      } else {
        assert x[1..] == u[1..] && y[1..] == v[1..];
        assert [u[0]] + u[1..] == u && [v[0]] + v[1..] == v;
      }
      StartsWithLevels(a[1..], b[1..]);
      assert a == [a[0]] + a[1..] && b == [b[0]] + b[1..];
    }
  }

  /** The last level of `a` may also run on. */
  lemma {:induction false} RunsOn(a: Text, b: Text)
    requires var x, y := Split(a), Split(b);
             |x| <= |y| && y[..|x| - 1] == x[..|x| - 1] && x[|x| - 1] <= y[|x| - 1]
    ensures a <= b
  {
    hide Split;
    var x, y := Split(a), Split(b);
    FirstLevel(a);
    FirstLevel(b);
    if a != [] {
      var u, v := Split(a[1..]), Split(b[1..]);
      var n := |x| - 1;
      assert n > 0 ==> x[0] == x[..n][0] == y[..n][0] == y[0];
      if a[0] == SLASH {
        assert u == x[1..] && v == y[1..];
        assert u[..n - 1] == x[..n][1..] && v[..n - 1] == y[..n][1..];
      } else {
        assert u == [x[0][1..]] + x[1..] && v == [y[0][1..]] + y[1..];
        forall i | 0 <= i < n ensures u[i] == v[i] {
          assert x[i] == x[..n][i] == y[..n][i] == y[i];
        }
        assert u[..n] == v[..n];
      }
      RunsOn(a[1..], b[1..]);
      assert a == [a[0]] + a[1..] && b == [b[0]] + b[1..];
    }
  }

  lemma SameLevels(a: Text, b: Text)
    ensures a == b <==> Split(a) == Split(b)
  {
    if Split(a) == Split(b) {
      StartsWithLevels(a, b);
      StartsWithLevels(b, a);
    }
  }

  /** A pattern that ends in "/#". */
  lemma BelowIsGranted(prefix: Text, filter: Text)
    ensures Split(prefix) <= Split(filter) <==> prefix + [SLASH] <= filter || filter == prefix
  {
    if Split(prefix) <= Split(filter) {
      StartsWithLevels(prefix, filter);
    } else if prefix + [SLASH] <= filter {
      var rest := filter[|prefix| + 1..];
      assert filter == prefix + [SLASH] + rest;
      SplitJoin(prefix, rest);
      assert false;
    }
  }

  /** A pattern that ends in '#'. */
  lemma RunningOnIsGranted(prefix: Text, filter: Text)
    ensures var x, f := Split(prefix), Split(filter);
            prefix <= filter <==> |x| <= |f| && f[..|x| - 1] == x[..|x| - 1] && x[|x| - 1] <= f[|x| - 1]
  {
    var x, f := Split(prefix), Split(filter);
    if prefix <= filter {
      var rest := filter[|prefix|..];
      assert filter == prefix + rest;
      SplitGlue(prefix, rest);
      GlueLevels(x, Split(rest));
    } else if |x| <= |f| && f[..|x| - 1] == x[..|x| - 1] && x[|x| - 1] <= f[|x| - 1] {
      RunsOn(prefix, filter);
    }
  }

  lemma NotBelow(prefix: Text)
    requires StripSuffix(prefix + HASH, [SLASH, HASH_SIGN]).None?
    ensures var x := Split(prefix); x[|x| - 1] == [] ==> |x| == 1
  {
    hide Split;
    FirstLevel(prefix);
    LastLevel(prefix);
    if prefix != [] {
      assert (prefix + HASH)[|prefix| - 1..] == [prefix[|prefix| - 1], HASH_SIGN];
    }
  }

  /** The rule on strings is this rule on levels, for every pattern and every filter. */
  lemma GrantsByLevels(pattern: Text, filter: Text)
    ensures SubscribeAllowed(pattern, filter) <==> GrantedByLevels(Split(pattern), Split(filter))
  {
    hide Split, GrantedByLevels;
    if StripSuffix(pattern, [SLASH, HASH_SIGN]).Some? {
      assert pattern == pattern[..|pattern| - 2] + [SLASH] + HASH;
      BelowByLevels(pattern[..|pattern| - 2], pattern, filter);
    } else if StripSuffix(pattern, HASH).Some? {
      var prefix := pattern[..|pattern| - 1];
      assert pattern == prefix + HASH;
      PatternLevels(prefix);
      NotBelow(prefix);
      RunningOnIsGranted(prefix, filter);
      RunningOnByLevels(Split(prefix), Split(pattern), Split(filter));
    } else {
      ItselfByLevels(pattern, filter);
    }
  }

  lemma ItselfByLevels(pattern: Text, filter: Text)
    requires pattern != [] ==> pattern[|pattern| - 1] != HASH_SIGN
    ensures GrantedByLevels(Split(pattern), Split(filter)) <==> filter == pattern
  {
    hide Split;
    SameLevels(pattern, filter);
    LastByte(pattern);
  }

  lemma BelowByLevels(prefix: Text, pattern: Text, filter: Text)
    requires pattern == prefix + [SLASH] + HASH
    ensures GrantedByLevels(Split(pattern), Split(filter)) <==>
            prefix + [SLASH] <= filter || filter == prefix || filter == pattern
  {
    hide Split;
    PlainLevel(HASH);
    SplitJoin(prefix, HASH);
    BelowIsGranted(prefix, filter);
    assert Split(pattern)[..|Split(prefix)|] == Split(prefix);
    assert filter == pattern ==> prefix + [SLASH] <= filter;
  }

  lemma RunningOnByLevels(x: seq<Text>, p: seq<Text>, f: seq<Text>)
    requires x != [] && |p| == |x| && p[..|x| - 1] == x[..|x| - 1] && p[|x| - 1] == x[|x| - 1] + HASH
    requires f != [] && (x[|x| - 1] == [] ==> |x| == 1)
    ensures GrantedByLevels(p, f) <==>
            |x| <= |f| && f[..|x| - 1] == x[..|x| - 1] && x[|x| - 1] <= f[|x| - 1]
  {
    var last := p[|p| - 1];
    assert last[..|last| - 1] == x[|x| - 1];
    assert last[|last| - 1] == HASH_SIGN;
  }

  /** So a valid pattern that ends in "#" lets in exactly the filters that start with its levels before the
      "#", among them the join of those levels, and the pattern; any other valid pattern only itself. */
  lemma ValidPatternGrants(pattern: Text, filter: Text)
    requires ValidFilter(pattern)
    ensures var p := Split(pattern);
            SubscribeAllowed(pattern, filter) <==>
            filter == pattern || (p[|p| - 1] == HASH && p[..|p| - 1] <= Split(filter))
  {
    hide Split, SubscribeAllowed;
    GrantsByLevels(pattern, filter);
    SameLevels(pattern, filter);
    var p := Split(pattern);
    var last := p[|p| - 1];
    assert |last| > 1 ==> last[|last| - 1] in last;
  }

  // ---------------------------------------------------------------- agreement

  /** A pattern whose last level ends in '#' without being "#" is read as a string prefix for
      subscriptions but as a literal level for publishes. */
  predicate Leaky(pattern: Text) {
    var levels := Split(pattern);
    var last := levels[|levels| - 1];
    && !StartsWithDollar(pattern)
    && HASH !in levels
    && |last| > 1 && last[|last| - 1] == HASH_SIGN
  }

  lemma ValidIsNotLeaky(pattern: Text)
    requires ValidFilter(pattern)
    ensures !Leaky(pattern)
  {
    var levels := Split(pattern);
    var last := levels[|levels| - 1];
    assert |last| > 1 ==> last[|last| - 1] in last;
  }

  /** Both filters go the same way as far as they agree. */
  lemma SameStart(p: seq<Text>, s: seq<Text>, n: nat, topic: seq<Text>)
    requires n <= |p| && n <= |s| && p[..n] == s[..n]
    requires Covers(Cut(s), topic)
    requires (n < |p| && p[n] == HASH) || HASH in p[..n]
    ensures Covers(Cut(p), topic)
  {
    var k := CutDecides(s, topic);
    var m := CutDecides(p, topic);
    assert forall i :: 0 <= i < n ==> p[i] == p[..n][i] == s[i];
  }

  lemma DollarStaysFirst(filter: Text, topic: Text)
    requires StartsWithDollar(filter)
    ensures !Matches(topic, filter)
  {
    var fs, ts := Split(filter), Split(topic);
    var k := CutDecides(fs, ts);
    assert fs[0] == [DOLLAR] + Split(filter[1..])[0];
    assert fs[0][0] == DOLLAR && k > 0;
    FirstByte(topic);
    assert Covers(Cut(fs), ts) ==> LevelAdmits(fs[0], ts[0]) && StartsWithDollar(topic);
  }

  lemma FirstByte(topic: Text)
    ensures Split(topic)[0] != [] ==> topic != [] && topic[0] == Split(topic)[0][0]
  {
  }

  /** A pattern that is not leaky never grants a subscription to anything it does not grant a publish
      to: every topic that reaches the subscriber is one the level matcher accepts. */
  lemma GrantsAgree(pattern: Text, filter: Text, topic: Text)
    requires !Leaky(pattern)
    requires SubscribeAllowed(pattern, filter) && Matches(topic, filter)
    ensures PublishAllowed(pattern, topic)
  {
    if pattern != filter {
      match StripSuffix(pattern, [SLASH, HASH_SIGN])
      case Some(prefix) => GrantsBelow(prefix, pattern, filter, topic);
      case None => GrantsPrefix(pattern[..|pattern| - 1], pattern, filter, topic);
    }
  }

  lemma GrantsBelow(prefix: Text, pattern: Text, filter: Text, topic: Text)
    requires pattern == prefix + [SLASH] + HASH
    requires (prefix + [SLASH] <= filter || filter == prefix) && Matches(topic, filter)
    ensures Matches(topic, pattern)
  {
    var x := Split(prefix);
    PlainLevel(HASH);
    SplitJoin(prefix, HASH);
    if filter != prefix {
      var rest := filter[|prefix| + 1..];
      assert filter == prefix + [SLASH] + rest;
      SplitJoin(prefix, rest);
    }
    SameStart(Split(pattern), Split(filter), |x|, Split(topic));
  }

  lemma GrantsPrefix(prefix: Text, pattern: Text, filter: Text, topic: Text)
    requires pattern == prefix + HASH && !Leaky(pattern) && prefix <= filter && Matches(topic, filter)
    requires prefix != [] ==> prefix[|prefix| - 1] != SLASH
    ensures Matches(topic, pattern)
  {
    PatternLevels(prefix);
    LastLevel(prefix);
    var x, p := Split(prefix), Split(pattern);
    if prefix == [] {
      PlainLevel(HASH);
      assert pattern == HASH;
    } else if StartsWithDollar(pattern) {
      DollarStaysFirst(filter, topic);
    } else {
      var rest := filter[|prefix|..];
      assert filter == prefix + rest;
      SplitGlue(prefix, rest);
      GlueLevels(x, Split(rest));
      var i :| 0 <= i < |p| && p[i] == HASH;
      assert p[..|x| - 1][i] == HASH;
      SameStart(p, Split(filter), |x| - 1, Split(topic));
    }
  }

  const LETTER: Text := [120]  // "x"

  lemma PlainMatchesItself(s: Text)
    requires !StartsWithDollar(s) && HASH !in Split(s)
    ensures Matches(s, s)
  {
    var levels := Split(s);
    assert forall i :: 0 <= i < |levels| ==> levels[i] in levels;
    CutNothing(levels);
  }

  /** The filter that stretches the last level of a leaky pattern. */
  lemma StretchedLevels(prefix: Text)
    requires Leaky(prefix + HASH)
    ensures var p, s := Split(prefix + HASH), Split(prefix + LETTER);
            && |s| == |p| && HASH !in s
            && p[|p| - 1] != PLUS && p[|p| - 1] != s[|p| - 1]
  {
    PatternLevels(prefix);
    PlainLevel(LETTER);
    SplitGlue(prefix, LETTER);
    GlueLevels(Split(prefix), [LETTER]);
    var x, p, s := Split(prefix), Split(prefix + HASH), Split(prefix + LETTER);
    var n := |x| - 1;
    forall i | 0 <= i < |s| ensures s[i] != HASH {
      if i < n {
        assert p[i] == p[..n][i] == x[..n][i] == s[i] && p[i] in p;
      }
    }
    assert p[n][|x[n]|] == HASH_SIGN && s[n][|x[n]|] == LETTER[0];
  }

  /** A leaky pattern does: it grants the subscription below, whose own topic it refuses. */
  lemma LeakyGrantsDisagree(pattern: Text)
    requires Leaky(pattern)
    ensures exists filter, topic ::
              SubscribeAllowed(pattern, filter) && Matches(topic, filter) && !PublishAllowed(pattern, topic)
  {
    hide Split;
    LastByte(pattern);
    var prefix := pattern[..|pattern| - 1];
    assert pattern == prefix + HASH;
    PatternLevels(prefix);
    LastLevel(prefix);
    var s := prefix + LETTER;
    StretchedLevels(prefix);
    PlainMatchesItself(s);
    var p := Split(pattern);
    assert forall i :: 0 <= i < |p| ==> p[i] in p;
    CutNothing(p);
    assert !LevelAdmits(p[|p| - 1], Split(s)[|p| - 1]);
    assert SubscribeAllowed(pattern, s) && Matches(s, s) && !PublishAllowed(pattern, s);
  }

  lemma {:induction false} LastByte(a: Text)
    ensures var levels := Split(a);
            var last := levels[|levels| - 1];
            last != [] ==> a != [] && a[|a| - 1] == last[|last| - 1]
  {
    if a != [] {
      LastByte(a[1..]);
      LastLevel(a[1..]);
    }
  }

  /** The string-prefix rule never grants more than the level matcher exactly when the pattern is not
      leaky, and no valid filter is. */
  lemma AgreementIsExact(pattern: Text)
    ensures !Leaky(pattern) <==>
            forall filter, topic ::
              SubscribeAllowed(pattern, filter) && Matches(topic, filter) ==> PublishAllowed(pattern, topic)
  {
    if Leaky(pattern) {
      LeakyGrantsDisagree(pattern);
    } else {
      forall filter, topic | SubscribeAllowed(pattern, filter) && Matches(topic, filter)
        ensures PublishAllowed(pattern, topic)
      {
        GrantsAgree(pattern, filter, topic);
      }
    }
  }
}
