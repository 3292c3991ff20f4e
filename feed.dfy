/**
 * The coaching feed: a newest-first list that keeps at most five entries.
 * Each successful draw runs `prev => [newSuggestion, ...prev.slice(0, 4)]`.
 */
module Feed {
  import opened Suggestions

  /** The feed keeps the five most recent suggestions. */
  const MaxFeed: nat := 5

  function Min(a: int, b: int): int { if a <= b then a else b }

  /** `[s, ...feed.slice(0, 4)]`: the new entry first, then the old entries, oldest dropped. */
  function Push(feed: seq<Suggestion>, s: Suggestion): (r: seq<Suggestion>)
    ensures |r| == Min(MaxFeed, |feed| + 1)
    ensures r[0] == s && r[1..] <= feed
  {
    [s] + feed[..Min(MaxFeed - 1, |feed|)]
  }

  /**
   * The feed after the draws in `drawn` have been added to it, earliest first:
   * a feed of at most five stays at most five, and the last draw is at the head.
   */
  function PushAll(feed: seq<Suggestion>, drawn: seq<Suggestion>): (r: seq<Suggestion>)
    ensures |feed| <= MaxFeed ==> |r| <= MaxFeed
    ensures drawn != [] ==> r != [] && r[0] == drawn[|drawn| - 1]
    decreases |drawn|
  {
    if drawn == [] then feed else PushAll(Push(feed, drawn[0]), drawn[1..])
  }

  function Reversed(xs: seq<Suggestion>): (r: seq<Suggestion>)
    ensures |r| == |xs|
    ensures forall k :: 0 <= k < |xs| ==> r[k] == xs[|xs| - 1 - k]
  {
    if xs == [] then [] else Reversed(xs[1..]) + [xs[0]]
  }

  /** Whatever feed it starts from, one push never leaves more than five entries. */
  lemma PushBounded(feed: seq<Suggestion>, s: Suggestion)
    ensures |Push(feed, s)| <= MaxFeed
    ensures |feed| < MaxFeed ==> Push(feed, s) == [s] + feed
  {
  }

  /** One push is the newest-first list of everything, cut to five. */
  lemma PushIsPrefixOfAll(feed: seq<Suggestion>, s: Suggestion)
    ensures Push(feed, s) == ([s] + feed)[..Min(MaxFeed, |feed| + 1)]
  {
    assert [s] + feed[..Min(MaxFeed - 1, |feed|)] == ([s] + feed)[..Min(MaxFeed, |feed| + 1)];
  }

  lemma PrefixOfPrefix(a: seq<Suggestion>, b: seq<Suggestion>)
    ensures (a + b[..Min(MaxFeed, |b|)])[..Min(MaxFeed, |a| + Min(MaxFeed, |b|))]
         == (a + b)[..Min(MaxFeed, |a| + |b|)]
  {
    var m := Min(MaxFeed, |b|);
    var k := Min(MaxFeed, |a| + m);
    assert k == Min(MaxFeed, |a| + |b|);
    forall j | 0 <= j < k
      ensures (a + b[..m])[j] == (a + b)[j]
    {
    }
  }

  /**
   * After any sequence of draws the feed holds the newest five of all entries
   * ever seen, newest first: earlier entries are evicted in the order they came.
   */
  lemma {:induction false} PushAllKeepsNewest(feed: seq<Suggestion>, drawn: seq<Suggestion>)
    requires |feed| <= MaxFeed
    ensures PushAll(feed, drawn) == (Reversed(drawn) + feed)[..Min(MaxFeed, |drawn| + |feed|)]
    decreases |drawn|
  {
    if drawn == [] {
      assert Reversed(drawn) + feed == feed;
    } else {
      var x, rest := drawn[0], drawn[1..];
      PushIsPrefixOfAll(feed, x);
      PushAllKeepsNewest(Push(feed, x), rest);
      PrefixOfPrefix(Reversed(rest), [x] + feed);
    }
  }

  /**
   * Starting from the empty feed, the feed is the last (up to) five draws in
   * reverse order of arrival, and never longer than five.
   */
  lemma FeedFromEmpty(drawn: seq<Suggestion>)
    ensures var k := Min(MaxFeed, |drawn|);
      |PushAll([], drawn)| == k && PushAll([], drawn) == Reversed(drawn[|drawn| - k..])
  {
    PushAllKeepsNewest([], drawn);
    ReversedPrefix(drawn, Min(MaxFeed, |drawn|));
  }

  /** The first k entries of the reversed list are the last k entries, reversed. */
  lemma ReversedPrefix(xs: seq<Suggestion>, k: nat)
    requires k <= |xs|
    ensures Reversed(xs)[..k] == Reversed(xs[|xs| - k..])
  {
    var tail := xs[|xs| - k..];
    forall j | 0 <= j < k
      ensures Reversed(xs)[j] == Reversed(tail)[j]
    {
      assert tail[k - 1 - j] == xs[|xs| - 1 - j];
    }
  }
}
